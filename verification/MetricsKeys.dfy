/** What a joined key tells about the request behind it. */
module MetricsKeys {
  import opened Records
  import FlattenLaws
  import opened Metrics
  import opened Texts

  predicate NoBar(s: string) {
    '|' !in s
  }

  function FirstPart(s: string): string {
    if s == [] || s[0] == '|' then [] else [s[0]] + FirstPart(s[1..])
  }

  function RestParts(s: string): Option<string> {
    if s == [] then None else if s[0] == '|' then Some(s[1..]) else RestParts(s[1..])
  }

  lemma {:induction false} CutAt(x: string, y: string)
    requires NoBar(x)
    ensures FirstPart(x + "|" + y) == x && RestParts(x + "|" + y) == Some(y)
    decreases |x|
  {
    if x == [] {
      assert x + "|" + y == "|" + y && ("|" + y)[1..] == y;
    } else {
      assert (x + "|" + y)[1..] == x[1..] + "|" + y;
      CutAt(x[1..], y);
      assert x == [x[0]] + x[1..];
    }
  }

  lemma {:induction false} CutWhole(x: string)
    requires NoBar(x)
    ensures FirstPart(x) == x && RestParts(x) == None
    decreases |x|
  {
    if x != [] {
      CutWhole(x[1..]);
      assert x == [x[0]] + x[1..];
    }
  }

  lemma JoinMore(first: string, more: seq<string>)
    requires more != []
    ensures Join([first] + more, '|') == first + "|" + Join(more, '|')
  {
  }

  function NameOf(a: Ask): string {
    match a
    case OfScript(_, _, _) => SCRIPT_RESULT
    case OfTask(g, _, _) => GaugeName(g)
    case OfData(_, _, m) => if m.labels == [] then DATA else DATA_ITEM
  }

  lemma NamesHaveNoBar(a: Ask)
    requires Proper(a)
    ensures NoBar(NameOf(a)) && (a.OfData? ==> NoBar(Join(a.metric.names, ',')))
  {
    if a.OfData? {
      NamesText(a.metric.names);
    }
  }

  lemma NamesText(names: seq<string>)
    requires FlattenLaws.Shape(names)
    ensures Join(names, ',') ==
            if names == [] then ""
            else if names == ["item"] then "item"
            else if names == ["item", "value"] then "item,value"
            else if names == ["field"] then "field"
            else if names == ["field", "value"] then "field,value"
            else if names == ["field", "item"] then "field,item"
            else "field,item,value"
  {
  }

  /** The joined names of a shape tell the shape. */
  lemma NamesTold(x: seq<string>, y: seq<string>)
    requires FlattenLaws.Shape(x) && FlattenLaws.Shape(y) && Join(x, ',') == Join(y, ',')
    ensures x == y
  {
    NamesText(x);
    NamesText(y);
  }

  function ConstsOf(a: Ask): Labels {
    if a.OfScript? then map[] else a.who.consts
  }

  /** The part of a labelled key that names the task. */
  function Identity(w: Who): string {
    Join(Place(w), '|')
  }

  /** The part of a key that does not name the task. */
  function Topic(a: Ask): string {
    if a.OfData? && a.metric.labels != [] then DATA_ITEM + "|" + Join(a.metric.names, ',') else NameOf(a)
  }

  lemma KeyText(a: Ask)
    ensures KeyOf(a) == if ConstsOf(a) == map[] then Topic(a) else Topic(a) + "|" + Identity(a.who)
  {
    var parts := FullParts(Parts(a), ReadingOf(a));
    if a.OfData? && a.metric.labels != [] {
      var names := Join(a.metric.names, ',');
      if ConstsOf(a) == map[] {
        assert parts == [DATA_ITEM] + [names];
        JoinMore(DATA_ITEM, [names]);
      } else {
        assert parts == [DATA_ITEM] + ([names] + Place(a.who));
        JoinMore(DATA_ITEM, [names] + Place(a.who));
        JoinMore(names, Place(a.who));
        assert KeyOf(a) == DATA_ITEM + "|" + names + "|" + Identity(a.who);
      }
    } else if ConstsOf(a) == map[] {
      assert parts == [NameOf(a)];
    } else {
      assert parts == [NameOf(a)] + Place(a.who);
      JoinMore(NameOf(a), Place(a.who));
    }
  }

  lemma CutTwice(x: string, y: string, z: string)
    requires NoBar(x) && NoBar(y)
    ensures FirstPart(x + "|" + y + "|" + z) == x && RestParts(x + "|" + y + "|" + z) == Some(y + "|" + z)
    ensures FirstPart(y + "|" + z) == y && RestParts(y + "|" + z) == Some(z)
  {
    assert x + "|" + y + "|" + z == x + "|" + (y + "|" + z);
    CutAt(x, y + "|" + z);
    CutAt(y, z);
  }

  /** Names of metrics and of labels come first in a key; what names the task comes last, if there are labels. */
  lemma KeyCut(a: Ask)
    requires Proper(a)
    ensures FirstPart(KeyOf(a)) == NameOf(a)
    ensures NameOf(a) != DATA_ITEM ==>
      RestParts(KeyOf(a)) == (if ConstsOf(a) == map[] then None else Some(Identity(a.who)))
    ensures NameOf(a) == DATA_ITEM ==>
              && a.OfData? && RestParts(KeyOf(a)).Some?
              && FirstPart(RestParts(KeyOf(a)).value) == Join(a.metric.names, ',')
              && RestParts(RestParts(KeyOf(a)).value) == (if ConstsOf(a) == map[] then None else Some(Identity(a.who)))
  {
    NamesHaveNoBar(a);
    KeyText(a);
    CutWhole(NameOf(a));
    if a.OfData? && a.metric.labels != [] {
      var names := Join(a.metric.names, ',');
      CutWhole(names);
      CutAt(NameOf(a), names);
      if ConstsOf(a) != map[] {
        CutTwice(NameOf(a), names, Identity(a.who));
      }
    } else if ConstsOf(a) != map[] {
      CutAt(NameOf(a), Identity(a.who));
    }
  }

  lemma NameTells(a: Ask, b: Ask)
    requires NameOf(a) == NameOf(b)
    ensures a.OfScript? <==> b.OfScript?
    ensures a.OfTask? <==> (b.OfTask? && b.gauge == a.gauge)
    ensures a.OfData? <==> (b.OfData? && (b.metric.labels == []) == (a.metric.labels == []))
  {
  }

  /** One key means one descriptor up to its constant labels, and both requests are labelled or neither is. */
  lemma KeysTell(a: Ask, b: Ask)
    requires Proper(a) && Proper(b) && KeyOf(a) == KeyOf(b)
    ensures Meant(a).(consts := ConstsOf(b)) == Meant(b)
    ensures ConstsOf(a) == map[] <==> ConstsOf(b) == map[]
    ensures ConstsOf(a) != map[] ==> Identity(a.who) == Identity(b.who)
  {
    KeyCut(a);
    KeyCut(b);
    NameTells(a, b);
    if a.OfData? {
      if a.metric.labels == [] {
        assert a.metric.names == [] && b.metric.names == [];
      } else {
        NamesTold(a.metric.names, b.metric.names);
      }
    }
  }

  lemma BarIsNoBase(s: string)
    requires !NoBar(s)
    ensures Base(s) == None
  {
  }

  /** With nothing cached, the code builds the descriptor that is meant. */
  lemma BuiltIsMeant(a: Ask)
    requires Proper(a)
    ensures Built(FullParts(Parts(a), ReadingOf(a)), ReadingOf(a)) == Some(Meant(a))
  {
    var parts := FullParts(Parts(a), ReadingOf(a));
    assert PROBE_LABELS + [] == PROBE_LABELS;
    if |parts| == 1 {
      assert !a.OfData? || a.metric.names == [];
      assert Join(parts, '|') == NameOf(a);
    } else {
      assert parts == [parts[0]] + parts[1..];
      JoinMore(parts[0], parts[1..]);
      assert Join(parts, '|')[|parts[0]|] == '|';
      BarIsNoBase(Join(parts, '|'));
      assert parts[0] == NameOf(a);
    }
  }
}
