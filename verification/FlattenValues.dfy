/** Which number and which labels every supported value of some probe data shows up with, spelled out for each kind. */
module FlattenValues {
  import opened Records
  import opened Flatten
  import FlattenLaws

  /** A value under these labels: its number and, for a text, the text as a further label. */
  predicate Shows(e: Metric, v: Scalar, labels: seq<string>, names: seq<string>) {
    match v
    case BoolValue(b) => e == Metric(if b then 1.0 else 0.0, labels, names)
    case IntValue(n) => e == Metric(n as real, labels, names)
    case FloatValue(x) => e == Metric(x, labels, names)
    case StringValue(s) => e == Metric(if s == "" then 0.0 else 1.0, labels + [s], names + ["value"])
    case OtherValue => false
  }

  // ----- printed keys -----

  predicate AllDigits(s: string) {
    forall i | 0 <= i < |s| :: '0' <= s[i] <= '9'
  }

  function Number(s: string): nat
    requires AllDigits(s)
  {
    if s == "" then 0 else 10 * Number(s[..|s| - 1]) + (s[|s| - 1] - '0') as nat
  }

  lemma {:induction false} DigitsReadBack(n: nat)
    ensures AllDigits(Digits(n)) && Number(Digits(n)) == n
    ensures n > 0 ==> Digits(n)[..1] != "0" && Digits(n) != ""
    decreases n
  {
    var last := Digit(n % 10);
    assert '0' <= last <= '9' && (last - '0') as nat == n % 10;
    if n < 10 {
      assert [last][..0] == "" && Number([last]) == n % 10;
    } else {
      DigitsReadBack(n / 10);
      assert Digits(n)[..|Digits(n)| - 1] == Digits(n / 10);
      assert Digits(n)[..1] == Digits(n / 10)[..1];
    }
  }

  /** Integer keys are printed in decimal, without leading zeros, negative ones behind a minus sign. */
  lemma KeysReadBack(n: int)
    ensures var s := KeyString(IntKey(n));
      if n < 0 then s != "" && s[0] == '-' && AllDigits(s[1..]) && Number(s[1..]) == -n && s[1..][..1] != "0"
      else AllDigits(s) && Number(s) == n && (n > 0 ==> s[..1] != "0")
  {
    DigitsReadBack(if n < 0 then -n else n);
  }

  /** One text comes before another: at the first difference it has the smaller rune, or it ends there. */
  lemma {:induction false} LessMeans(a: string, b: string)
    ensures Less(a, b) <==>
            exists i :: 0 <= i <= |a| && i < |b| && a[..i] == b[..i] && (i == |a| || a[i] < b[i])
    decreases |a|
  {
    if a == "" {
      assert b != "" ==> a[..0] == b[..0];
    } else if b != "" && a[0] == b[0] {
      LessMeans(a[1..], b[1..]);
      if Less(a, b) {
        var i :| 0 <= i <= |a[1..]| && i < |b[1..]| && a[1..][..i] == b[1..][..i]
          && (i == |a[1..]| || a[1..][i] < b[1..][i]);
        assert a[..i + 1] == [a[0]] + a[1..][..i] && b[..i + 1] == [b[0]] + b[1..][..i];
      }
      if i :| 0 <= i <= |a| && i < |b| && a[..i] == b[..i] && (i == |a| || a[i] < b[i]) {
        assert i > 0;
        assert a[1..][..i - 1] == a[..i][1..] && b[1..][..i - 1] == b[..i][1..];
      }
    } else if b != "" {
      assert a[..0] == b[..0];
      if i :| 0 <= i <= |a| && i < |b| && a[..i] == b[..i] && (i == |a| || a[i] < b[i]) {
        assert i > 0 ==> a[..i][0] == b[..i][0];
      }
    }
  }

  // ----- maps -----

  /** An entry that a top-level map shows: no pointers, no booleans. */
  predicate ItemKept(k: Key, c: Ref<Scalar>) {
    (k.IntKey? || k.StringKey?) && c.Direct? && (c.it.IntValue? || c.it.FloatValue? || c.it.StringValue?)
  }

  predicate ItemShows(e: Metric, k: Key, c: Ref<Scalar>) {
    ItemKept(k, c) && Shows(e, c.it, [if k.StringKey? then k.s else KeyString(k)], ["item"])
  }

  /** An entry that a map in a struct field shows. */
  predicate FieldItemKept(k: Key, c: Ref<Scalar>) {
    k.StringKey? && !c.NilPointer? && !c.it.OtherValue?
  }

  predicate FieldItemShows(e: Metric, field: string, k: Key, c: Ref<Scalar>) {
    FieldItemKept(k, c) && Shows(e, c.it, [field, k.s], ["field", "item"])
  }

  /** Every supported entry of a top-level map has its metric, and there are no others. */
  lemma MapValues(m: GoMap)
    requires m.Typed()
    ensures forall k | k in m.entries && ItemKept(k, m.entries[k]) ::
              exists e :: e in FlatMap(None, m) && ItemShows(e, k, m.entries[k])
    ensures forall e | e in FlatMap(None, m) :: exists k :: k in m.entries && ItemShows(e, k, m.entries[k])
  {
    FlattenLaws.MapMeaning(None, m);
    forall k | k in m.entries && ItemKept(k, m.entries[k])
      ensures exists e :: e in FlatMap(None, m) && ItemShows(e, k, m.entries[k])
    {
      var e := Entry(None, m, k);
      assert ItemShows(e.value, k, m.entries[k]);
    }
    forall e | e in FlatMap(None, m)
      ensures exists k :: k in m.entries && ItemShows(e, k, m.entries[k])
    {
      var k :| k in m.entries && Entry(None, m, k) == Some(e);
      assert ItemShows(e, k, m.entries[k]);
    }
  }

  lemma FieldEntry(field: string, m: GoMap, k: Key)
    requires k in m.entries
    ensures FieldItemKept(k, m.entries[k]) <==> Entry(Some(field), m, k).Some?
    ensures Entry(Some(field), m, k).Some? ==>
      FieldItemShows(Entry(Some(field), m, k).value, field, k, m.entries[k])
  {
  }

  /** The same for a map in a struct field. */
  lemma FieldMapValues(field: string, m: GoMap)
    requires m.Typed()
    ensures forall k | k in m.entries && FieldItemKept(k, m.entries[k]) ::
              exists e :: e in FlatMap(Some(field), m) && FieldItemShows(e, field, k, m.entries[k])
    ensures forall e | e in FlatMap(Some(field), m) ::
              exists k :: k in m.entries && FieldItemShows(e, field, k, m.entries[k])
  {
    FlattenLaws.MapMeaning(Some(field), m);
    forall k | k in m.entries && FieldItemKept(k, m.entries[k])
      ensures exists e :: e in FlatMap(Some(field), m) && FieldItemShows(e, field, k, m.entries[k])
    {
      FieldEntry(field, m, k);
      assert Entry(Some(field), m, k).value in FlatMap(Some(field), m);
    }
    forall e | e in FlatMap(Some(field), m)
      ensures exists k :: k in m.entries && FieldItemShows(e, field, k, m.entries[k])
    {
      var k :| k in m.entries && Entry(Some(field), m, k) == Some(e);
      FieldEntry(field, m, k);
    }
  }

  // ----- struct fields -----

  /** The json tag up to its first comma. */
  ghost predicate TagName(tag: string, name: string) {
    ',' !in name && (tag == name || name + "," <= tag)
  }

  lemma {:induction false} TagNameIs(tag: string, name: string)
    requires TagName(tag, name)
    ensures BeforeComma(tag) == name
    decreases |tag|
  {
    if name != "" {
      assert tag[0] == name[0] && name == [name[0]] + name[1..];
      assert name + "," <= tag ==> name[1..] + "," <= tag[1..];
      TagNameIs(tag[1..], name[1..]);
    }
  }

  /** What one field gives: nothing if it is unexported, hidden by its tag, nil or unsupported; one metric for a plain
      value, under the tag's name or else its own; for a map, the map's metrics under that name. */
  lemma FieldValues(f: Field, name: string)
    requires TagName(f.tag, name) && f.name != ""
    ensures var shown := if name == "" then f.name else name;
      if !f.exported || name == "-" || f.value.NilPointer? then FlatField(f) == []
      else
        match f.value.it
        case OfMap(m) => FlatField(f) == FlatMap(Some(shown), m)
        case Plain(v) =>
          if v.OtherValue? then FlatField(f) == []
          else |FlatField(f)| == 1 && Shows(FlatField(f)[0], v, [shown], ["field"])
  {
    TagNameIs(f.tag, name);
  }

  /** The metrics of a struct are those of its fields, one field after the other. */
  lemma FieldsInOrder(fs: seq<Field>, k: nat)
    requires k < |fs|
    ensures FlatFields([]) == []
    ensures FlatFields(fs[..k + 1]) == FlatFields(fs[..k]) + FlatField(fs[k])
    ensures FlatFields(fs[..|fs|]) == FlatFields(fs)
  {
    assert fs[..k + 1][..k] == fs[..k] && fs[..|fs|] == fs;
  }

  // ----- everything else -----

  /** A simple value is one metric without a field; only a text has a label, an unsupported value is zero. */
  lemma SimpleValues(v: Scalar)
    ensures var ms := Flat(Direct(Simple(v)));
      && |ms| == 1 && Flat(Pointed(Simple(v))) == ms
      && match v
         case BoolValue(b) => ms[0] == Metric(if b then 1.0 else 0.0, [], [])
         case IntValue(n) => ms[0] == Metric(n as real, [], [])
         case FloatValue(x) => ms[0] == Metric(x, [], [])
         case StringValue(s) => ms[0] == Metric(if s == "" then 0.0 else 1.0, [s], ["item"])
         case OtherValue => ms[0] == Metric(0.0, [], [])
  {
  }

  /** Nothing comes of a nil pointer; a pointer counts as what it points to; maps and structs give what their walks
      give. */
  lemma AnyData(d: Data)
    ensures Flat(NilPointer) == [] && Flat(Pointed(d)) == Flat(Direct(d))
    ensures d.Mapping? ==> Flat(Direct(d)) == FlatMap(None, d.m)
    ensures d.Record? ==> Flat(Direct(d)) == FlatFields(d.fields)
  {
  }
}
