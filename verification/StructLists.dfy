/** Slices of structs as override values: what the tokenizer and the setter make of them together. */
module StructLists {
  import Tokenizer
  import opened Values
  import Override
  import TokenizerLaws

  /** No brace, no NUL rune. */
  predicate Unbraced(t: string) {
    forall i | 0 <= i < |t| :: t[i] != '{' && t[i] != '}' && t[i] != Tokenizer.NUL
  }

  /** Inside braces everything up to the next brace is collected. */
  lemma {:induction false} CollectInside(t: string, rest: string, buf: string)
    requires Unbraced(t)
    ensures Tokenizer.Split(',', t + rest, buf, true) == Tokenizer.Split(',', rest, buf + t, true)
    decreases |t|
  {
    if t == "" {
      assert t + rest == rest && buf + t == buf;
    } else {
      assert (t + rest)[1..] == t[1..] + rest;
      assert (buf + [t[0]]) + t[1..] == buf + t;
      CollectInside(t[1..], rest, buf + [t[0]]);
    }
  }

  /** The text of a struct. */
  function Braced(inner: string): string {
    "{" + inner + "}"
  }

  /** The first struct of a list is one token: its braces protect it. */
  lemma FirstIsWhole(inner: string)
    requires Unbraced(inner)
    ensures Tokenizer.Tokens(',', Braced(inner)) == [Braced(inner)]
  {
    StructThenRest(inner, "");
    assert Braced(inner) + "" == Braced(inner);
  }

  lemma StructThenRest(inner: string, rest: string)
    requires Unbraced(inner)
    ensures Tokenizer.Tokens(',', Braced(inner) + rest) == Tokenizer.Split(',', rest, Braced(inner), false)
  {
    var s := Braced(inner) + rest;
    assert s[1..] == inner + ("}" + rest) && "" + ['{'] == "{";
    CollectInside(inner, "}" + rest, "{");
    assert ("}" + rest)[1..] == rest;
    assert "{" + inner + ['}'] == Braced(inner);
  }

  /** Behind a struct and a comma, another opening brace is not seen. */
  lemma BraceUnseen(gap: nat, more: string, buf: string)
    ensures Tokenizer.Split(',', "," + (TokenizerLaws.Spaces(gap) + ("{" + more)), buf, false)
            == [buf] + Tokenizer.Split(',', more, "{", false)
  {
    var tail := TokenizerLaws.Spaces(gap) + ("{" + more);
    assert ("," + tail)[1..] == tail;
    TokenizerLaws.SkipSpaces(',', gap, "{" + more, buf);
    assert ("{" + more)[1..] == more;
  }

  /** So the next comma ends the token. */
  lemma CutAtComma(head: string, rest: string)
    requires Unbraced(head) && ',' !in head
    ensures Tokenizer.Split(',', head + ("," + rest), "{", false)[0] == "{" + head
  {
    TokenizerLaws.Collect(',', head, "," + rest, "{");
    assert ("," + rest)[1..] == rest;
    TokenizerLaws.AfterFirst(',', rest, "{" + head, false);
  }

  /** The second struct of a list is cut at its first comma. */
  lemma SecondIsCut(inner: string, gap: nat, head: string, rest: string)
    requires Unbraced(inner) && Unbraced(head) && ',' !in head
    ensures var ts := Tokenizer.Tokens(',', Braced(inner) + "," + TokenizerLaws.Spaces(gap) + "{" + head + "," + rest);
      |ts| >= 2 && ts[0] == Braced(inner) && ts[1] == "{" + head
  {
    var more := head + ("," + rest);
    var tail := "," + (TokenizerLaws.Spaces(gap) + ("{" + more));
    assert Braced(inner) + "," + TokenizerLaws.Spaces(gap) + "{" + head + "," + rest == Braced(inner) + tail;
    StructThenRest(inner, tail);
    BraceUnseen(gap, more, Braced(inner));
    CutAtComma(head, rest);
  }

  /** A slice field is set from one struct exactly when the struct itself is taken, and then holds just that. */
  lemma OneStruct(lib: Library, k: Kind, before: Value, inner: string)
    requires Unbraced(inner)
    ensures var p := ParseValue(lib, k, Zero, Braced(inner));
      var o := Override.Assigned(lib, Slice(k), before, Braced(inner));
      && (o.Took? <==> p.Took?)
      && (o.Took? ==> o.v == Many([p.v]))
  {
    FirstIsWhole(inner);
    var tokens := [Braced(inner)];
    assert tokens[..0] == [] && tokens[..1] == tokens;
    ElementsMore(lib, k, tokens, 0);
  }

  /** What each field holds after its own text. */
  function PartValues(lib: Library, fields: seq<Kind>, texts: seq<string>): (vs: seq<Value>)
    requires |texts| == |fields|
    ensures |vs| == |fields| && forall i | 0 <= i < |fields| :: vs[i] == ParseValue(lib, fields[i], Zero, texts[i]).v
  {
    seq(|fields|, i requires 0 <= i < |fields| => ParseValue(lib, fields[i], Zero, texts[i]).v)
  }

  /** A struct rendered from the texts of its fields is read back, through scanner, splitting and setters. */
  lemma StructReadsBack(lib: Library, fields: seq<Kind>, before: Value, texts: seq<string>)
    requires |texts| == |fields| >= 1
    requires forall i | 0 <= i < |texts| :: Unbraced(texts[i]) && ',' !in texts[i]
    ensures var o := Override.Assigned(lib, Slice(Struct(fields)), before, Braced(Texts.Join(texts, ',')));
      && (o.Took? <==> forall i | 0 <= i < |fields| :: ParseValue(lib, fields[i], Zero, texts[i]).Took?)
      && (o.Took? ==> o.v == Many([Parts(PartValues(lib, fields, texts))]))
  {
    var inner := Texts.Join(texts, ',');
    JoinUnbraced(texts);
    OneStruct(lib, Struct(fields), before, inner);
    assert Inner(Braced(inner)) == inner;
    Texts.JoinSplits(texts, ',');
    StructTaken(lib, fields, Zero, Braced(inner));
    var p := ParseValue(lib, Struct(fields), Zero, Braced(inner));
    if p.Took? {
      assert p.v == Parts(p.v.parts) && p.v.parts == PartValues(lib, fields, texts);
    }
  }

  lemma {:induction false} JoinUnbraced(texts: seq<string>)
    requires forall i | 0 <= i < |texts| :: Unbraced(texts[i])
    ensures Unbraced(Texts.Join(texts, ','))
    decreases |texts|
  {
    if |texts| > 1 {
      JoinUnbraced(texts[1..]);
    }
  }

  /** A slice of structs with two fields or more can never be set from a list of two structs or more: what is left of
      the second one, up to its first comma, has one piece only. */
  lemma TwoStructsNeverTaken(lib: Library, fields: seq<Kind>, before: Value,
                             inner: string, gap: nat, head: string, rest: string)
    requires |fields| >= 2 && Unbraced(inner) && Unbraced(head) && ',' !in head
    ensures !Override.Assigned(lib, Slice(Struct(fields)), before,
                               Braced(inner) + "," + TokenizerLaws.Spaces(gap) + "{" + head + "," + rest).Took?
  {
    var ts := Tokenizer.Tokens(',', Braced(inner) + "," + TokenizerLaws.Spaces(gap) + "{" + head + "," + rest);
    SecondIsCut(inner, gap, head, rest);
    ElementsTaken(lib, Struct(fields), ts);
    if head != "" {
      assert Inner("{" + head) <= head;
      Texts.OnePiece(Inner("{" + head), ',');
    }
    assert !ParseValue(lib, Struct(fields), Zero, ts[1]).Took?;
  }

  // ----- lists that are read back -----

  function BracedAll(inners: seq<string>): (ts: seq<string>)
    ensures |ts| == |inners| && forall i | 0 <= i < |inners| :: ts[i] == Braced(inners[i])
  {
    seq(|inners|, i requires 0 <= i < |inners| => Braced(inners[i]))
  }

  /** A later struct without a comma is one token, although its opening brace is not seen. */
  lemma LaterWhole(gap: nat, inner: string, more: string, buf: string)
    requires Unbraced(inner) && ',' !in inner
    ensures Tokenizer.Split(',', "," + (TokenizerLaws.Spaces(gap) + (Braced(inner) + more)), buf, false)
            == [buf] + Tokenizer.Split(',', more, Braced(inner), false)
  {
    assert Braced(inner) + more == "{" + (inner + ("}" + more));
    BraceUnseen(gap, inner + ("}" + more), buf);
    TokenizerLaws.Collect(',', inner, "}" + more, "{");
    assert ("}" + more)[1..] == more;
    assert ("{" + inner) + ['}'] == Braced(inner);
  }

  /** One with a comma is cut there. */
  lemma LaterCut(gap: nat, inner: string, more: string, buf: string)
    requires Unbraced(inner) && ',' in inner
    ensures var ts := Tokenizer.Split(',', "," + (TokenizerLaws.Spaces(gap) + (Braced(inner) + more)), buf, false);
      |ts| >= 2 && ts[1] != Braced(inner)
  {
    var head, rest := FirstComma(inner);
    assert Braced(inner) + more == "{" + (head + ("," + (rest + ("}" + more))));
    BraceUnseen(gap, head + ("," + (rest + ("}" + more))), buf);
    CutAtComma(head, rest + ("}" + more));
    assert |"{" + head| < |Braced(inner)|;
  }

  lemma {:induction false} FirstComma(t: string) returns (head: string, rest: string)
    requires ',' in t && Unbraced(t)
    ensures t == head + "," + rest && ',' !in head && Unbraced(head)
    decreases |t|
  {
    if t[0] == ',' {
      head, rest := "", t[1..];
    } else {
      assert t == [t[0]] + t[1..];
      head, rest := FirstComma(t[1..]);
      head := [t[0]] + head;
    }
  }

  ghost predicate NoComma(inners: seq<string>) {
    forall i | 0 <= i < |inners| :: ',' !in inners[i]
  }

  lemma {:induction false} LaterStructs(inners: seq<string>, gaps: seq<nat>, buf: string)
    requires |inners| == |gaps| && forall i | 0 <= i < |inners| :: Unbraced(inners[i])
    requires buf != ""
    ensures Tokenizer.Split(',', TokenizerLaws.RenderTail(',', BracedAll(inners), gaps), buf, false)
            == [buf] + BracedAll(inners)
            <==> NoComma(inners)
    decreases |inners|
  {
    if inners != [] {
      var rest := TokenizerLaws.RenderTail(',', BracedAll(inners[1..]), gaps[1..]);
      assert BracedAll(inners)[1..] == BracedAll(inners[1..]);
      assert TokenizerLaws.RenderTail(',', BracedAll(inners), gaps)
          == "," + (TokenizerLaws.Spaces(gaps[0]) + (Braced(inners[0]) + rest));
      if ',' in inners[0] {
        LaterCut(gaps[0], inners[0], rest, buf);
      } else {
        LaterWhole(gaps[0], inners[0], rest, buf);
        LaterStructs(inners[1..], gaps[1..], Braced(inners[0]));
        assert [Braced(inners[0])] + BracedAll(inners[1..]) == BracedAll(inners);
        TokenizerLaws.SameTail(buf, Tokenizer.Split(',', rest, Braced(inners[0]), false), BracedAll(inners));
        assert NoComma(inners) <==> NoComma(inners[1..]);
      }
    }
  }

  /** A rendered list of structs is read back, whatever the gaps, if and only if no struct but the first holds a comma:
      all others must have one field at most. */
  lemma ListReadsBackExactly(first: string, inners: seq<string>, gaps: seq<nat>)
    requires Unbraced(first) && |inners| == |gaps| && forall i | 0 <= i < |inners| :: Unbraced(inners[i])
    ensures Tokenizer.Tokens(',', Braced(first) + TokenizerLaws.RenderTail(',', BracedAll(inners), gaps))
            == [Braced(first)] + BracedAll(inners)
            <==> NoComma(inners)
  {
    StructThenRest(first, TokenizerLaws.RenderTail(',', BracedAll(inners), gaps));
    LaterStructs(inners, gaps, Braced(first));
  }
}
