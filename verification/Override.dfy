/** Overriding configuration fields by name with string values: the setters that write fields in place, and what a set
    of overrides does in whatever order a map delivers it. The library's scalar parsers and its case folding are
    parameters. */
module Override {
  import opened Records
  import Tokenizer
  import opened Values

  datatype Field = Field(name: string, kind: Kind, value: Value)

  datatype Change = Change(name: string, value: string)

  // ----- one value -----

  /** What a field holds after being set to a text: bytes are decoded, a slice is written only as a whole. */
  function Assigned(lib: Library, kind: Kind, before: Value, str: string): Outcome {
    match kind
    case Bytes => var a := lib.decode(str); if a.Some? then Took(One(a.value)) else Refused(before)
    case Slice(of) =>
      var o := ParseElements(lib, of, Tokenizer.Tokens(',', str));
      if o.Took? then o else if o.Refused? then Refused(before) else Panicked(before)
    case Sealed(Bytes) => if lib.decode(str).Some? then Panicked(before) else Refused(before)
    case Sealed(Slice(of)) =>
      if ParseElements(lib, of, Tokenizer.Tokens(',', str)).Refused? then Refused(before) else Panicked(before)
    case _ => ParseValue(lib, kind, before, str)
  }

  /** The value that a text sets, if a field of this kind takes it. */
  function Parsed(lib: Library, kind: Kind, str: string): Option<Value> {
    var o := Assigned(lib, kind, Zero, str);
    if o.Took? then Some(o.v) else None
  }

  /** Whether it is taken, and what it sets, does not depend on what the field held. */
  lemma AssignedAlike(lib: Library, kind: Kind, before: Value, str: string)
    ensures Assigned(lib, kind, before, str).Took? <==> Parsed(lib, kind, str).Some?
    ensures Parsed(lib, kind, str).Some? ==> Assigned(lib, kind, before, str).v == Parsed(lib, kind, str).value
  {
    TakenAlike(lib, kind, before, Zero, str);
    TakenAlike(lib, kind, Zero, before, str);
  }

  /** When setting a field to a text panics: a slice does if the first token that does not fit panics, an unexported
      field also if it comes to the write. */
  ghost predicate Crashes(lib: Library, kind: Kind, str: string) {
    match kind
    case Bytes => false
    case Slice(of) => TokenPanics(lib, of, str)
    case Sealed(Bytes) => lib.decode(str).Some?
    case Sealed(Slice(of)) => TokenPanics(lib, of, str) || TokensFit(lib, of, str)
    case _ => Panics(lib, kind, str)
  }

  ghost predicate TokenPanics(lib: Library, k: Kind, str: string) {
    var tokens := Tokenizer.Tokens(',', str);
    exists i: nat :: i < |tokens| && PanicsAt(lib, k, tokens, i)
  }

  ghost predicate TokensFit(lib: Library, k: Kind, str: string) {
    var tokens := Tokenizer.Tokens(',', str);
    forall i | 0 <= i < |tokens| :: Fits(lib, k, tokens[i])
  }

  /** Whether a field takes a text, for every kind. */
  ghost predicate Takes(lib: Library, kind: Kind, str: string) {
    match kind
    case Bytes => lib.decode(str).Some?
    case Slice(of) => TokensFit(lib, of, str)
    case _ => Fits(lib, kind, str)
  }

  lemma AssignedExactly(lib: Library, kind: Kind, before: Value, str: string)
    ensures var o := Assigned(lib, kind, before, str);
      && (o.Took? <==> Takes(lib, kind, str))
      && (o.Panicked? <==> Crashes(lib, kind, str))
  {
    match kind
    case Bytes =>
    case Slice(of) =>
      ElementsExactly(lib, of, Tokenizer.Tokens(',', str));
      TakenTokensFit(lib, of, Tokenizer.Tokens(',', str));
    case Sealed(Bytes) =>
    case Sealed(Slice(of)) =>
      ElementsExactly(lib, of, Tokenizer.Tokens(',', str));
      TakenTokensFit(lib, of, Tokenizer.Tokens(',', str));
    case _ => OutcomeExactly(lib, kind, before, str);
  }

  /** What a field holds after taking a text: bytes decoded, of a list what each token stands for, in order. */
  ghost predicate HoldsFor(lib: Library, kind: Kind, str: string, v: Value) {
    match kind
    case Bytes => v.One? && lib.decode(str) == Some(v.text)
    case Slice(of) =>
      var tokens := Tokenizer.Tokens(',', str);
      && v.Many? && |v.elements| == |tokens|
      && forall i | 0 <= i < |tokens| :: StandsFor(lib, of, tokens[i], v.elements[i])
    case _ => StandsFor(lib, kind, str, v)
  }

  /** What a field holds after a refusal or a panic: lists, bytes and unexported fields are as before. */
  ghost predicate KeptAfter(lib: Library, kind: Kind, before: Value, str: string, v: Value) {
    if kind.Bytes? || kind.Slice? || kind.Sealed? then v == before else LeavesBehind(lib, kind, before, str, v)
  }

  lemma AssignedKeeps(lib: Library, kind: Kind, before: Value, str: string)
    ensures !Assigned(lib, kind, before, str).Took? ==>
      KeptAfter(lib, kind, before, str, Assigned(lib, kind, before, str).v)
  {
    FailureLeaves(lib, kind, before, str);
  }

  lemma AssignedHolds(lib: Library, kind: Kind, before: Value, str: string)
    ensures Assigned(lib, kind, before, str).Took? ==> HoldsFor(lib, kind, str, Assigned(lib, kind, before, str).v)
  {
    match kind
    case Bytes =>
    case Slice(of) =>
      if Assigned(lib, kind, before, str).Took? {
        ListStandsFor(lib, of, Tokenizer.Tokens(',', str));
      }
    case Sealed(_) =>
    case _ => TakenStandsFor(lib, kind, before, str);
  }

  /** The empty text for a list of structs is one empty token, and panics; so does a text for an unexported pattern
      field, whatever it is. */
  lemma CrashExamples(lib: Library, fields: seq<Kind>, before: Value, str: string)
    ensures Assigned(lib, Slice(Struct(fields)), before, "") == Panicked(before)
    ensures Assigned(lib, Sealed(Pointer(Unsupported)), before, str) == Panicked(before)
  {
    assert Tokenizer.Tokens(',', "") == [""];
    assert [""][..0] == [];
    PanicExamples(lib, fields, Zero);
  }

  // ----- one change -----

  /** The first field whose name equals the given one under case folding; |fs| if there is none. */
  function Target(lib: Library, fs: seq<Field>, name: string): (t: nat)
    ensures t <= |fs|
    ensures t < |fs| ==> lib.fold(fs[t].name) == lib.fold(name)
    ensures forall i | 0 <= i < t :: lib.fold(fs[i].name) != lib.fold(name)
  {
    if fs == [] then 0
    else if lib.fold(fs[0].name) == lib.fold(name) then 0
    else
      var t := Target(lib, fs[1..], name);
      assert forall i | 1 <= i < t + 1 :: fs[i] == fs[1..][i - 1];
      t + 1
  }

  /** A change is accepted when it hits no field or a field that can parse it. */
  predicate Accepts(lib: Library, fs: seq<Field>, c: Change) {
    var t := Target(lib, fs, c.name);
    t == |fs| || Parsed(lib, fs[t].kind, c.value).Some?
  }

  function Changed(lib: Library, fs: seq<Field>, c: Change): seq<Field>
    requires Accepts(lib, fs, c)
  {
    var t := Target(lib, fs, c.name);
    if t == |fs| then fs else fs[t := fs[t].(value := Parsed(lib, fs[t].kind, c.value).value)]
  }

  /** All changes in order; the first refusal ends everything. */
  function ChangedAll(lib: Library, fs: seq<Field>, cs: seq<Change>): Option<seq<Field>>
    decreases |cs|
  {
    if cs == [] then Some(fs)
    else if !Accepts(lib, fs, cs[0]) then None
    else ChangedAll(lib, Changed(lib, fs, cs[0]), cs[1..])
  }

  // ----- the configuration object -----

  datatype Ending = Accepted | Declined | Crashed

  function EndingOf(o: Outcome): Ending {
    match o
    case Took(_) => Accepted
    case Refused(_) => Declined
    case Panicked(_) => Crashed
  }

  /** Field i has been set to a text, with this ending; the other fields are as before. */
  ghost predicate Ended(lib: Library, before: seq<Field>, i: nat, str: string, e: Ending, after: seq<Field>)
    requires i < |before|
  {
    var o := Assigned(lib, before[i].kind, before[i].value, str);
    e == EndingOf(o) && after == before[i := before[i].(value := o.v)]
  }

  /** How a slice field ends, from how its tokens did. */
  lemma SliceEnds(lib: Library, fs: seq<Field>, i: nat, str: string, k: Kind)
    requires i < |fs| && (fs[i].kind == Slice(k) || fs[i].kind == Sealed(Slice(k)))
    ensures var o := ParseElements(lib, k, Tokenizer.Tokens(',', str));
      && (!o.Took? ==> Ended(lib, fs, i, str, EndingOf(o), fs))
      && (o.Took? && fs[i].kind.Sealed? ==> Ended(lib, fs, i, str, Crashed, fs))
      && (o.Took? && fs[i].kind.Slice? ==> Ended(lib, fs, i, str, Accepted, fs[i := fs[i].(value := o.v)]))
  {
    assert fs == fs[i := fs[i].(value := fs[i].value)];
  }

  class Config {
    const lib: Library
    var fields: seq<Field>

    constructor (lib: Library, fields: seq<Field>)
      ensures this.lib == lib && this.fields == fields
    {
      this.lib, this.fields := lib, fields;
    }

    /** Elements are parsed one token at a time; the field is written only when all of them have been taken, and that
        panics if it is unexported. */
    method SetSliceField(i: nat, str: string) returns (e: Ending)
      requires i < |fields|
      requires fields[i].kind.Slice? || (fields[i].kind.Sealed? && fields[i].kind.inner.Slice?)
      modifies this
      ensures Ended(lib, old(fields), i, str, e, fields)
      ensures e == Accepted ==> HoldsFor(lib, fields[i].kind, str, fields[i].value)
    {
      AssignedHolds(lib, fields[i].kind, fields[i].value, str);
      var sealed := fields[i].kind.Sealed?;
      var k := if sealed then fields[i].kind.inner.element else fields[i].kind.element;
      var tnz := new Tokenizer.SliceTokenizer(str, ',');
      ghost var all := Tokenizer.Tokens(',', str);
      ghost var n := 0;
      var slice: seq<Value> := [];
      var more := tnz.Scan();
      while more
        invariant tnz.Valid() && fresh(tnz) && fields == old(fields)
        invariant n <= |all| && (more ==> n < |all| && [tnz.buf] + tnz.YetAfterText() == all[n..])
        invariant !more ==> n == |all|
        invariant ParseElements(lib, k, all[..n]) == Took(Many(slice))
        decreases |all| - n
      {
        var token := tnz.Text();
        assert token == all[n..][0] && tnz.Yet() == all[n..][1..] == all[n + 1..];
        ElementsMore(lib, k, all, n);
        var el := Parse(lib, k, Zero, token);
        if !el.Took? {
          EndedPrefix(lib, k, all, n + 1);
          SliceEnds(lib, fields, i, str, k);
          return if el.Refused? then Declined else Crashed;
        }
        slice := slice + [el.v];
        n := n + 1;
        more := tnz.Scan();
      }
      assert all[..n] == all;
      SliceEnds(lib, fields, i, str, k);
      if sealed {
        return Crashed;
      }
      fields := fields[i := fields[i].(value := Many(slice))];
      return Accepted;
    }

    method SetFieldValue(i: nat, str: string) returns (e: Ending)
      requires i < |fields|
      modifies this
      ensures Ended(lib, old(fields), i, str, e, fields)
      ensures e == Accepted ==> HoldsFor(lib, fields[i].kind, str, fields[i].value)
    {
      AssignedHolds(lib, fields[i].kind, fields[i].value, str);
      var f := fields[i];
      var o: Outcome;
      match f.kind {
        case Slice(_) =>
          e := SetSliceField(i, str);
          return;
        case Sealed(Slice(_)) =>
          e := SetSliceField(i, str);
          return;
        case Sealed(Bytes) =>
          o := if lib.decode(str).Some? then Panicked(f.value) else Refused(f.value);
        case Bytes =>
          var a := lib.decode(str);
          o := if a.Some? then Took(One(a.value)) else Refused(f.value);
        case _ =>
          o := Parse(lib, f.kind, f.value, str);
      }
      fields := fields[i := f.(value := o.v)];
      e := EndingOf(o);
    }

    /** The first field whose name matches is set; a name that no field has is accepted and changes nothing. */
    method SetStructField(name: string, value: string) returns (e: Ending)
      modifies this
      ensures var t := Target(lib, old(fields), name);
        if t == |old(fields)| then e == Accepted && fields == old(fields)
        else Ended(lib, old(fields), t, value, e, fields)
      ensures e == Accepted <==> Accepts(lib, old(fields), Change(name, value))
      ensures e == Crashed <==> var t := Target(lib, old(fields), name);
        t < |old(fields)| && Crashes(lib, old(fields)[t].kind, value)
      ensures var t := Target(lib, old(fields), name);
        t < |old(fields)| ==>
          if e == Accepted then HoldsFor(lib, fields[t].kind, value, fields[t].value)
          else KeptAfter(lib, fields[t].kind, old(fields)[t].value, value, fields[t].value)
      ensures e == Accepted ==> fields == Changed(lib, old(fields), Change(name, value))
    {
      for i := 0 to |fields|
        invariant fields == old(fields)
        invariant forall j | 0 <= j < i :: lib.fold(fields[j].name) != lib.fold(name)
      {
        if lib.fold(fields[i].name) == lib.fold(name) {
          AssignedAlike(lib, fields[i].kind, fields[i].value, value);
          AssignedExactly(lib, fields[i].kind, fields[i].value, value);
          AssignedKeeps(lib, fields[i].kind, fields[i].value, value);
          e := SetFieldValue(i, value);
          return;
        }
      }
      return Accepted;
    }

    /** Take the overrides out of the map in any order; stop at the first refusal. */
    method OverrideAll(changes: map<string, string>) returns (ok: bool)
      modifies this
      ensures ok <==> AllFit(lib, old(fields), changes)
      ensures ok ==> InSomeOrder(lib, old(fields), changes, fields)
    {
      var left := changes.Keys;
      ghost var before := fields;
      ghost var order: seq<Change> := [];
      while left != {}
        invariant left <= changes.Keys && Lists(order, changes, changes.Keys - left)
        invariant ChangedAll(lib, before, order) == Some(fields)
        decreases |left|
      {
        var n :| n in left;
        NextOverride(lib, before, fields, changes, left, order, n);
        var e := SetStructField(n, changes[n]);
        if e != Accepted {
          return false;
        }
        left, order := left - {n}, order + [Change(n, changes[n])];
      }
      assert changes.Keys - left == changes.Keys;
      AcceptedListing(lib, before, order, changes);
      ok := true;
    }
  }

  // ----- any order -----

  /** The entries of a map at some of its keys, each once, in any order. */
  ghost predicate Lists(cs: seq<Change>, m: map<string, string>, keys: set<string>)
    requires keys <= m.Keys
  {
    && |cs| == |keys|
    && (forall i | 0 <= i < |cs| :: cs[i].name in keys && m[cs[i].name] == cs[i].value)
    && (forall i, j | 0 <= i < j < |cs| :: cs[i].name != cs[j].name)
    && (forall n | n in keys :: Change(n, m[n]) in cs)
  }

  lemma ListsMore(cs: seq<Change>, m: map<string, string>, keys: set<string>, n: string)
    requires keys <= m.Keys && Lists(cs, m, keys) && n in m && n !in keys
    ensures Lists(cs + [Change(n, m[n])], m, keys + {n})
  {
  }

  ghost predicate AllFit(lib: Library, fs: seq<Field>, m: map<string, string>) {
    forall n | n in m :: Accepts(lib, fs, Change(n, m[n]))
  }

  /** These fields are what the entries of the map leave in one of their orders. */
  ghost predicate InSomeOrder(lib: Library, fs: seq<Field>, m: map<string, string>, r: seq<Field>) {
    exists cs: seq<Change> :: Lists(cs, m, m.Keys) && ChangedAll(lib, fs, cs) == Some(r)
  }

  predicate SameFrame(fs: seq<Field>, gs: seq<Field>) {
    |fs| == |gs| && forall i | 0 <= i < |fs| :: fs[i].name == gs[i].name && fs[i].kind == gs[i].kind
  }

  /** Targets and acceptance depend on names and kinds only. */
  lemma SameTarget(lib: Library, fs: seq<Field>, gs: seq<Field>, c: Change)
    requires SameFrame(fs, gs)
    ensures Target(lib, fs, c.name) == Target(lib, gs, c.name)
    ensures Accepts(lib, fs, c) == Accepts(lib, gs, c)
  {
  }

  lemma {:induction false} KeepsFrame(lib: Library, fs: seq<Field>, cs: seq<Change>)
    requires ChangedAll(lib, fs, cs).Some?
    ensures SameFrame(fs, ChangedAll(lib, fs, cs).value)
    decreases |cs|
  {
    if cs != [] {
      KeepsFrame(lib, Changed(lib, fs, cs[0]), cs[1..]);
    }
  }

  lemma {:induction false} ChangedSnoc(lib: Library, fs: seq<Field>, cs: seq<Change>, c: Change)
    requires ChangedAll(lib, fs, cs).Some? && Accepts(lib, ChangedAll(lib, fs, cs).value, c)
    ensures ChangedAll(lib, fs, cs + [c]) == Some(Changed(lib, ChangedAll(lib, fs, cs).value, c))
    decreases |cs|
  {
    if cs == [] {
      assert cs + [c] == [c] && [c][1..] == [];
    } else {
      assert (cs + [c])[1..] == cs[1..] + [c];
      ChangedSnoc(lib, Changed(lib, fs, cs[0]), cs[1..], c);
    }
  }

  /** What one more change meets, and does, after some changes have gone through. */
  lemma AfterOrder(lib: Library, fs: seq<Field>, cs: seq<Change>, c: Change)
    requires ChangedAll(lib, fs, cs).Some?
    ensures Accepts(lib, fs, c) == Accepts(lib, ChangedAll(lib, fs, cs).value, c)
    ensures Accepts(lib, fs, c) ==> (
      ChangedAll(lib, fs, cs + [c]) == Some(Changed(lib, ChangedAll(lib, fs, cs).value, c)))
  {
    KeepsFrame(lib, fs, cs);
    SameTarget(lib, fs, ChangedAll(lib, fs, cs).value, c);
    if Accepts(lib, fs, c) {
      ChangedSnoc(lib, fs, cs, c);
    }
  }

  /** One turn of the loop over the map. */
  lemma NextOverride(lib: Library, fs: seq<Field>, now: seq<Field>, m: map<string, string>,
                     left: set<string>, cs: seq<Change>, n: string)
    requires n in left && left <= m.Keys && Lists(cs, m, m.Keys - left)
    requires ChangedAll(lib, fs, cs) == Some(now)
    ensures var c := Change(n, m[n]);
      if Accepts(lib, now, c) then
        Lists(cs + [c], m, m.Keys - (left - {n})) && ChangedAll(lib, fs, cs + [c]) == Some(Changed(lib, now, c))
      else
        !AllFit(lib, fs, m)
  {
    AfterOrder(lib, fs, cs, Change(n, m[n]));
    ListsMore(cs, m, m.Keys - left, n);
    assert m.Keys - (left - {n}) == m.Keys - left + {n};
  }

  lemma AcceptedListing(lib: Library, fs: seq<Field>, cs: seq<Change>, m: map<string, string>)
    requires Lists(cs, m, m.Keys) && ChangedAll(lib, fs, cs).Some?
    ensures AllFit(lib, fs, m) && InSomeOrder(lib, fs, m, ChangedAll(lib, fs, cs).value)
  {
    AcceptedAll(lib, fs, cs);
    forall n | n in m
      ensures Accepts(lib, fs, Change(n, m[n]))
    {
      assert Change(n, m[n]) in cs;
    }
  }

  /** All changes go through exactly when each of them is accepted on its own. */
  lemma {:induction false} AcceptedAll(lib: Library, fs: seq<Field>, cs: seq<Change>)
    ensures ChangedAll(lib, fs, cs).Some? <==> forall i | 0 <= i < |cs| :: Accepts(lib, fs, cs[i])
    decreases |cs|
  {
    if cs != [] && Accepts(lib, fs, cs[0]) {
      var gs := Changed(lib, fs, cs[0]);
      AcceptedAll(lib, gs, cs[1..]);
      forall i | 1 <= i < |cs|
        ensures Accepts(lib, gs, cs[1..][i - 1]) == Accepts(lib, fs, cs[i])
      {
        SameTarget(lib, fs, gs, cs[i]);
      }
      if forall i | 0 <= i < |cs| :: Accepts(lib, fs, cs[i]) {
        forall i | 0 <= i < |cs| - 1
          ensures Accepts(lib, gs, cs[1..][i])
        {
          assert Accepts(lib, fs, cs[i + 1]);
        }
      }
    }
  }

  predicate Hits(lib: Library, fs: seq<Field>, c: Change, i: nat)
    requires i < |fs|
  {
    Target(lib, fs, c.name) == i
  }

  /** The value of field i afterwards: that of the last change that hits it. */
  lemma {:induction false} LastHit(lib: Library, fs: seq<Field>, cs: seq<Change>, i: nat) returns (j: int)
    requires i < |fs| && ChangedAll(lib, fs, cs).Some?
    ensures |ChangedAll(lib, fs, cs).value| == |fs|
    ensures -1 <= j < |cs|
    ensures j >= 0 ==> Hits(lib, fs, cs[j], i) && Accepts(lib, fs, cs[j])
    ensures j >= 0 ==> ChangedAll(lib, fs, cs).value[i].value == Parsed(lib, fs[i].kind, cs[j].value).value
    ensures j == -1 ==> ChangedAll(lib, fs, cs).value[i].value == fs[i].value
    ensures forall m | j < m < |cs| :: !Hits(lib, fs, cs[m], i)
    decreases |cs|
  {
    if cs == [] {
      j := -1;
    } else {
      var gs := Changed(lib, fs, cs[0]);
      assert SameFrame(fs, gs);
      var j' := LastHit(lib, gs, cs[1..], i);
      forall m | 1 <= m < |cs|
        ensures Target(lib, gs, cs[m].name) == Target(lib, fs, cs[m].name)
        ensures Accepts(lib, gs, cs[m]) == Accepts(lib, fs, cs[m])
      {
        SameTarget(lib, fs, gs, cs[m]);
      }
      if j' >= 0 {
        j := j' + 1;
      } else if Hits(lib, fs, cs[0], i) {
        j := 0;
      } else {
        j := -1;
      }
      forall m | j < m < |cs|
        ensures !Hits(lib, fs, cs[m], i)
      {
        if m > 0 {
          assert cs[1..][m - 1] == cs[m];
          assert !Hits(lib, gs, cs[1..][m - 1], i);
        }
      }
    }
  }

  /** After accepted changes a field holds what the last change that hits it stands for; one that none hits is as it
      was. */
  lemma FieldAfter(lib: Library, fs: seq<Field>, cs: seq<Change>, i: nat) returns (j: int)
    requires i < |fs| && ChangedAll(lib, fs, cs).Some?
    ensures -1 <= j < |cs| && forall m | j < m < |cs| :: !Hits(lib, fs, cs[m], i)
    ensures var r := ChangedAll(lib, fs, cs).value;
      && |r| == |fs| && r[i].name == fs[i].name && r[i].kind == fs[i].kind
      && if j >= 0 then Hits(lib, fs, cs[j], i) && HoldsFor(lib, fs[i].kind, cs[j].value, r[i].value)
         else r[i].value == fs[i].value
  {
    KeepsFrame(lib, fs, cs);
    j := LastHit(lib, fs, cs, i);
    if j >= 0 {
      AssignedHolds(lib, fs[i].kind, Zero, cs[j].value);
    }
  }

  /** Any two changes that hit one field set it to the same value. */
  ghost predicate Agreeing(lib: Library, fs: seq<Field>, cs: seq<Change>) {
    forall a, b, i: nat | 0 <= a < |cs| && 0 <= b < |cs| && i < |fs|
                          && Hits(lib, fs, cs[a], i) && Hits(lib, fs, cs[b], i) ::
      Parsed(lib, fs[i].kind, cs[a].value) == Parsed(lib, fs[i].kind, cs[b].value)
  }

  ghost predicate AllAccepted(lib: Library, fs: seq<Field>, cs: seq<Change>) {
    forall i | 0 <= i < |cs| :: Accepts(lib, fs, cs[i])
  }

  /** Every order fails or succeeds alike. */
  lemma FailAlike(lib: Library, fs: seq<Field>, cs: seq<Change>, ds: seq<Change>)
    requires multiset(cs) == multiset(ds)
    ensures ChangedAll(lib, fs, cs).Some? <==> ChangedAll(lib, fs, ds).Some?
  {
    AcceptedAll(lib, fs, cs);
    AcceptedAll(lib, fs, ds);
    assert forall c :: c in cs <==> c in multiset(cs);
    assert forall c :: c in ds <==> c in multiset(ds);
    if ChangedAll(lib, fs, cs).Some? {
      forall i | 0 <= i < |ds|
        ensures Accepts(lib, fs, ds[i])
      {
        assert ds[i] in ds;
        assert ds[i] in cs;
      }
    } else {
      var i :| 0 <= i < |cs| && !Accepts(lib, fs, cs[i]);
      assert cs[i] in cs;
      assert cs[i] in ds;
    }
  }

  lemma AgreeingOrders(lib: Library, fs: seq<Field>, cs: seq<Change>, ds: seq<Change>)
    requires multiset(cs) == multiset(ds) && Agreeing(lib, fs, cs)
    ensures ChangedAll(lib, fs, cs) == ChangedAll(lib, fs, ds)
  {
    FailAlike(lib, fs, cs, ds);
    if ChangedAll(lib, fs, cs).Some? {
      var r := ChangedAll(lib, fs, cs).value;
      var q := ChangedAll(lib, fs, ds).value;
      KeepsFrame(lib, fs, cs);
      KeepsFrame(lib, fs, ds);
      forall i: nat | i < |fs|
        ensures r[i] == q[i]
      {
        var a := LastHit(lib, fs, cs, i);
        var b := LastHit(lib, fs, ds, i);
        if b >= 0 {
          assert ds[b] in multiset(ds);
          assert ds[b] in cs;
          var a' :| 0 <= a' < |cs| && cs[a'] == ds[b];
          assert Hits(lib, fs, cs[a'], i);
        }
        if a >= 0 {
          assert cs[a] in multiset(cs);
          assert cs[a] in ds;
          var b' :| 0 <= b' < |ds| && ds[b'] == cs[a];
          assert Hits(lib, fs, ds[b'], i);
        }
      }
      assert r == q;
    }
  }

  /** The same changes with number a moved to the end. */
  function MovedLast(cs: seq<Change>, a: nat): (r: seq<Change>)
    requires a < |cs|
    ensures |r| == |cs| && r[|r| - 1] == cs[a]
  {
    cs[..a] + cs[a + 1..] + [cs[a]]
  }

  lemma MovedIsOrder(cs: seq<Change>, a: nat)
    requires a < |cs|
    ensures multiset(MovedLast(cs, a)) == multiset(cs)
  {
    assert cs == cs[..a] + [cs[a]] + cs[a + 1..];
  }

  lemma MovedWins(lib: Library, fs: seq<Field>, cs: seq<Change>, a: nat, i: nat)
    requires AllAccepted(lib, fs, cs) && a < |cs| && i < |fs| && Hits(lib, fs, cs[a], i)
    ensures multiset(MovedLast(cs, a)) == multiset(cs)
    ensures var r := ChangedAll(lib, fs, MovedLast(cs, a));
      r.Some? && |r.value| == |fs| && r.value[i].value == Parsed(lib, fs[i].kind, cs[a].value).value
  {
    MovedIsOrder(cs, a);
    AcceptedAll(lib, fs, cs);
    FailAlike(lib, fs, cs, MovedLast(cs, a));
    var j := LastHit(lib, fs, MovedLast(cs, a), i);
  }

  /** The order does not matter exactly when some change is refused or all changes to one field agree. */
  lemma OrderMattersUnlessAgreeing(lib: Library, fs: seq<Field>, cs: seq<Change>)
    ensures (forall ds: seq<Change> | multiset(ds) == multiset(cs) ::
               ChangedAll(lib, fs, ds) == ChangedAll(lib, fs, cs))
            <==> (!AllAccepted(lib, fs, cs) || Agreeing(lib, fs, cs))
  {
    AcceptedAll(lib, fs, cs);
    if !AllAccepted(lib, fs, cs) {
      forall ds: seq<Change> | multiset(ds) == multiset(cs)
        ensures ChangedAll(lib, fs, ds) == ChangedAll(lib, fs, cs)
      {
        FailAlike(lib, fs, cs, ds);
      }
    } else if Agreeing(lib, fs, cs) {
      forall ds: seq<Change> | multiset(ds) == multiset(cs)
        ensures ChangedAll(lib, fs, ds) == ChangedAll(lib, fs, cs)
      {
        AgreeingOrders(lib, fs, cs, ds);
      }
    } else {
      var a: nat, b: nat, i: nat :| a < |cs| && b < |cs| && i < |fs|
        && Hits(lib, fs, cs[a], i) && Hits(lib, fs, cs[b], i)
        && Parsed(lib, fs[i].kind, cs[a].value) != Parsed(lib, fs[i].kind, cs[b].value);
      MovedWins(lib, fs, cs, a, i);
      MovedWins(lib, fs, cs, b, i);
      assert Accepts(lib, fs, cs[a]) && Accepts(lib, fs, cs[b]);
    }
  }

  /** Names that differ under case folding never disagree, so every order of the map gives the same outcome. */
  lemma DistinctNamesCommute(lib: Library, fs: seq<Field>, cs: seq<Change>, ds: seq<Change>)
    requires multiset(cs) == multiset(ds)
    requires forall a, b | 0 <= a < b < |cs| :: lib.fold(cs[a].name) != lib.fold(cs[b].name)
    ensures ChangedAll(lib, fs, cs) == ChangedAll(lib, fs, ds)
  {
    AgreeingOrders(lib, fs, cs, ds);
  }
}
