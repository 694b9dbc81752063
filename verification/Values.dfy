/** Setting a place to the value that a text stands for: scalars, pointers and structs, nested as their types are. */
module Values {
  import opened Records
  import Texts

  datatype Scalar = Bool | Int | Uint | Float | Text | Duration

  /** `Sealed` is the kind of an unexported field: its name and type are seen, but a write to it panics. */
  datatype Kind =
    | Leaf(of: Scalar)
    | Bytes
    | Pointer(to: Kind)
    | Slice(element: Kind)
    | Struct(fields: seq<Kind>)
    | Map
    | Sealed(inner: Kind)
    | Unsupported

  /** Scalars are kept as the canonical text that a parser returns. */
  datatype Value =
    | Zero
    | One(text: string)
    | PointerTo(target: Value)
    | Many(elements: seq<Value>)
    | Parts(parts: seq<Value>)
    | EmptyMap

  /** What the program takes from its libraries. */
  datatype Library = Library(
    parse: (Scalar, string) -> Option<string>, decode: string -> Option<string>, fold: string -> string)

  /** What the place holds afterwards: a refusal, or a panic, can leave it half set. */
  datatype Outcome = Took(v: Value) | Refused(v: Value) | Panicked(v: Value)

  function ParseScalar(lib: Library, k: Scalar, str: string): Option<string> {
    if k == Text then Some(str) else lib.parse(k, str)
  }

  /** The parts of a struct's value. */
  function PartsOf(v: Value, n: nat): (vs: seq<Value>)
    ensures |vs| == n
  {
    if v.Parts? && |v.parts| == n then v.parts else seq(n, i => Zero)
  }

  function Wrapped(o: Outcome): Outcome {
    match o
    case Took(v) => Took(PointerTo(v))
    case Refused(v) => Refused(PointerTo(v))
    case Panicked(v) => Panicked(PointerTo(v))
  }

  /** What lies between the first and the last rune of a struct's text. */
  function Inner(str: string): string
    requires |str| >= 2
  {
    str[1..|str| - 1]
  }

  /** Whether parsing a text into a place that must not be written comes to a write, or to braces that are not there,
      before it is refused. */
  function Denied(lib: Library, k: Kind, str: string): bool
    decreases k
  {
    match k
    case Leaf(of) => ParseScalar(lib, of, str).Some?
    case Pointer(_) => true
    case Map => true
    case Struct(fields) =>
      if |str| < 2 then true
      else
        var texts := Texts.Split(Inner(str), ',');
        |texts| == |fields| && Denied(lib, fields[0], texts[0])
    case Sealed(inner) => Denied(lib, inner, str)
    case Bytes => false
    case Slice(_) => false
    case Unsupported => false
  }

  /** A map is renewed before it is refused, a pointer before its target is parsed; a text too short for a struct's
      braces panics, and so does a write to an unexported field. */
  function ParseValue(lib: Library, k: Kind, before: Value, str: string): Outcome
    decreases k, if k.Struct? then |k.fields| + 1 else 0
  {
    match k
    case Leaf(of) => var a := ParseScalar(lib, of, str); if a.Some? then Took(One(a.value)) else Refused(before)
    case Pointer(to) => Wrapped(ParseValue(lib, to, Zero, str))
    case Struct(fields) =>
      if |str| < 2 then Panicked(before)
      else
        var texts := Texts.Split(Inner(str), ',');
        if |texts| != |fields| then Refused(before) else ParseParts(lib, k, PartsOf(before, |fields|), texts, 0)
    case Map => Refused(EmptyMap)
    case Sealed(inner) => if Denied(lib, inner, str) then Panicked(before) else Refused(before)
    case Bytes => Refused(before)
    case Slice(_) => Refused(before)
    case Unsupported => Refused(before)
  }

  function ParseParts(lib: Library, k: Kind, vs: seq<Value>, texts: seq<string>, i: nat): Outcome
    requires k.Struct? && |vs| == |texts| == |k.fields| && i <= |vs|
    decreases k, |vs| - i
  {
    if i == |vs| then Took(Parts(vs))
    else
      match ParseValue(lib, k.fields[i], vs[i], texts[i])
      case Took(v) => ParseParts(lib, k, vs[i := v], texts, i + 1)
      case Refused(v) => Refused(Parts(vs[i := v]))
      case Panicked(v) => Panicked(Parts(vs[i := v]))
  }

  /** Each element is parsed into a zero value of its own; the first that is not taken ends all. */
  function ParseElements(lib: Library, k: Kind, tokens: seq<string>): Outcome
    ensures ParseElements(lib, k, tokens).Took? ==> ParseElements(lib, k, tokens).v.Many?
    decreases |tokens|
  {
    if tokens == [] then Took(Many([]))
    else
      var init := ParseElements(lib, k, tokens[..|tokens| - 1]);
      if !init.Took? then init
      else
        var last := ParseValue(lib, k, Zero, tokens[|tokens| - 1]);
        if last.Took? then Took(Many(init.v.elements + [last.v])) else last
  }

  // ----- what was there before does not matter -----

  /** If a text is taken, the place holds the same afterwards whatever it held before. */
  lemma {:induction false} TakenAlike(lib: Library, k: Kind, v: Value, w: Value, str: string)
    ensures ParseValue(lib, k, v, str).Took? ==> ParseValue(lib, k, w, str) == ParseValue(lib, k, v, str)
    decreases k, if k.Struct? then |k.fields| + 1 else 0
  {
    if k.Struct? && |str| >= 2 && |Texts.Split(Inner(str), ',')| == |k.fields| {
      PartsAlike(lib, k, PartsOf(v, |k.fields|), PartsOf(w, |k.fields|), Texts.Split(Inner(str), ','), 0);
    }
  }

  lemma {:induction false} PartsAlike(lib: Library, k: Kind, vs: seq<Value>, ws: seq<Value>, texts: seq<string>, i: nat)
    requires k.Struct? && |vs| == |ws| == |texts| == |k.fields| && i <= |vs| && vs[..i] == ws[..i]
    ensures ParseParts(lib, k, vs, texts, i).Took? ==>
      ParseParts(lib, k, ws, texts, i) == ParseParts(lib, k, vs, texts, i)
    decreases k, |vs| - i
  {
    if i == |vs| {
      assert vs[..i] == vs && ws[..i] == ws;
    } else {
      var o := ParseValue(lib, k.fields[i], vs[i], texts[i]);
      if o.Took? {
        TakenAlike(lib, k.fields[i], vs[i], ws[i], texts[i]);
        PartsAlike(lib, k, vs[i := o.v], ws[i := o.v], texts, i + 1);
      }
    }
  }

  // ----- structs -----

  /** From part i on: all is taken exactly when each part takes its own piece, and then each holds what that piece
      stands for; the parts before are left alone. */
  lemma {:induction false} PartsTaken(lib: Library, k: Kind, vs: seq<Value>, texts: seq<string>, i: nat)
    requires k.Struct? && |vs| == |texts| == |k.fields| && i <= |vs|
    ensures var o := ParseParts(lib, k, vs, texts, i);
      && (o.Took? <==> forall j | i <= j < |vs| :: ParseValue(lib, k.fields[j], Zero, texts[j]).Took?)
      && (o.Took? ==>
            && o.v.Parts? && |o.v.parts| == |vs| && o.v.parts[..i] == vs[..i]
            && forall j | i <= j < |vs| :: o.v.parts[j] == ParseValue(lib, k.fields[j], Zero, texts[j]).v)
    decreases |vs| - i
  {
    if i < |vs| {
      var o := ParseValue(lib, k.fields[i], vs[i], texts[i]);
      TakenAlike(lib, k.fields[i], vs[i], Zero, texts[i]);
      TakenAlike(lib, k.fields[i], Zero, vs[i], texts[i]);
      if o.Took? {
        var ws := vs[i := o.v];
        PartsTaken(lib, k, ws, texts, i + 1);
        var p := ParseParts(lib, k, ws, texts, i + 1);
        if p.Took? {
          assert p.v.parts[i] == p.v.parts[..i + 1][i] == ws[..i + 1][i] == o.v;
          assert p.v.parts[..i] == p.v.parts[..i + 1][..i] == ws[..i + 1][..i] == vs[..i];
        }
      }
    }
  }

  /** A struct takes a text exactly when there are as many pieces as fields and each field takes its own, and then each
      part holds what its piece stands for. */
  lemma StructTaken(lib: Library, fields: seq<Kind>, before: Value, str: string)
    requires |str| >= 2
    ensures var o := ParseValue(lib, Struct(fields), before, str);
      var texts := Texts.Split(Inner(str), ',');
      && (o.Took? <==> |texts| == |fields|
                       && forall j | 0 <= j < |fields| :: ParseValue(lib, fields[j], Zero, texts[j]).Took?)
      && (o.Took? ==>
            && o.v.Parts? && |o.v.parts| == |fields|
            && forall j | 0 <= j < |fields| :: o.v.parts[j] == ParseValue(lib, fields[j], Zero, texts[j]).v)
  {
    var texts := Texts.Split(Inner(str), ',');
    if |texts| == |fields| {
      PartsTaken(lib, Struct(fields), PartsOf(before, |fields|), texts, 0);
    }
  }

  // ----- taken, refused, panicked -----

  predicate Fits(lib: Library, k: Kind, str: string)
    decreases k
  {
    match k
    case Leaf(of) => ParseScalar(lib, of, str).Some?
    case Pointer(to) => Fits(lib, to, str)
    case Struct(fields) =>
      |str| >= 2 &&
      var texts := Texts.Split(Inner(str), ',');
      |texts| == |fields| && forall i | 0 <= i < |fields| :: Fits(lib, fields[i], texts[i])
    case _ => false
  }

  /** There are no braces to cut off, or the first part that does not fit panics, or an unexported field would be
      written. */
  predicate Panics(lib: Library, k: Kind, str: string)
    decreases k
  {
    match k
    case Pointer(to) => Panics(lib, to, str)
    case Struct(fields) =>
      |str| < 2 ||
      var texts := Texts.Split(Inner(str), ',');
      && |texts| == |fields|
      && exists i | 0 <= i < |fields| ::
           Panics(lib, fields[i], texts[i]) && forall j | 0 <= j < i :: Fits(lib, fields[j], texts[j])
    case Sealed(inner) => Denied(lib, inner, str)
    case _ => false
  }

  /** No value, the wrong number of parts, or a first part that does not fit and is refused itself. */
  predicate Refuses(lib: Library, k: Kind, str: string)
    decreases k
  {
    match k
    case Leaf(of) => ParseScalar(lib, of, str).None?
    case Pointer(to) => Refuses(lib, to, str)
    case Struct(fields) =>
      |str| >= 2 &&
      var texts := Texts.Split(Inner(str), ',');
      |texts| == |fields| ==>
        exists i | 0 <= i < |fields| ::
          Refuses(lib, fields[i], texts[i]) && forall j | 0 <= j < i :: Fits(lib, fields[j], texts[j])
    case Sealed(inner) => !Denied(lib, inner, str)
    case _ => true
  }

  /** Which of the three it is, for every kind and text, whatever the place held before. */
  lemma {:induction false} OutcomeExactly(lib: Library, k: Kind, before: Value, str: string)
    ensures var o := ParseValue(lib, k, before, str);
      && (o.Took? <==> Fits(lib, k, str))
      && (o.Panicked? <==> Panics(lib, k, str))
      && (o.Refused? <==> Refuses(lib, k, str))
    decreases k, if k.Struct? then |k.fields| + 1 else 0
  {
    match k
    case Pointer(to) => OutcomeExactly(lib, to, Zero, str);
    case Struct(fields) =>
      if |str| >= 2 && |Texts.Split(Inner(str), ',')| == |fields| {
        var texts := Texts.Split(Inner(str), ',');
        PartsExactly(lib, k, PartsOf(before, |fields|), texts, 0);
        PartsRefused(lib, k, PartsOf(before, |fields|), texts, 0);
      }
    case _ =>
  }

  lemma {:induction false} PartsExactly(lib: Library, k: Kind, vs: seq<Value>, texts: seq<string>, i: nat)
    requires k.Struct? && |vs| == |texts| == |k.fields| && i <= |vs|
    ensures var o := ParseParts(lib, k, vs, texts, i);
      && (o.Took? <==> forall j | i <= j < |vs| :: Fits(lib, k.fields[j], texts[j]))
      && (o.Panicked? <==> exists m | i <= m < |vs| ::
            Panics(lib, k.fields[m], texts[m]) && forall j | i <= j < m :: Fits(lib, k.fields[j], texts[j]))
    decreases k, |vs| - i, 1
  {
    if i < |vs| {
      var o := ParseValue(lib, k.fields[i], vs[i], texts[i]);
      OutcomeExactly(lib, k.fields[i], vs[i], texts[i]);
      if o.Took? {
        PartsExactly(lib, k, vs[i := o.v], texts, i + 1);
      }
    }
  }

  lemma {:induction false} PartsRefused(lib: Library, k: Kind, vs: seq<Value>, texts: seq<string>, i: nat)
    requires k.Struct? && |vs| == |texts| == |k.fields| && i <= |vs|
    ensures ParseParts(lib, k, vs, texts, i).Refused? <==> exists m | i <= m < |vs| ::
              Refuses(lib, k.fields[m], texts[m]) && forall j | i <= j < m :: Fits(lib, k.fields[j], texts[j])
    decreases k, |vs| - i, 0
  {
    if i < |vs| {
      var o := ParseValue(lib, k.fields[i], vs[i], texts[i]);
      OutcomeExactly(lib, k.fields[i], vs[i], texts[i]);
      if o.Took? {
        PartsRefused(lib, k, vs[i := o.v], texts, i + 1);
      }
    }
  }

  /** A struct that is refused, or panics, half way: the parts before the first one that does not fit hold what their
      pieces stand for, that one holds what its own failure left, the parts behind are as before. */
  lemma {:induction false} PartsKept(lib: Library, k: Kind, vs: seq<Value>, texts: seq<string>, i: nat) returns (m: nat)
    requires k.Struct? && |vs| == |texts| == |k.fields| && i <= |vs| && !ParseParts(lib, k, vs, texts, i).Took?
    ensures i <= m < |vs| && !Fits(lib, k.fields[m], texts[m])
    ensures forall j | i <= j < m :: Fits(lib, k.fields[j], texts[j])
    ensures var o := ParseParts(lib, k, vs, texts, i);
      && o.v.Parts? && |o.v.parts| == |vs|
      && (forall j | i <= j < m :: o.v.parts[j] == ParseValue(lib, k.fields[j], Zero, texts[j]).v)
      && o.v.parts[m] == ParseValue(lib, k.fields[m], vs[m], texts[m]).v
      && (forall j | 0 <= j < i || m < j < |vs| :: o.v.parts[j] == vs[j])
    decreases |vs| - i
  {
    var o := ParseValue(lib, k.fields[i], vs[i], texts[i]);
    OutcomeExactly(lib, k.fields[i], vs[i], texts[i]);
    if o.Took? {
      TakenAlike(lib, k.fields[i], vs[i], Zero, texts[i]);
      m := PartsKept(lib, k, vs[i := o.v], texts, i + 1);
    } else {
      m := i;
    }
  }

  /** A text of fewer than two runes for a struct, and a write to an unexported field. */
  lemma PanicExamples(lib: Library, fields: seq<Kind>, before: Value)
    ensures ParseValue(lib, Struct(fields), before, "").Panicked?
    ensures ParseValue(lib, Pointer(Struct(fields)), before, "{").Panicked?
    ensures ParseValue(lib, Sealed(Leaf(Text)), before, "x") == Panicked(before)
  {
    OutcomeExactly(lib, Struct(fields), before, "");
    OutcomeExactly(lib, Pointer(Struct(fields)), before, "{");
  }

  // ----- what a taken text stands for -----

  /** This value is what a text stands for: a text itself, another scalar as parsed, through pointers the target's, of a
      struct part by part. */
  predicate StandsFor(lib: Library, k: Kind, str: string, v: Value)
    decreases k
  {
    match k
    case Leaf(Text) => v == One(str)
    case Leaf(of) => v.One? && lib.parse(of, str) == Some(v.text)
    case Pointer(to) => v.PointerTo? && StandsFor(lib, to, str, v.target)
    case Struct(fields) =>
      |str| >= 2 && v.Parts? && |v.parts| == |fields| &&
      var texts := Texts.Split(str[1..|str| - 1], ',');
      |texts| == |fields| && forall i | 0 <= i < |fields| :: StandsFor(lib, fields[i], texts[i], v.parts[i])
    case _ => false
  }

  /** A taken text leaves the value that it stands for. */
  lemma {:induction false} TakenStandsFor(lib: Library, k: Kind, before: Value, str: string)
    ensures ParseValue(lib, k, before, str).Took? ==> StandsFor(lib, k, str, ParseValue(lib, k, before, str).v)
    decreases k
  {
    match k
    case Pointer(to) => TakenStandsFor(lib, to, Zero, str);
    case Struct(fields) =>
      if ParseValue(lib, k, before, str).Took? {
        StructTaken(lib, fields, before, str);
        forall i | 0 <= i < |fields|
          ensures StandsFor(lib, fields[i], Texts.Split(Inner(str), ',')[i],
                            ParseValue(lib, k, before, str).v.parts[i])
        {
          TakenStandsFor(lib, fields[i], Zero, Texts.Split(Inner(str), ',')[i]);
        }
      }
    case _ =>
  }

  /** What a text that is refused, or panics, leaves behind: a new empty map, a new pointer to what its target was left
      as, a struct whose first parts are taken; otherwise what was there. */
  ghost predicate LeavesBehind(lib: Library, k: Kind, before: Value, str: string, v: Value)
    decreases k
  {
    match k
    case Map => v == EmptyMap
    case Pointer(to) => v.PointerTo? && LeavesBehind(lib, to, Zero, str, v.target)
    case Struct(fields) =>
      if |str| < 2 || |Texts.Split(str[1..|str| - 1], ',')| != |fields| then v == before
      else
        var texts := Texts.Split(str[1..|str| - 1], ',');
        && v.Parts? && |v.parts| == |fields|
        && exists m | 0 <= m < |fields| ::
             && !Fits(lib, fields[m], texts[m]) && LeavesBehind(lib, fields[m], PartBefore(before, |fields|, m),
                                                                texts[m], v.parts[m])
             && (forall j | 0 <= j < m :: StandsFor(lib, fields[j], texts[j], v.parts[j]))
             && (forall j | m < j < |fields| :: v.parts[j] == PartBefore(before, |fields|, j))
    case _ => v == before
  }

  /** What part j of a struct of n parts held, if it held anything. */
  function PartBefore(before: Value, n: nat, j: nat): Value
    requires j < n
  {
    if before.Parts? && |before.parts| == n then before.parts[j] else Zero
  }

  lemma {:induction false} FailureLeaves(lib: Library, k: Kind, before: Value, str: string)
    ensures !ParseValue(lib, k, before, str).Took? ==>
      LeavesBehind(lib, k, before, str, ParseValue(lib, k, before, str).v)
    decreases k
  {
    match k
    case Pointer(to) => FailureLeaves(lib, to, Zero, str);
    case Struct(fields) =>
      if |str| >= 2 && |Texts.Split(Inner(str), ',')| == |fields| && !ParseValue(lib, k, before, str).Took? {
        var vs, texts := PartsOf(before, |fields|), Texts.Split(Inner(str), ',');
        var m := PartsKept(lib, k, vs, texts, 0);
        OutcomeExactly(lib, fields[m], vs[m], texts[m]);
        FailureLeaves(lib, fields[m], vs[m], texts[m]);
        forall j | 0 <= j < m
          ensures StandsFor(lib, fields[j], texts[j], ParseValue(lib, k, before, str).v.parts[j])
        {
          OutcomeExactly(lib, fields[j], Zero, texts[j]);
          TakenStandsFor(lib, fields[j], Zero, texts[j]);
        }
      }
    case _ =>
  }

  /** A text stands for one value at most. */
  lemma {:induction false} StandsForOne(lib: Library, k: Kind, str: string, v: Value, w: Value)
    requires StandsFor(lib, k, str, v) && StandsFor(lib, k, str, w)
    ensures v == w
    decreases k
  {
    match k
    case Pointer(to) => StandsForOne(lib, to, str, v.target, w.target);
    case Struct(fields) =>
      forall i | 0 <= i < |fields|
        ensures v.parts[i] == w.parts[i]
      {
        StandsForOne(lib, fields[i], Texts.Split(str[1..|str| - 1], ',')[i], v.parts[i], w.parts[i]);
      }
      assert v.parts == w.parts;
    case _ =>
  }

  // ----- elements -----

  lemma ElementsMore(lib: Library, k: Kind, tokens: seq<string>, n: nat)
    requires n < |tokens| && ParseElements(lib, k, tokens[..n]).Took?
    ensures ParseElements(lib, k, tokens[..n + 1]) ==
            var last := ParseValue(lib, k, Zero, tokens[n]);
            if last.Took? then Took(Many(ParseElements(lib, k, tokens[..n]).v.elements + [last.v])) else last
  {
    assert tokens[..n + 1][..n] == tokens[..n];
  }

  lemma {:induction false} EndedPrefix(lib: Library, k: Kind, tokens: seq<string>, n: nat)
    requires n <= |tokens| && !ParseElements(lib, k, tokens[..n]).Took?
    ensures ParseElements(lib, k, tokens) == ParseElements(lib, k, tokens[..n])
    decreases |tokens|
  {
    if n == |tokens| {
      assert tokens[..n] == tokens;
    } else {
      var init := tokens[..|tokens| - 1];
      assert init[..n] == tokens[..n];
      EndedPrefix(lib, k, init, n);
    }
  }

  /** All elements are taken exactly when each is. */
  lemma {:induction false} ElementsTaken(lib: Library, k: Kind, tokens: seq<string>)
    ensures ParseElements(lib, k, tokens).Took? <==>
            forall i | 0 <= i < |tokens| :: ParseValue(lib, k, Zero, tokens[i]).Took?
    decreases |tokens|
  {
    if tokens != [] {
      var n := |tokens| - 1;
      ElementsTaken(lib, k, tokens[..n]);
      assert forall i | 0 <= i < n :: tokens[..n][i] == tokens[i];
    }
  }

  /** Token i is the first that does not fit, and it panics. */
  predicate PanicsAt(lib: Library, k: Kind, tokens: seq<string>, i: nat)
    requires i < |tokens|
  {
    Panics(lib, k, tokens[i]) && forall j | 0 <= j < i :: Fits(lib, k, tokens[j])
  }

  /** Token i is the first that does not fit, and it is refused. */
  predicate RefusesAt(lib: Library, k: Kind, tokens: seq<string>, i: nat)
    requires i < |tokens|
  {
    Refuses(lib, k, tokens[i]) && forall j | 0 <= j < i :: Fits(lib, k, tokens[j])
  }

  lemma PrefixAt(lib: Library, k: Kind, tokens: seq<string>, n: nat, i: nat)
    requires i < n <= |tokens|
    ensures PanicsAt(lib, k, tokens[..n], i) == PanicsAt(lib, k, tokens, i)
    ensures RefusesAt(lib, k, tokens[..n], i) == RefusesAt(lib, k, tokens, i)
  {
    assert forall j | 0 <= j < n :: tokens[..n][j] == tokens[j];
  }

  /** No token behind one that does not fit is looked at. */
  lemma FirstDecides(lib: Library, k: Kind, tokens: seq<string>, i: nat, n: nat)
    requires i < n < |tokens| && (PanicsAt(lib, k, tokens, i) || RefusesAt(lib, k, tokens, i))
    ensures !PanicsAt(lib, k, tokens, n) && !RefusesAt(lib, k, tokens, n)
  {
    OutcomeExactly(lib, k, Zero, tokens[i]);
  }

  /** The first element that does not fit decides: it panics, or it is refused. */
  lemma {:induction false} ElementsExactly(lib: Library, k: Kind, tokens: seq<string>)
    ensures var o := ParseElements(lib, k, tokens);
      && (o.Panicked? <==> exists i: nat :: i < |tokens| && PanicsAt(lib, k, tokens, i))
      && (o.Refused? <==> exists i: nat :: i < |tokens| && RefusesAt(lib, k, tokens, i))
    decreases |tokens|
  {
    if tokens != [] {
      var n := |tokens| - 1;
      var init := ParseElements(lib, k, tokens[..n]);
      ElementsExactly(lib, k, tokens[..n]);
      if init.Took? {
        LastDecides(lib, k, tokens);
      } else {
        EarlierDecides(lib, k, tokens, n);
      }
    }
  }

  lemma EarlierDecides(lib: Library, k: Kind, tokens: seq<string>, n: nat)
    requires |tokens| == n + 1
    requires exists i: nat :: i < n && (PanicsAt(lib, k, tokens[..n], i) || RefusesAt(lib, k, tokens[..n], i))
    ensures (exists i: nat :: i < n + 1 && PanicsAt(lib, k, tokens, i))
            <==> exists i: nat :: i < n && PanicsAt(lib, k, tokens[..n], i)
    ensures (exists i: nat :: i < n + 1 && RefusesAt(lib, k, tokens, i))
            <==> exists i: nat :: i < n && RefusesAt(lib, k, tokens[..n], i)
  {
    var i: nat :| i < n && (PanicsAt(lib, k, tokens[..n], i) || RefusesAt(lib, k, tokens[..n], i));
    PrefixAt(lib, k, tokens, n, i);
    FirstDecides(lib, k, tokens, i, n);
    EarlierPanics(lib, k, tokens, n);
    EarlierRefuses(lib, k, tokens, n);
  }

  lemma EarlierPanics(lib: Library, k: Kind, tokens: seq<string>, n: nat)
    requires |tokens| == n + 1 && !PanicsAt(lib, k, tokens, n)
    ensures (exists i: nat :: i < n + 1 && PanicsAt(lib, k, tokens, i))
            <==> exists i: nat :: i < n && PanicsAt(lib, k, tokens[..n], i)
  {
    forall i: nat | i < n
      ensures PanicsAt(lib, k, tokens[..n], i) == PanicsAt(lib, k, tokens, i)
    {
      PrefixAt(lib, k, tokens, n, i);
    }
  }

  lemma EarlierRefuses(lib: Library, k: Kind, tokens: seq<string>, n: nat)
    requires |tokens| == n + 1 && !RefusesAt(lib, k, tokens, n)
    ensures (exists i: nat :: i < n + 1 && RefusesAt(lib, k, tokens, i))
            <==> exists i: nat :: i < n && RefusesAt(lib, k, tokens[..n], i)
  {
    forall i: nat | i < n
      ensures RefusesAt(lib, k, tokens[..n], i) == RefusesAt(lib, k, tokens, i)
    {
      PrefixAt(lib, k, tokens, n, i);
    }
  }

  lemma LastDecides(lib: Library, k: Kind, tokens: seq<string>)
    requires tokens != [] && ParseElements(lib, k, tokens[..|tokens| - 1]).Took?
    ensures var n := |tokens| - 1; var o := ParseValue(lib, k, Zero, tokens[n]);
      && (o.Panicked? <==> PanicsAt(lib, k, tokens, n)) && (o.Refused? <==> RefusesAt(lib, k, tokens, n))
      && forall i: nat | i < n :: !PanicsAt(lib, k, tokens, i) && !RefusesAt(lib, k, tokens, i)
  {
    var n := |tokens| - 1;
    TakenTokensFit(lib, k, tokens[..n]);
    assert forall j | 0 <= j < n :: tokens[..n][j] == tokens[j];
    OutcomeExactly(lib, k, Zero, tokens[n]);
    forall i: nat | i < n
      ensures !PanicsAt(lib, k, tokens, i) && !RefusesAt(lib, k, tokens, i)
    {
      OutcomeExactly(lib, k, Zero, tokens[i]);
    }
  }

  lemma TakenTokensFit(lib: Library, k: Kind, tokens: seq<string>)
    ensures ParseElements(lib, k, tokens).Took? <==> forall i | 0 <= i < |tokens| :: Fits(lib, k, tokens[i])
  {
    ElementsTaken(lib, k, tokens);
    forall i | 0 <= i < |tokens|
      ensures ParseValue(lib, k, Zero, tokens[i]).Took? <==> Fits(lib, k, tokens[i])
    {
      OutcomeExactly(lib, k, Zero, tokens[i]);
    }
  }

  /** A taken list holds what each token stands for, in order. */
  lemma {:induction false} ListStandsFor(lib: Library, k: Kind, tokens: seq<string>)
    requires ParseElements(lib, k, tokens).Took?
    ensures var vs := ParseElements(lib, k, tokens).v.elements;
      |vs| == |tokens| && forall i | 0 <= i < |tokens| :: StandsFor(lib, k, tokens[i], vs[i])
    decreases |tokens|
  {
    if tokens != [] {
      var n := |tokens| - 1;
      ListStandsFor(lib, k, tokens[..n]);
      TakenStandsFor(lib, k, Zero, tokens[n]);
      assert forall i | 0 <= i < n :: tokens[..n][i] == tokens[i];
    }
  }

  // ----- unexported fields -----

  /** The empty value of a kind. */
  function Blank(k: Kind): Value {
    match k
    case Struct(fields) => Parts(seq(|fields|, i requires 0 <= i < |fields| => Blank(fields[i])))
    case _ => Zero
  }

  /** A text for an unexported field panics exactly if an open field, empty before, would not simply refuse it and stay
      empty. */
  lemma {:induction false} DeniedExactly(lib: Library, k: Kind, str: string)
    ensures Denied(lib, k, str) <==> ParseValue(lib, k, Blank(k), str) != Refused(Blank(k))
    decreases k
  {
    match k
    case Struct(fields) =>
      if |str| >= 2 && |Texts.Split(Inner(str), ',')| == |fields| {
        var texts := Texts.Split(Inner(str), ',');
        DeniedExactly(lib, fields[0], texts[0]);
        FirstPartShows(lib, k, PartsOf(Blank(k), |fields|), texts);
      }
    case Sealed(inner) => DeniedExactly(lib, inner, str);
    case _ =>
  }

  /** Whether a struct is refused untouched depends on its first part alone. */
  lemma FirstPartShows(lib: Library, k: Kind, vs: seq<Value>, texts: seq<string>)
    requires k.Struct? && |vs| == |texts| == |k.fields| >= 1
    requires vs[0] == Blank(k.fields[0])
    ensures ParseParts(lib, k, vs, texts, 0) == Refused(Parts(vs))
            <==> ParseValue(lib, k.fields[0], vs[0], texts[0]) == Refused(vs[0])
  {
    var o := ParseValue(lib, k.fields[0], vs[0], texts[0]);
    if o.Took? {
      TakenNotBlank(lib, k.fields[0], vs[0], texts[0]);
      if !ParseParts(lib, k, vs, texts, 0).Took? {
        var m := PartsKept(lib, k, vs, texts, 0);
        TakenAlike(lib, k.fields[0], vs[0], Zero, texts[0]);
        OutcomeExactly(lib, k.fields[0], vs[0], texts[0]);
      }
    } else {
      assert o.v == vs[0] ==> vs[0 := o.v] == vs;
      assert vs[0 := o.v][0] == o.v;
    }
  }

  lemma {:induction false} TakenNotBlank(lib: Library, k: Kind, before: Value, str: string)
    requires ParseValue(lib, k, before, str).Took?
    ensures ParseValue(lib, k, before, str).v != Blank(k)
    decreases k
  {
    TakenStandsFor(lib, k, before, str);
    if k.Struct? {
      StructTaken(lib, k.fields, before, str);
      TakenNotBlank(lib, k.fields[0], Zero, Texts.Split(Inner(str), ',')[0]);
    }
  }

  // ----- the loops -----

  /** What the place holds after parsing a text into it. */
  method Parse(lib: Library, k: Kind, before: Value, str: string) returns (o: Outcome)
    ensures o == ParseValue(lib, k, before, str)
    decreases k
  {
    match k {
      case Map => o := Refused(EmptyMap);
      case Leaf(of) =>
        var a := ParseScalar(lib, of, str);
        o := if a.Some? then Took(One(a.value)) else Refused(before);
      case Pointer(to) =>
        o := Parse(lib, to, Zero, str);
        o := Wrapped(o);
      case Struct(fields) =>
        if |str| < 2 {
          return Panicked(before);
        }
        var texts := Texts.Split(Inner(str), ',');
        if |texts| != |fields| {
          return Refused(before);
        }
        var vs := PartsOf(before, |fields|);
        for i := 0 to |fields|
          invariant |vs| == |fields|
          invariant ParseParts(lib, k, vs, texts, i) == ParseParts(lib, k, PartsOf(before, |fields|), texts, 0)
        {
          var part := Parse(lib, fields[i], vs[i], texts[i]);
          match part {
            case Took(v) => vs := vs[i := v];
            case Refused(v) => return Refused(Parts(vs[i := v]));
            case Panicked(v) => return Panicked(Parts(vs[i := v]));
          }
        }
        o := Took(Parts(vs));
      case Sealed(inner) =>
        o := if Denied(lib, inner, str) then Panicked(before) else Refused(before);
      case Bytes => o := Refused(before);
      case Slice(_) => o := Refused(before);
      case Unsupported => o := Refused(before);
    }
  }
}
