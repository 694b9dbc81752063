/** Turning probe data into metric samples: one sample per scalar, map entries in the order of their printed keys. */
module Flatten {
  import opened Records
  import Sorting

  datatype Scalar = BoolValue(b: bool) | IntValue(n: int) | FloatValue(x: real) | StringValue(s: string) | OtherValue

  datatype ScalarKind = BoolKind | IntKind | FloatKind | StringKind | OtherKind

  function KindOf(v: Scalar): ScalarKind {
    match v
    case BoolValue(_) => BoolKind
    case IntValue(_) => IntKind
    case FloatValue(_) => FloatKind
    case StringValue(_) => StringKind
    case OtherValue => OtherKind
  }

  /** Something held directly or behind a pointer. */
  datatype Ref<T> = Direct(it: T) | NilPointer | Pointed(it: T)

  datatype Key = IntKey(n: int) | StringKey(s: string) | OtherKey(id: int)

  datatype KeyKind = IntKeys | StringKeys | OtherKeys

  function KindOfKey(k: Key): KeyKind {
    match k
    case IntKey(_) => IntKeys
    case StringKey(_) => StringKeys
    case OtherKey(_) => OtherKeys
  }

  /** A typed map: the type fixes the kind of all its keys and of all its values. */
  datatype GoMap = GoMap(keyKind: KeyKind, pointers: bool, kind: ScalarKind, entries: map<Key, Ref<Scalar>>) {
    predicate Typed() {
      forall k | k in entries ::
        && KindOfKey(k) == keyKind
        && (entries[k].Direct? <==> !pointers)
        && (!entries[k].NilPointer? ==> KindOf(entries[k].it) == kind)
    }
  }

  datatype FieldValue = Plain(v: Scalar) | OfMap(m: GoMap)

  /** A struct field with the text of its json tag. */
  datatype Field = Field(exported: bool, name: string, tag: string, value: Ref<FieldValue>)

  datatype Data = Simple(v: Scalar) | Mapping(m: GoMap) | Record(fields: seq<Field>)

  predicate Typed(d: Data) {
    match d
    case Simple(_) => true
    case Mapping(m) => m.Typed()
    case Record(fs) => forall i | 0 <= i < |fs| :: TypedField(fs[i])
  }

  predicate TypedField(f: Field) {
    !f.value.NilPointer? && f.value.it.OfMap? ==> f.value.it.m.Typed()
  }

  datatype Metric = Metric(value: real, labels: seq<string>, names: seq<string>)

  // ----- printed keys and their order -----

  function Digit(d: nat): char
    requires d < 10
  {
    '0' + d as char
  }

  function Digits(n: nat): string {
    if n < 10 then [Digit(n)] else Digits(n / 10) + [Digit(n % 10)]
  }

  function Itoa(n: int): string {
    if n < 0 then "-" + Digits(-n) else Digits(n)
  }

  function KeyString(k: Key): string {
    match k
    case IntKey(n) => Itoa(n)
    case StringKey(s) => s
    case OtherKey(_) => ""
  }

  predicate Less(a: string, b: string) {
    b != [] && (a == [] || a[0] < b[0] || (a[0] == b[0] && Less(a[1..], b[1..])))
  }

  lemma {:induction false} LessTransitive(a: string, b: string, c: string)
    requires Less(a, b) && Less(b, c)
    ensures Less(a, c)
    decreases |a|
  {
    if a != [] && a[0] == b[0] == c[0] {
      LessTransitive(a[1..], b[1..], c[1..]);
    }
  }

  lemma {:induction false} LessOrEqual(a: string, b: string)
    ensures !(Less(a, b) && Less(b, a))
    ensures !Less(a, b) && !Less(b, a) ==> a == b
    decreases |a|
  {
    if a != [] && b != [] && a[0] == b[0] {
      LessOrEqual(a[1..], b[1..]);
      assert a == [a[0]] + a[1..] && b == [b[0]] + b[1..];
    }
  }

  lemma {:induction false} DigitsInjective(m: nat, n: nat)
    requires Digits(m) == Digits(n)
    ensures m == n
    decreases m
  {
    DigitsNotEmpty(m / 10);
    DigitsNotEmpty(n / 10);
    var s, t := Digits(m), Digits(n);
    assert s[|s| - 1] == Digit(m % 10) && t[|t| - 1] == Digit(n % 10);
    if m >= 10 && n >= 10 {
      assert s[..|s| - 1] == Digits(m / 10) && t[..|t| - 1] == Digits(n / 10);
      DigitsInjective(m / 10, n / 10);
    }
  }

  lemma {:induction false} DigitsNotEmpty(n: nat)
    ensures |Digits(n)| > 0 && Digits(n)[0] != '-'
    decreases n
  {
    if n >= 10 {
      DigitsNotEmpty(n / 10);
    }
  }

  predicate PrintedBefore(a: Key, b: Key) {
    Less(KeyString(a), KeyString(b))
  }

  lemma PrintedOrder()
    ensures Sorting.StrictOrder(PrintedBefore)
  {
    forall a, b
      ensures !(PrintedBefore(a, b) && PrintedBefore(b, a))
    {
      LessOrEqual(KeyString(a), KeyString(b));
    }
    forall a, b, c | PrintedBefore(a, b) && PrintedBefore(b, c)
      ensures PrintedBefore(a, c)
    {
      LessTransitive(KeyString(a), KeyString(b), KeyString(c));
    }
  }

  /** Keys of one supported kind print differently. */
  lemma PrintedKeysDiffer(a: Key, b: Key)
    requires KindOfKey(a) == KindOfKey(b) != OtherKeys && a != b
    ensures KeyString(a) != KeyString(b) && (PrintedBefore(a, b) || PrintedBefore(b, a))
  {
    LessOrEqual(KeyString(a), KeyString(b));
    if KeyString(a) == KeyString(b) {
      SameDigits(a, b);
    }
  }

  lemma SameDigits(a: Key, b: Key)
    requires KindOfKey(a) == KindOfKey(b) != OtherKeys && KeyString(a) == KeyString(b)
    ensures a == b
  {
    if a.IntKey? {
      DigitsNotEmpty(if a.n < 0 then -a.n else a.n);
      DigitsNotEmpty(if b.n < 0 then -b.n else b.n);
      assert (a.n < 0) == (b.n < 0);
      if a.n < 0 {
        assert Itoa(a.n)[1..] == Digits(-a.n) && Itoa(b.n)[1..] == Digits(-b.n);
        DigitsInjective(-a.n, -b.n);
      } else {
        DigitsInjective(a.n, b.n);
      }
    }
  }

  // ----- what is to come out -----

  function StringMetric(s: string): real {
    if s == "" then 0.0 else 1.0
  }

  /** The value of a scalar, if its kind is one that a metric can carry. */
  function ValueOf(v: Scalar): Option<real> {
    match v
    case BoolValue(b) => Some(if b then 1.0 else 0.0)
    case IntValue(n) => Some(n as real)
    case FloatValue(x) => Some(x)
    case StringValue(s) => Some(StringMetric(s))
    case OtherValue => None
  }

  /** A string shows up as a further label. */
  function Shown(v: Scalar, labels: seq<string>, names: seq<string>): Metric
    requires ValueOf(v).Some?
  {
    Metric(ValueOf(v).value,
           if v.StringValue? then labels + [v.s] else labels,
           if v.StringValue? then names + ["value"] else names)
  }

  /** One entry of a top-level map; pointers and booleans are not supported there. */
  function Item(k: Key, c: Ref<Scalar>): Option<Metric> {
    if k.OtherKey? || !c.Direct? || c.it.BoolValue? || c.it.OtherValue? then None
    else Some(Shown(c.it, [KeyString(k)], ["item"]))
  }

  /** One entry of a map in a struct field. */
  function FieldItem(field: string, k: Key, c: Ref<Scalar>): Option<Metric> {
    if !k.StringKey? || c.NilPointer? || c.it.OtherValue? then None
    else Some(Shown(c.it, [field, k.s], ["field", "item"]))
  }

  /** The entry of a map under a key, seen from the top (no field) or from a struct field. */
  function Entry(field: Option<string>, m: GoMap, k: Key): Option<Metric>
    requires k in m.entries
  {
    if field.None? then Item(k, m.entries[k]) else FieldItem(field.value, k, m.entries[k])
  }

  function Entries(field: Option<string>, m: GoMap, ks: seq<Key>): seq<Metric>
    requires forall k | k in ks :: k in m.entries
    decreases |ks|
  {
    if ks == [] then []
    else
      var e := Entry(field, m, ks[|ks| - 1]);
      Entries(field, m, ks[..|ks| - 1]) + if e.Some? then [e.value] else []
  }

  ghost function OrderedKeys(m: GoMap): seq<Key> {
    Sorting.Ordered(PrintedBefore, m.entries.Keys)
  }

  lemma KeysSorted(m: GoMap)
    ensures Sorting.Sorted(PrintedBefore, OrderedKeys(m), m.entries.Keys)
  {
    PrintedOrder();
    Sorting.OrderedSorted(PrintedBefore, m.entries.Keys);
  }

  ghost function FlatMap(field: Option<string>, m: GoMap): seq<Metric> {
    KeysSorted(m);
    Entries(field, m, OrderedKeys(m))
  }

  /** Which sorted listing the walk takes never shows: unsupported keys give nothing, others have one listing. */
  lemma AnyListing(field: Option<string>, m: GoMap, ks: seq<Key>)
    requires m.Typed() && Sorting.Sorted(PrintedBefore, ks, m.entries.Keys)
    ensures Entries(field, m, ks) == FlatMap(field, m)
  {
    var ls := OrderedKeys(m);
    KeysSorted(m);
    if m.keyKind == OtherKeys {
      assert forall k | k in ks || k in ls :: k in m.entries && k.OtherKey?;
      NoEntries(field, m, ks);
      NoEntries(field, m, ls);
    } else {
      forall a, b | a in m.entries && b in m.entries && a != b
        ensures PrintedBefore(a, b) || PrintedBefore(b, a)
      {
        PrintedKeysDiffer(a, b);
      }
      Sorting.OneListing(PrintedBefore, ks, ls, m.entries.Keys);
    }
  }

  lemma {:induction false} NoEntries(field: Option<string>, m: GoMap, ks: seq<Key>)
    requires forall k | k in ks :: k in m.entries && Entry(field, m, k).None?
    ensures Entries(field, m, ks) == []
    decreases |ks|
  {
    if ks != [] {
      NoEntries(field, m, ks[..|ks| - 1]);
    }
  }

  function BeforeComma(s: string): string {
    if s == [] || s[0] == ',' then [] else [s[0]] + BeforeComma(s[1..])
  }

  /** The label of a field; empty if the field is not to be shown. */
  function ShownName(f: Field): string {
    var tag := BeforeComma(f.tag);
    if !f.exported || tag == "-" then "" else if tag == "" then f.name else tag
  }

  ghost function FlatField(f: Field): seq<Metric> {
    if ShownName(f) == "" || f.value.NilPointer? then []
    else
      match f.value.it
      case OfMap(m) => FlatMap(Some(ShownName(f)), m)
      case Plain(v) => if ValueOf(v).None? then [] else [Shown(v, [ShownName(f)], ["field"])]
  }

  ghost function FlatFields(fs: seq<Field>): seq<Metric> {
    if fs == [] then [] else FlatFields(fs[..|fs| - 1]) + FlatField(fs[|fs| - 1])
  }

  /** All metrics of some probe data, whatever order its maps are walked in. */
  ghost function Flat(d: Ref<Data>): seq<Metric> {
    if d.NilPointer? then []
    else
      match d.it
      case Record(fs) => FlatFields(fs)
      case Mapping(m) => FlatMap(None, m)
      case Simple(v) =>
        if v.StringValue? then [Metric(StringMetric(v.s), [v.s], ["item"])]
        else [Metric(if ValueOf(v).Some? then ValueOf(v).value else 0.0, [], [])]
  }

  // ----- the loops -----

  /** The walk over a top-level map: the first unsupported key or value ends it. */
  method WalkItems(m: GoMap, ks: seq<Key>) returns (metrics: seq<Metric>)
    requires m.Typed() && forall k | k in ks :: k in m.entries
    ensures metrics == Entries(None, m, ks)
  {
    metrics := [];
    for i := 0 to |ks|
      invariant metrics == Entries(None, m, ks[..i])
    {
      assert ks[..i + 1][..i] == ks[..i];
      var k, c := ks[i], m.entries[ks[i]];
      if k.OtherKey? || !c.Direct? || c.it.BoolValue? || c.it.OtherValue? {
        AllUnsupported(m, k);
        NoEntries(None, m, ks[..i]);
        NoEntries(None, m, ks);
        return;
      }
      var labels, names := [KeyString(k)], ["item"];
      var value: real;
      match c.it {
        case IntValue(n) => value := n as real;
        case FloatValue(x) => value := x;
        case StringValue(s) =>
          value, labels, names := StringMetric(s), labels + [s], names + ["value"];
      }
      metrics := metrics + [Metric(value, labels, names)];
    }
    assert ks[..|ks|] == ks;
  }

  /** In a typed map one unsupported entry means that all are. */
  lemma AllUnsupported(m: GoMap, k: Key)
    requires m.Typed() && k in m.entries && Entry(None, m, k).None?
    ensures forall l | l in m.entries :: Entry(None, m, l).None?
  {
  }

  method MapMetrics(m: GoMap) returns (metrics: seq<Metric>)
    requires m.Typed()
    ensures metrics == FlatMap(None, m)
  {
    PrintedOrder();
    var ks := Sorting.SortKeys(PrintedBefore, m.entries.Keys);
    AnyListing(None, m, ks);
    metrics := WalkItems(m, ks);
  }

  /** The walk over a map in a struct field: unsupported values are skipped. */
  method WalkFieldItems(field: string, m: GoMap, ks: seq<Key>) returns (metrics: seq<Metric>)
    requires forall k | k in ks :: k in m.entries && k.StringKey?
    ensures metrics == Entries(Some(field), m, ks)
  {
    metrics := [];
    for i := 0 to |ks|
      invariant metrics == Entries(Some(field), m, ks[..i])
    {
      assert ks[..i + 1][..i] == ks[..i];
      var c := m.entries[ks[i]];
      if c.NilPointer? {
        continue;
      }
      var labels, names := [field, KeyString(ks[i])], ["field", "item"];
      var value: real;
      match c.it {
        case IntValue(n) => value := n as real;
        case FloatValue(x) => value := x;
        case BoolValue(b) => value := if b then 1.0 else 0.0;
        case StringValue(s) =>
          value, labels, names := StringMetric(s), labels + [s], names + ["value"];
        case OtherValue => continue;
      }
      metrics := metrics + [Metric(value, labels, names)];
    }
    assert ks[..|ks|] == ks;
  }

  /** A map in a struct field: other keys than strings give nothing. */
  method FieldMapMetrics(field: string, m: GoMap) returns (metrics: seq<Metric>)
    requires m.Typed()
    ensures metrics == FlatMap(Some(field), m)
  {
    if m.keyKind != StringKeys {
      KeysSorted(m);
      NoEntries(Some(field), m, OrderedKeys(m));
      return [];
    }
    PrintedOrder();
    var ks := Sorting.SortKeys(PrintedBefore, m.entries.Keys);
    AnyListing(Some(field), m, ks);
    metrics := WalkFieldItems(field, m, ks);
  }

  method RecordMetrics(fs: seq<Field>) returns (metrics: seq<Metric>)
    requires Typed(Record(fs))
    ensures metrics == FlatFields(fs)
  {
    metrics := [];
    for i := 0 to |fs|
      invariant metrics == FlatFields(fs[..i])
    {
      assert fs[..i + 1][..i] == fs[..i];
      var f := fs[i];
      if ShownName(f) == "" || f.value.NilPointer? {
        continue;
      }
      match f.value.it {
        case OfMap(m) =>
          var ms := FieldMapMetrics(ShownName(f), m);
          metrics := metrics + ms;
        case Plain(v) =>
          if ValueOf(v).Some? {
            metrics := metrics + [Shown(v, [ShownName(f)], ["field"])];
          }
      }
    }
    assert fs[..|fs|] == fs;
  }

  method ProbeMetrics(d: Ref<Data>) returns (metrics: seq<Metric>)
    requires d.NilPointer? || Typed(d.it)
    ensures metrics == Flat(d)
  {
    if d.NilPointer? {
      return [];
    }
    match d.it {
      case Record(fs) => metrics := RecordMetrics(fs);
      case Mapping(m) => metrics := MapMetrics(m);
      case Simple(v) =>
        var value, labels, names := 0.0, [], [];
        match v {
          case BoolValue(b) => value := if b then 1.0 else 0.0;
          case IntValue(n) => value := n as real;
          case FloatValue(x) => value := x;
          case StringValue(s) => value, labels, names := StringMetric(s), [s], ["item"];
          case OtherValue =>
        }
        metrics := [Metric(value, labels, names)];
    }
  }
}
