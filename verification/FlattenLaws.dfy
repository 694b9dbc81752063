/** What the metrics of one data value have in common, and what tells any two of them apart. */
module FlattenLaws {
  import opened Records
  import opened Flatten

  /** The first place of a name; the length if it is not there. */
  function Find(names: seq<string>, name: string): (i: nat)
    ensures i <= |names|
    ensures i < |names| ==> names[i] == name
    ensures forall j | 0 <= j < i :: names[j] != name
  {
    if names == [] || names[0] == name then 0 else Find(names[1..], name) + 1
  }

  /** The label a metric carries under a name. */
  function LabelOf(m: Metric, name: string): Option<string>
    requires |m.labels| == |m.names|
  {
    var i := Find(m.names, name);
    if i < |m.names| then Some(m.labels[i]) else None
  }

  /** The sets of label names in use. */
  ghost predicate Shape(names: seq<string>) {
    || names == []
    || names == ["item"]
    || names == ["item", "value"]
    || names == ["field"]
    || names == ["field", "value"]
    || names == ["field", "item"]
    || names == ["field", "item", "value"]
  }

  ghost predicate Shaped(m: Metric) {
    Shape(m.names) && |m.labels| == |m.names|
  }

  /** Two metrics of one data value that no reader can confuse: their field or their item differs. */
  ghost predicate Apart(a: Metric, b: Metric)
    requires Shaped(a) && Shaped(b)
  {
    LabelOf(a, "field") != LabelOf(b, "field") || LabelOf(a, "item") != LabelOf(b, "item")
  }

  ghost predicate AllApart(ms: seq<Metric>) {
    && (forall i | 0 <= i < |ms| :: Shaped(ms[i]))
    && (forall i, j | 0 <= i < j < |ms| :: Apart(ms[i], ms[j]))
  }

  /** Shown fields have different names. */
  ghost predicate DistinctFields(fs: seq<Field>) {
    forall i, j | 0 <= i < j < |fs| && ShownName(fs[i]) != "" :: ShownName(fs[i]) != ShownName(fs[j])
  }

  // ----- maps -----

  lemma EntryLabels(field: Option<string>, m: GoMap, k: Key)
    requires k in m.entries && Entry(field, m, k).Some?
    ensures var e := Entry(field, m, k).value;
      Shaped(e) && LabelOf(e, "field") == field && LabelOf(e, "item") == Some(KeyString(k))
  {
    var e := Entry(field, m, k).value;
    if field.None? {
      assert e.names[0] == "item" && e.labels[0] == KeyString(k);
    } else {
      assert e.names[0] == "field" && e.labels[0] == field.value;
      assert e.names[1] == "item" && e.labels[1] == KeyString(k);
    }
  }

  /** The keys whose entries give a metric, in their order. */
  function Kept(field: Option<string>, m: GoMap, ks: seq<Key>): seq<Key>
    requires forall k | k in ks :: k in m.entries
    decreases |ks|
  {
    if ks == [] then []
    else
      var n := |ks| - 1;
      Kept(field, m, ks[..n]) + if Entry(field, m, ks[n]).Some? then [ks[n]] else []
  }

  lemma {:induction false} EntriesOfKept(field: Option<string>, m: GoMap, ks: seq<Key>)
    requires forall k | k in ks :: k in m.entries
    ensures |Entries(field, m, ks)| == |Kept(field, m, ks)|
    ensures forall k | k in Kept(field, m, ks) :: k in ks && Entry(field, m, k).Some?
    ensures forall k | k in ks && Entry(field, m, k).Some? :: k in Kept(field, m, ks)
    ensures forall i | 0 <= i < |Kept(field, m, ks)| ::
              Entry(field, m, Kept(field, m, ks)[i]) == Some(Entries(field, m, ks)[i])
    decreases |ks|
  {
    if ks != [] {
      EntriesOfKept(field, m, ks[..|ks| - 1]);
      assert ks == ks[..|ks| - 1] + [ks[|ks| - 1]];
    }
  }

  ghost predicate Increasing(ks: seq<Key>) {
    forall i, j | 0 <= i < j < |ks| :: PrintedBefore(ks[i], ks[j])
  }

  lemma IncreasingMore(ks: seq<Key>, k: Key)
    requires Increasing(ks) && forall l | l in ks :: PrintedBefore(l, k)
    ensures Increasing(ks + [k])
  {
  }

  lemma {:induction false} KeptIncreasing(field: Option<string>, m: GoMap, ks: seq<Key>)
    requires forall k | k in ks :: k in m.entries
    requires Increasing(ks)
    ensures Increasing(Kept(field, m, ks))
    decreases |ks|
  {
    if ks != [] {
      var n := |ks| - 1;
      KeptIncreasing(field, m, ks[..n]);
      EntriesOfKept(field, m, ks[..n]);
      forall k | k in Kept(field, m, ks[..n])
        ensures PrintedBefore(k, ks[n])
      {
        var i :| 0 <= i < n && ks[..n][i] == k;
        assert ks[i] == k;
      }
      IncreasingMore(Kept(field, m, ks[..n]), ks[n]);
    }
  }

  /** The listing of a typed map is strictly increasing as printed, unless its keys are unsupported. */
  lemma OrderedIncreasing(m: GoMap)
    requires m.Typed() && m.keyKind != OtherKeys
    ensures Increasing(OrderedKeys(m))
  {
    var ks := OrderedKeys(m);
    KeysSorted(m);
    forall i, j | 0 <= i < j < |ks|
      ensures PrintedBefore(ks[i], ks[j])
    {
      assert ks[i] in m.entries && ks[j] in m.entries;
      PrintedKeysDiffer(ks[i], ks[j]);
    }
  }

  ghost predicate ItemBefore(a: Metric, b: Metric) {
    && Shaped(a) && Shaped(b)
    && LabelOf(a, "item").Some? && LabelOf(b, "item").Some?
    && Less(LabelOf(a, "item").value, LabelOf(b, "item").value)
  }

  /** Of a map, the metrics are exactly those of its supported entries. */
  lemma MapMeaning(field: Option<string>, m: GoMap)
    requires m.Typed()
    ensures forall k | k in m.entries && Entry(field, m, k).Some? :: Entry(field, m, k).value in FlatMap(field, m)
    ensures forall e | e in FlatMap(field, m) :: exists k :: k in m.entries && Entry(field, m, k) == Some(e)
  {
    KeysSorted(m);
    EntriesMeaning(field, m, OrderedKeys(m));
  }

  lemma EntriesMeaning(field: Option<string>, m: GoMap, ks: seq<Key>)
    requires forall k :: k in ks <==> k in m.entries
    ensures forall k | k in m.entries && Entry(field, m, k).Some? :: Entry(field, m, k).value in Entries(field, m, ks)
    ensures forall e | e in Entries(field, m, ks) :: exists k :: k in m.entries && Entry(field, m, k) == Some(e)
  {
    var es, kept := Entries(field, m, ks), Kept(field, m, ks);
    EntriesOfKept(field, m, ks);
    forall k | k in m.entries && Entry(field, m, k).Some?
      ensures Entry(field, m, k).value in es
    {
      var i :| 0 <= i < |kept| && kept[i] == k;
      assert es[i] == Entry(field, m, k).value;
    }
    forall e | e in es
      ensures exists k :: k in m.entries && Entry(field, m, k) == Some(e)
    {
      var i :| 0 <= i < |es| && es[i] == e;
      assert kept[i] in m.entries;
    }
  }

  /** The metrics of a map come strictly in the order of its printed keys. */
  lemma MapOrder(field: Option<string>, m: GoMap)
    requires m.Typed()
    ensures forall i, j | 0 <= i < j < |FlatMap(field, m)| :: ItemBefore(FlatMap(field, m)[i], FlatMap(field, m)[j])
  {
    var ks := OrderedKeys(m);
    KeysSorted(m);
    if m.keyKind == OtherKeys {
      NoEntries(field, m, ks);
    } else {
      OrderedIncreasing(m);
      EntriesIncreasing(field, m, ks);
    }
  }

  lemma EntriesIncreasing(field: Option<string>, m: GoMap, ks: seq<Key>)
    requires forall k | k in ks :: k in m.entries
    requires Increasing(ks)
    ensures forall i, j | 0 <= i < j < |Entries(field, m, ks)| ::
              ItemBefore(Entries(field, m, ks)[i], Entries(field, m, ks)[j])
  {
    var es, kept := Entries(field, m, ks), Kept(field, m, ks);
    EntriesOfKept(field, m, ks);
    KeptIncreasing(field, m, ks);
    forall i, j | 0 <= i < j < |es|
      ensures ItemBefore(es[i], es[j])
    {
      assert PrintedBefore(kept[i], kept[j]);
      EntryLabels(field, m, kept[i]);
      EntryLabels(field, m, kept[j]);
    }
  }

  lemma MapApart(field: Option<string>, m: GoMap)
    requires m.Typed()
    ensures AllApart(FlatMap(field, m))
    ensures forall i | 0 <= i < |FlatMap(field, m)| :: LabelOf(FlatMap(field, m)[i], "field") == field
  {
    MapMeaning(field, m);
    MapOrder(field, m);
    var es := FlatMap(field, m);
    forall i | 0 <= i < |es|
      ensures Shaped(es[i]) && LabelOf(es[i], "field") == field
    {
      assert es[i] in es;
      var k :| k in m.entries && Entry(field, m, k) == Some(es[i]);
      EntryLabels(field, m, k);
    }
    forall i, j | 0 <= i < j < |es|
      ensures Apart(es[i], es[j])
    {
      assert ItemBefore(es[i], es[j]);
      LessOrEqual(LabelOf(es[i], "item").value, LabelOf(es[j], "item").value);
    }
  }

  // ----- structs -----

  lemma FieldApart(f: Field)
    requires TypedField(f)
    ensures AllApart(FlatField(f))
    ensures forall i | 0 <= i < |FlatField(f)| ::
              LabelOf(FlatField(f)[i], "field") == Some(ShownName(f)) && ShownName(f) != ""
  {
    if ShownName(f) != "" && !f.value.NilPointer? && f.value.it.OfMap? {
      MapApart(Some(ShownName(f)), f.value.it.m);
    }
  }

  lemma {:induction false} FieldsApart(fs: seq<Field>)
    requires Typed(Record(fs)) && DistinctFields(fs)
    ensures AllApart(FlatFields(fs))
    ensures forall i | 0 <= i < |FlatFields(fs)| :: FromField(FlatFields(fs)[i], fs)
    decreases |fs|
  {
    if fs != [] {
      var n := |fs| - 1;
      var es := FlatFields(fs[..n]);
      FieldsApart(fs[..n]);
      FieldApart(fs[n]);
      forall i | 0 <= i < |es|
        ensures FromField(es[i], fs)
        ensures LabelOf(es[i], "field") != Some(ShownName(fs[n]))
      {
        var j :| 0 <= j < n && ShownName(fs[..n][j]) != "" && LabelOf(es[i], "field") == Some(ShownName(fs[..n][j]));
        assert fs[j] == fs[..n][j];
      }
    }
  }

  ghost predicate FromField(e: Metric, fs: seq<Field>) {
    && Shaped(e)
    && exists j :: 0 <= j < |fs| && ShownName(fs[j]) != "" && LabelOf(e, "field") == Some(ShownName(fs[j]))
  }

  // ----- any data -----

  ghost predicate Distinguishable(d: Ref<Data>) {
    d.NilPointer? || (Typed(d.it) && (d.it.Record? ==> DistinctFields(d.it.fields)))
  }

  /** The metrics of one data value never coincide. */
  lemma DataApart(d: Ref<Data>)
    requires Distinguishable(d)
    ensures AllApart(Flat(d))
  {
    if !d.NilPointer? {
      match d.it {
        case Record(fs) => FieldsApart(fs);
        case Mapping(m) => MapApart(None, m);
        case Simple(v) =>
      }
    }
  }
}
