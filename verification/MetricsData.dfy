/** Probe data on its way into requests: shapes are kept, and so are the differences between metrics. */
module MetricsData {
  import opened Records
  import opened Flatten
  import FlattenLaws
  import opened Metrics

  ghost predicate Listable(d: Option<Ref<Data>>) {
    d.None? || d.value.NilPointer? || Typed(d.value.it)
  }

  ghost predicate Collectable(jobs: seq<Job>) {
    forall j, r | j in jobs && r in j.rows :: Listable(r.data)
  }

  ghost predicate Square(ms: seq<Metric>) {
    forall i | 0 <= i < |ms| :: FlattenLaws.Shaped(ms[i])
  }

  lemma {:induction false} FieldsSquare(fs: seq<Field>)
    requires Typed(Record(fs))
    ensures Square(FlatFields(fs))
    decreases |fs|
  {
    if fs != [] {
      FieldsSquare(fs[..|fs| - 1]);
      FlattenLaws.FieldApart(fs[|fs| - 1]);
    }
  }

  /** Every metric has one of the known sets of label names, and as many labels. */
  lemma FlatSquare(d: Ref<Data>)
    requires Listable(Some(d))
    ensures Square(Flat(d))
  {
    if !d.NilPointer? {
      match d.it {
        case Record(fs) => FieldsSquare(fs);
        case Mapping(m) => FlattenLaws.MapApart(None, m);
        case Simple(v) =>
      }
    }
  }

  lemma MappedShape(valueMap: Labels, m: Metric)
    requires FlattenLaws.Shaped(m)
    ensures FlattenLaws.Shaped(Mapped(valueMap, m)) && Mapped(valueMap, m).names == m.names
  {
  }
}
