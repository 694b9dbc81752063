/** One collection never emits two samples that a reader could take for one series. */
module MetricsUnique {
  import opened Records
  import opened Flatten
  import opened FlattenLaws
  import opened Metrics
  import MetricsKeys
  import MetricsCache
  import MetricsData

  /** The value that a list of labels has under a name. */
  function Under(names: seq<string>, values: seq<string>, x: string): Option<string>
    requires |names| == |values|
  {
    var i := Find(names, x);
    if i < |names| then Some(values[i]) else None
  }

  /** All labels of a sample, constant ones included. */
  function LabelSet(s: Sample): map<string, string>
    requires |s.labels| == |s.desc.labels|
  {
    map x | x in s.desc.consts.Keys + (set n | n in s.desc.labels) ::
      if Find(s.desc.labels, x) < |s.desc.labels| then s.labels[Find(s.desc.labels, x)] else s.desc.consts[x]
  }

  ghost predicate SameSeries(s: Sample, t: Sample)
    requires |s.labels| == |s.desc.labels| && |t.labels| == |t.desc.labels|
  {
    s.desc.name == t.desc.name && LabelSet(s) == LabelSet(t)
  }

  const RESERVED: set<string> := {"job", "script", "task", "probe", "field", "item", "value"}

  /** Constant labels that do not reuse the name of a variable one; the library refuses others. */
  ghost predicate CleanConsts(h: seq<Ask>) {
    forall i | 0 <= i < |h| :: MetricsKeys.ConstsOf(h[i]).Keys !! RESERVED
  }

  /** What a request carries under a name. */
  ghost function Carried(a: Ask, x: string): Option<string>
    requires Proper(a)
  {
    Under(Meant(a).labels, ReadingOf(a).labels, x)
  }

  /** Two requests that differ in the metric or under a reserved name. */
  ghost predicate Separate(a: Ask, b: Ask)
    requires Proper(a) && Proper(b)
  {
    MetricsKeys.NameOf(a) != MetricsKeys.NameOf(b) || exists x :: x in RESERVED && Carried(a, x) != Carried(b, x)
  }

  lemma ConstsStayClean(h: seq<Ask>, a: Ask)
    requires CleanConsts(h + [a])
    ensures Emission(CacheAfter(h), a).desc.consts.Keys !! RESERVED
  {
    assert (h + [a])[|h|] == a;
    if KeyOf(a) in CacheAfter(h) {
      var i := MetricsCache.CacheFromHistory(h, KeyOf(a));
      assert (h + [a])[i] == h[i];
    }
  }

  /** This sample is the answer to this request, with clean constant labels. */
  ghost predicate Fits(s: Sample, a: Ask) {
    && s.desc.(consts := MetricsKeys.ConstsOf(a)) == Meant(a)
    && s.labels == ReadingOf(a).labels
    && |s.labels| == |s.desc.labels|
    && s.desc.consts.Keys !! RESERVED
  }

  lemma FitCarries(s: Sample, a: Ask, x: string)
    requires Proper(a) && Fits(s, a) && x in RESERVED
    ensures Carried(a, x) == if x in LabelSet(s) then Some(LabelSet(s)[x]) else None
  {
  }

  lemma SeparateSamples(s: Sample, t: Sample, a: Ask, b: Ask)
    requires Proper(a) && Proper(b) && Separate(a, b) && Fits(s, a) && Fits(t, b)
    ensures !SameSeries(s, t)
  {
    if MetricsKeys.NameOf(a) == MetricsKeys.NameOf(b) {
      var x :| x in RESERVED && Carried(a, x) != Carried(b, x);
      FitCarries(s, a, x);
      FitCarries(t, b, x);
    } else {
      NameMeant(a);
      NameMeant(b);
    }
  }

  lemma NameMeant(a: Ask)
    ensures Meant(a).name == MetricsKeys.NameOf(a)
  {
  }

  // ----- what the requests of a collection carry -----

  lemma {:induction false} FindAfter(prefix: seq<string>, names: seq<string>, x: string)
    requires x !in prefix
    ensures Find(prefix + names, x) == |prefix| + Find(names, x)
    decreases |prefix|
  {
    if prefix == [] {
      assert prefix + names == names;
    } else {
      assert (prefix + names)[1..] == prefix[1..] + names;
      FindAfter(prefix[1..], names, x);
    }
  }

  lemma CarriedPlace(a: Ask)
    requires Proper(a)
    ensures Carried(a, "job") == Some(if a.OfScript? then a.job else a.who.job)
    ensures Carried(a, "script") == Some(if a.OfScript? then a.script else a.who.script)
    ensures !a.OfScript? ==> Carried(a, "task") == Some(a.who.task)
  {
    var names := Meant(a).labels;
    assert names[0] == "job" && names[1] == "script";
    if !a.OfScript? {
      assert names[2] == "task";
    }
  }

  lemma CarriedData(a: Ask, x: string)
    requires Proper(a) && a.OfData? && x !in PROBE_LABELS
    ensures Carried(a, x) == LabelOf(a.metric, x)
  {
    FindAfter(PROBE_LABELS, a.metric.names, x);
  }

  ghost predicate PairsApart(h: seq<Ask>) {
    MetricsCache.AllProper(h) && forall i, j | 0 <= i < j < |h| :: Separate(h[i], h[j])
  }

  lemma ConcatApart(g: seq<Ask>, h: seq<Ask>)
    requires PairsApart(g) && PairsApart(h)
    requires forall a, b | a in g && b in h :: Separate(a, b)
    ensures PairsApart(g + h)
  {
  }

  // ----- one task -----

  function Image(valueMap: Labels, item: string): string {
    if item in valueMap then valueMap[item] else item
  }

  /** The value map keeps the items of one data value distinct, field by field. */
  ghost predicate KeepsItems(valueMap: Labels, ms: seq<Metric>)
    requires MetricsData.Square(ms)
  {
    forall i, j | 0 <= i < j < |ms| && LabelOf(ms[i], "field") == LabelOf(ms[j], "field")
                  && LabelOf(ms[i], "item").Some? && LabelOf(ms[j], "item").Some? ::
      LabelOf(ms[i], "item") != LabelOf(ms[j], "item") ==>
        Image(valueMap, LabelOf(ms[i], "item").value) != Image(valueMap, LabelOf(ms[j], "item").value)
  }

  lemma MappedLabels(valueMap: Labels, m: Metric)
    requires Shaped(m)
    ensures var r := Mapped(valueMap, m);
      && Shaped(r)
      && LabelOf(r, "field") == LabelOf(m, "field")
      && LabelOf(r, "item") ==
         if LabelOf(m, "item").None? then None else Some(Image(valueMap, LabelOf(m, "item").value))
  {
  }

  lemma {:induction false} DataAsksIndexed(w: Who, probe: string, valueMap: Labels, ms: seq<Metric>)
    ensures |DataAsks(w, probe, valueMap, ms)| == |ms|
    ensures forall i | 0 <= i < |ms| :: DataAsks(w, probe, valueMap, ms)[i] == OfData(w, probe, Mapped(valueMap, ms[i]))
    decreases |ms|
  {
    if ms != [] {
      DataAsksIndexed(w, probe, valueMap, ms[..|ms| - 1]);
    }
  }

  lemma DataAsksApart(w: Who, probe: string, valueMap: Labels, ms: seq<Metric>)
    requires AllApart(ms) && MetricsData.Square(ms) && KeepsItems(valueMap, ms)
    ensures PairsApart(DataAsks(w, probe, valueMap, ms))
    ensures forall a | a in DataAsks(w, probe, valueMap, ms) :: a.OfData? && a.who == w
  {
    var h := DataAsks(w, probe, valueMap, ms);
    DataAsksIndexed(w, probe, valueMap, ms);
    forall i | 0 <= i < |h|
      ensures Proper(h[i])
    {
      MappedLabels(valueMap, ms[i]);
    }
    forall i, j | 0 <= i < j < |h|
      ensures Separate(h[i], h[j])
    {
      MappedLabels(valueMap, ms[i]);
      MappedLabels(valueMap, ms[j]);
      assert Apart(ms[i], ms[j]);
      ApartSeparates(h[i], h[j]);
    }
  }

  lemma ApartSeparates(a: Ask, b: Ask)
    requires Proper(a) && Proper(b) && a.OfData? && b.OfData? && Apart(a.metric, b.metric)
    ensures Separate(a, b)
  {
    assert "field" in RESERVED && "item" in RESERVED;
    CarriedData(a, "field");
    CarriedData(b, "field");
    CarriedData(a, "item");
    CarriedData(b, "item");
  }

  /** What makes the metrics of one task distinct. */
  ghost predicate DistinctData(j: Job, r: Row) {
    && (r.data.None? || Distinguishable(r.data.value))
    && MetricsData.Square(MetricsOf(r.data))
    && KeepsItems(ConfigOf(j.configs, r.name).valueMap, MetricsOf(r.data))
  }

  lemma GaugeNamesDiffer(g: Gauge, k: Gauge)
    requires g != k
    ensures GaugeName(g) != GaugeName(k)
  {
  }

  lemma GaugesApart(w: Who, r: Row)
    ensures PairsApart(GaugeAsks(w, r))
    ensures forall a | a in GaugeAsks(w, r) :: a.OfTask? && a.who == w
  {
    var h := GaugeAsks(w, r);
    assert h[0].gauge == ResultGauge && h[1].gauge == RuntimeGauge && h[2].gauge == RunsCounter;
    forall i, j | 0 <= i < j < |h|
      ensures Separate(h[i], h[j])
    {
      GaugeNamesDiffer(h[i].gauge, h[j].gauge);
    }
  }

  lemma GaugesThenData(w: Who, g: seq<Ask>, d: seq<Ask>)
    requires PairsApart(g) && forall a | a in g :: a.OfTask? && a.who == w
    requires PairsApart(d) && forall a | a in d :: a.OfData? && a.who == w
    ensures RowGood(g + d, w)
  {
    forall a, b | a in g && b in d
      ensures Separate(a, b)
    {
      assert MetricsKeys.NameOf(a) != MetricsKeys.NameOf(b);
    }
    ConcatApart(g, d);
  }

  /** Requests of one task, any two of them separate. */
  ghost predicate RowGood(h: seq<Ask>, w: Who) {
    PairsApart(h) && forall a | a in h :: !a.OfScript? && a.who == w
  }

  lemma RowApart(j: Job, r: Row)
    requires DistinctData(j, r)
    ensures RowGood(RowAsks(j, r), WhoOf(j, r))
  {
    var w, valueMap, ms := WhoOf(j, r), ConfigOf(j.configs, r.name).valueMap, MetricsOf(r.data);
    MetricsApart(r.data);
    DataAsksApart(w, r.probe, valueMap, ms);
    GaugesApart(w, r);
    GaugesThenData(w, GaugeAsks(w, r), DataAsks(w, r.probe, valueMap, ms));
  }

  lemma MetricsApart(d: Option<Ref<Data>>)
    requires d.None? || Distinguishable(d.value)
    ensures AllApart(MetricsOf(d))
  {
    if d.Some? {
      DataApart(d.value);
    }
  }

  // ----- one job, all jobs -----

  ghost predicate DistinctNames(rows: seq<Row>) {
    forall i, k | 0 <= i < k < |rows| :: rows[i].name != rows[k].name
  }

  ghost predicate DistinctRows(j: Job) {
    && DistinctNames(j.rows)
    && (forall i | 0 <= i < |j.rows| :: DistinctData(j, j.rows[i]))
  }

  ghost predicate FromRows(a: Ask, j: Job, n: nat)
    requires n <= |j.rows|
  {
    !a.OfScript? && HomeOf(a) == (j.name, j.scriptFile) && exists i :: 0 <= i < n && a.who.task == j.rows[i].name
  }

  /** Requests of the first n tasks of a job, any two of them separate. */
  ghost predicate RowsGood(h: seq<Ask>, j: Job, n: nat)
    requires n <= |j.rows|
  {
    PairsApart(h) && forall a | a in h :: FromRows(a, j, n)
  }

  lemma TasksSeparate(a: Ask, b: Ask)
    requires Proper(a) && Proper(b) && !a.OfScript? && !b.OfScript? && a.who.task != b.who.task
    ensures Separate(a, b)
  {
    assert "task" in RESERVED;
    CarriedPlace(a);
    CarriedPlace(b);
  }

  lemma OneMoreRow(g: seq<Ask>, h: seq<Ask>, j: Job, n: nat)
    requires DistinctNames(j.rows) && n < |j.rows|
    requires RowsGood(g, j, n) && RowGood(h, WhoOf(j, j.rows[n]))
    ensures RowsGood(g + h, j, n + 1)
  {
    forall a, b | a in g && b in h
      ensures Separate(a, b)
    {
      TasksSeparate(a, b);
    }
    ConcatApart(g, h);
    forall a | a in h
      ensures FromRows(a, j, n + 1)
    {
      assert a.who.task == j.rows[n].name;
    }
  }

  ghost predicate EachGood(f: Row -> seq<Ask>, j: Job, n: nat)
    requires n <= |j.rows|
  {
    forall i | 0 <= i < n :: RowGood(f(j.rows[i]), WhoOf(j, j.rows[i]))
  }

  lemma FewerGood(f: Row -> seq<Ask>, j: Job, n: nat)
    requires 0 < n <= |j.rows| && EachGood(f, j, n)
    ensures EachGood(f, j, n - 1) && RowGood(f(j.rows[n - 1]), WhoOf(j, j.rows[n - 1]))
  {
  }

  lemma {:induction false} ConcatGood(f: Row -> seq<Ask>, j: Job, n: nat, h: seq<Ask>)
    requires DistinctNames(j.rows) && n <= |j.rows| && EachGood(f, j, n) && h == Concat(f, j.rows, n)
    ensures RowsGood(h, j, n)
    decreases n
  {
    if n > 0 {
      var g, row := Concat(f, j.rows, n - 1), f(j.rows[n - 1]);
      FewerGood(f, j, n);
      ConcatGood(f, j, n - 1, g);
      OneMoreRow(g, row, j, n - 1);
      assert h == g + row;
    }
  }

  lemma RowsApart(j: Job, n: nat)
    requires DistinctRows(j) && n <= |j.rows|
    ensures RowsGood(RowsAsks(j, n), j, n)
  {
    forall i | 0 <= i < n
      ensures RowGood(RowAsker(j)(j.rows[i]), WhoOf(j, j.rows[i]))
    {
      RowApart(j, j.rows[i]);
    }
    ConcatGood(RowAsker(j), j, n, RowsAsks(j, n));
  }

  ghost predicate DistinctJobs(jobs: seq<Job>) {
    && (forall i, k | 0 <= i < k < |jobs| :: jobs[i].name != jobs[k].name || jobs[i].scriptFile != jobs[k].scriptFile)
    && (forall i | 0 <= i < |jobs| :: DistinctRows(jobs[i]))
  }

  function HomeOf(a: Ask): (string, string) {
    if a.OfScript? then (a.job, a.script) else (a.who.job, a.who.script)
  }

  ghost predicate FromJobs(a: Ask, jobs: seq<Job>) {
    exists i :: 0 <= i < |jobs| && HomeOf(a) == (jobs[i].name, jobs[i].scriptFile)
  }

  lemma ScriptThenTasks(first: Ask, h: seq<Ask>)
    requires first.OfScript? && PairsApart(h) && forall a | a in h :: !a.OfScript?
    ensures PairsApart([first] + h)
  {
    forall a | a in h
      ensures Separate(first, a)
    {
      assert MetricsKeys.NameOf(first) != MetricsKeys.NameOf(a);
    }
    ConcatApart([first], h);
  }

  lemma JobApart(j: Job)
    requires DistinctRows(j)
    ensures PairsApart(JobAsks(j))
    ensures forall a | a in JobAsks(j) :: HomeOf(a) == (j.name, j.scriptFile)
  {
    RowsApart(j, |j.rows|);
    ScriptThenTasks(OfScript(j.name, j.scriptFile, GaugeOf(j.success)), RowsAsks(j, |j.rows|));
  }

  lemma HomesSeparate(a: Ask, b: Ask)
    requires Proper(a) && Proper(b) && HomeOf(a) != HomeOf(b)
    ensures Separate(a, b)
  {
    assert "job" in RESERVED && "script" in RESERVED;
    CarriedPlace(a);
    CarriedPlace(b);
  }

  lemma OneMoreJob(g: seq<Ask>, jobs: seq<Job>, n: nat)
    requires n < |jobs| && DistinctJobs(jobs)
    requires PairsApart(g) && forall a | a in g :: FromJobs(a, jobs[..n])
    ensures PairsApart(g + JobAsks(jobs[n]))
    ensures forall a | a in g + JobAsks(jobs[n]) :: FromJobs(a, jobs[..n + 1])
  {
    var h := JobAsks(jobs[n]);
    JobApart(jobs[n]);
    forall a, b | a in g && b in h
      ensures Separate(a, b)
    {
      var i :| 0 <= i < n && HomeOf(a) == (jobs[..n][i].name, jobs[..n][i].scriptFile);
      HomesSeparate(a, b);
    }
    ConcatApart(g, h);
    forall a | a in g + h
      ensures FromJobs(a, jobs[..n + 1])
    {
      if a in g {
        var i :| 0 <= i < n && HomeOf(a) == (jobs[..n][i].name, jobs[..n][i].scriptFile);
        assert jobs[..n + 1][i] == jobs[..n][i];
      } else {
        assert jobs[..n + 1][n] == jobs[n];
      }
    }
  }

  lemma {:induction false} JobsApart(jobs: seq<Job>)
    requires DistinctJobs(jobs)
    ensures PairsApart(Asks(jobs))
    ensures forall a | a in Asks(jobs) :: FromJobs(a, jobs)
    decreases |jobs|
  {
    if jobs != [] {
      var n := |jobs| - 1;
      JobsApart(jobs[..n]);
      OneMoreJob(Asks(jobs[..n]), jobs, n);
      assert jobs[..n + 1] == jobs;
    }
  }

  // ----- the samples -----

  lemma SampleFits(h: seq<Ask>, n: nat)
    requires MetricsCache.AllProper(h) && CleanConsts(h) && n < |h|
    ensures Fits(Samples(h)[n], h[n])
  {
    AnswerAt(Answer, h, n);
    assert CleanConsts(h[..n] + [h[n]]);
    MetricsCache.RightButConsts(h[..n], h[n]);
    ConstsStayClean(h[..n], h[n]);
  }

  /** Whatever was collected before, the samples of one collection are all of different series. */
  lemma OneCollectionDistinct(past: seq<Ask>, jobs: seq<Job>, i: nat, k: nat)
    requires DistinctJobs(jobs) && MetricsCache.AllProper(past) && CleanConsts(past + Asks(jobs))
    requires |past| <= i < k < |past| + |Asks(jobs)|
    ensures var s := Samples(past + Asks(jobs));
      && |s[i].labels| == |s[i].desc.labels|
      && |s[k].labels| == |s[k].desc.labels|
      && !SameSeries(s[i], s[k])
  {
    JobsApart(jobs);
    LaterDistinct(past, Asks(jobs), i, k);
  }

  lemma LaterDistinct(past: seq<Ask>, asks: seq<Ask>, i: nat, k: nat)
    requires MetricsCache.AllProper(past) && PairsApart(asks) && CleanConsts(past + asks)
    requires |past| <= i < k < |past| + |asks|
    ensures var s := Samples(past + asks);
      && |s[i].labels| == |s[i].desc.labels|
      && |s[k].labels| == |s[k].desc.labels|
      && !SameSeries(s[i], s[k])
  {
    var h := past + asks;
    assert Separate(asks[i - |past|], asks[k - |past|]);
    SampleFits(h, i);
    SampleFits(h, k);
    SeparateSamples(Samples(h)[i], Samples(h)[k], h[i], h[k]);
  }
}
