/** What the samples of one collection say, spelled out sample by sample: metric, kind, value, labels. */
module MetricsValues {
  import opened Flatten
  import FlattenLaws
  import opened Metrics
  import MetricsCache
  import MetricsUnique

  // ----- what each sample says -----

  ghost predicate ScriptSample(s: Sample, j: Job) {
    && s.desc.name == "boogieman_script_result" && s.desc.help == "script execution result" && !s.counter
    && s.value == (if j.success then 1.0 else 0.0)
    && s.desc.labels == ["job", "script"] && s.labels == [j.name, j.scriptFile]
  }

  ghost predicate TaskSample(s: Sample, name: string, help: string, counter: bool, value: real, j: Job, r: Row) {
    && s.desc.name == name && s.desc.help == help && s.counter == counter && s.value == value
    && s.desc.labels == ["job", "script", "task"] && s.labels == [j.name, j.scriptFile, r.name]
  }

  /** Label x of a metric as the sample carries it: an item by its mapped value, if it has one. */
  ghost function LabelShown(valueMap: Labels, m: Metric, x: nat): string
    requires x < |m.labels| == |m.names|
  {
    if m.names[x] == "item" && m.labels[x] in valueMap then valueMap[m.labels[x]] else m.labels[x]
  }

  ghost predicate DataSample(s: Sample, j: Job, r: Row, valueMap: Labels, m: Metric) {
    && s.desc.name == (if m.labels == [] then "boogieman_probe_data" else "boogieman_probe_data_item")
    && s.desc.help == "probe execution data result" && !s.counter && s.value == m.value
    && |m.labels| == |m.names| && |s.labels| == 4 + |m.labels|
    && s.desc.labels == ["job", "script", "task", "probe"] + m.names
    && s.labels[..4] == [j.name, j.scriptFile, r.name, r.probe]
    && forall x | 0 <= x < |m.labels| :: s.labels[4 + x] == LabelShown(valueMap, m, x)
  }

  /** The configuration of a task: that of the first task in the job's list with this name, if there is one. */
  ghost predicate ConfigFor(c: TaskConfig, configs: seq<TaskConfig>, name: string) {
    || (exists i: nat :: i < |configs| && c == configs[i] && name == c.name
                         && forall h | 0 <= h < i :: configs[h].name != name)
    || ((forall i | 0 <= i < |configs| :: configs[i].name != name) && c.consts == map[] && c.valueMap == map[])
  }

  /** One sample for each metric of the task's data, in order. */
  ghost predicate DataReported(samples: seq<Sample>, j: Job, r: Row, valueMap: Labels, ms: seq<Metric>) {
    |samples| == |ms| && forall t | 0 <= t < |ms| :: DataSample(samples[t], j, r, valueMap, ms[t])
  }

  /** Success, runtime and number of runs. */
  ghost predicate TaskReported(samples: seq<Sample>, j: Job, r: Row) {
    && |samples| == 3
    && TaskSample(samples[0], "boogieman_task_result", "task execution result", false,
                  if r.success then 1.0 else 0.0, j, r)
    && TaskSample(samples[1], "boogieman_task_runtime", "task runtime", false, r.runtimeMs as real, j, r)
    && TaskSample(samples[2], "boogieman_task_runs", "task run counter", true, r.runs as real, j, r)
  }

  /** The samples of one task: what every task reports, then its data. */
  ghost predicate RowReported(samples: seq<Sample>, j: Job, r: Row) {
    && |samples| >= 3 && TaskReported(samples[..3], j, r)
    && exists c :: ConfigFor(c, j.configs, r.name) && DataReported(samples[3..], j, r, c.valueMap, MetricsOf(r.data))
  }

  /** The samples of the first n tasks of a job, task by task. */
  ghost predicate RowsReported(samples: seq<Sample>, j: Job, n: nat)
    requires n <= |j.rows|
    decreases n
  {
    if n == 0 then samples == []
    else
      exists cut :: 0 <= cut <= |samples| && RowsReported(samples[..cut], j, n - 1)
                    && RowReported(samples[cut..], j, j.rows[n - 1])
  }

  ghost predicate JobReported(samples: seq<Sample>, j: Job) {
    samples != [] && ScriptSample(samples[0], j) && RowsReported(samples[1..], j, |j.rows|)
  }

  /** The samples of the first n jobs, job by job, and nothing else. */
  ghost predicate Reported(samples: seq<Sample>, jobs: seq<Job>, n: nat)
    requires n <= |jobs|
    decreases n
  {
    if n == 0 then samples == []
    else
      exists cut :: 0 <= cut <= |samples| && Reported(samples[..cut], jobs, n - 1)
                    && JobReported(samples[cut..], jobs[n - 1])
  }

  // ----- from requests to samples -----

  lemma {:induction false} FirstConfig(configs: seq<TaskConfig>, name: string)
    ensures ConfigFor(ConfigOf(configs, name), configs, name)
  {
    if configs != [] && configs[0].name != name {
      FirstConfig(configs[1..], name);
      var c := ConfigOf(configs, name);
      if i: nat :| i < |configs[1..]| && c == configs[1..][i] && name == c.name
                   && forall h | 0 <= h < i :: configs[1..][h].name != name {
        assert c == configs[i + 1];
        forall h | 0 <= h < i + 1
          ensures configs[h].name != name
        {
          assert h > 0 ==> configs[1..][h - 1] == configs[h];
        }
      } else {
        forall i | 0 <= i < |configs|
          ensures configs[i].name != name
        {
          assert i > 0 ==> configs[1..][i - 1] == configs[i];
        }
      }
    }
  }

  /** The sample that a request gets after some history, but for its constant labels. */
  ghost predicate Answers(s: Sample, a: Ask) {
    && s.desc.name == Meant(a).name && s.desc.help == Meant(a).help && s.desc.labels == Meant(a).labels
    && s.counter == ReadingOf(a).counter && s.value == ReadingOf(a).value && s.labels == ReadingOf(a).labels
  }

  /** The samples that the metrics of one task's data get. */
  ghost predicate DataAnswers(samples: seq<Sample>, w: Who, probe: string, valueMap: Labels, ms: seq<Metric>) {
    |samples| == |ms| && forall t | 0 <= t < |ms| :: Answers(samples[t], OfData(w, probe, Mapped(valueMap, ms[t])))
  }

  lemma OneMoreMetric(samples: seq<Sample>, s: Sample, w: Who, probe: string, valueMap: Labels,
                      ms: seq<Metric>, i: nat)
    requires i < |ms| && DataAnswers(samples, w, probe, valueMap, ms[..i])
    requires Answers(s, OfData(w, probe, Mapped(valueMap, ms[i])))
    ensures DataAnswers(samples + [s], w, probe, valueMap, ms[..i + 1])
  {
  }

  lemma DataIsReported(samples: seq<Sample>, j: Job, r: Row, valueMap: Labels, ms: seq<Metric>)
    requires forall t | 0 <= t < |ms| :: FlattenLaws.Shaped(ms[t])
    requires DataAnswers(samples, WhoOf(j, r), r.probe, valueMap, ms)
    ensures DataReported(samples, j, r, valueMap, ms)
  {
    forall t | 0 <= t < |ms|
      ensures DataSample(samples[t], j, r, valueMap, ms[t])
    {
      MetricReported(samples[t], j, r, valueMap, ms[t]);
    }
  }

  lemma AnswerAnswers(h: seq<Ask>, a: Ask)
    requires MetricsCache.AllProper(h) && Proper(a)
    ensures Answers(Answer(h, a), a)
  {
    MetricsCache.RightButConsts(h, a);
  }

  lemma ScriptReported(s: Sample, j: Job)
    requires Answers(s, OfScript(j.name, j.scriptFile, GaugeOf(j.success)))
    ensures ScriptSample(s, j)
  {
  }

  lemma GaugesReported(samples: seq<Sample>, j: Job, r: Row)
    requires |samples| == 3 && forall t | 0 <= t < 3 :: Answers(samples[t], GaugeAsks(WhoOf(j, r), r)[t])
    ensures TaskReported(samples, j, r)
  {
  }

  lemma MetricReported(s: Sample, j: Job, r: Row, valueMap: Labels, m: Metric)
    requires FlattenLaws.Shaped(m) && Answers(s, OfData(WhoOf(j, r), r.probe, Mapped(valueMap, m)))
    ensures DataSample(s, j, r, valueMap, m)
  {
    MappedShown(valueMap, m);
  }

  lemma MappedShown(valueMap: Labels, m: Metric)
    requires FlattenLaws.Shaped(m)
    ensures var n := Mapped(valueMap, m);
      && n.value == m.value && n.names == m.names && |n.labels| == |m.labels|
      && forall x | 0 <= x < |m.labels| :: n.labels[x] == LabelShown(valueMap, m, x)
  {
  }

  lemma RowIsReported(gauges: seq<Sample>, data: seq<Sample>, j: Job, r: Row)
    requires TaskReported(gauges, j, r)
    requires DataReported(data, j, r, ConfigOf(j.configs, r.name).valueMap, MetricsOf(r.data))
    ensures RowReported(gauges + data, j, r)
  {
    FirstConfig(j.configs, r.name);
    assert (gauges + data)[..3] == gauges && (gauges + data)[3..] == data;
  }

  lemma OneMoreRow(samples: seq<Sample>, more: seq<Sample>, j: Job, n: nat)
    requires n < |j.rows| && RowsReported(samples, j, n) && RowReported(more, j, j.rows[n])
    ensures RowsReported(samples + more, j, n + 1)
  {
    assert (samples + more)[..|samples|] == samples && (samples + more)[|samples|..] == more;
  }

  lemma OneMoreJob(samples: seq<Sample>, more: seq<Sample>, jobs: seq<Job>, n: nat)
    requires n < |jobs| && Reported(samples, jobs, n) && JobReported(more, jobs[n])
    ensures Reported(samples + more, jobs, n + 1)
  {
    assert (samples + more)[..|samples|] == samples && (samples + more)[|samples|..] == more;
  }

  // ----- constant labels -----

  /** These are the constant labels of a task of these jobs, whose place is in the labels. */
  ghost predicate LabelledBy(consts: Labels, place: seq<string>, j: Job, r: Row) {
    && place == [j.name, j.scriptFile, r.name]
    && exists c :: ConfigFor(c, j.configs, r.name) && consts == c.consts
  }

  ghost predicate LabelledByOne(consts: Labels, place: seq<string>, jobs: seq<Job>) {
    exists i, k :: 0 <= i < |jobs| && 0 <= k < |jobs[i].rows| && LabelledBy(consts, place, jobs[i], jobs[i].rows[k])
  }

  lemma WhoIsLabelled(j: Job, r: Row)
    ensures LabelledBy(WhoOf(j, r).consts, Place(WhoOf(j, r)), j, r)
  {
    FirstConfig(j.configs, r.name);
  }

  lemma RowAsksWho(j: Job, r: Row)
    ensures forall a | a in RowAsks(j, r) :: !a.OfScript? && a.who == WhoOf(j, r)
  {
    MetricsUnique.DataAsksIndexed(WhoOf(j, r), r.probe, ConfigOf(j.configs, r.name).valueMap, MetricsOf(r.data));
  }

  lemma {:induction false} RowsAsksWho(j: Job, n: nat, a: Ask) returns (k: nat)
    requires n <= |j.rows| && a in RowsAsks(j, n)
    ensures k < n && !a.OfScript? && a.who == WhoOf(j, j.rows[k])
    decreases n
  {
    if a in RowAsks(j, j.rows[n - 1]) {
      k := n - 1;
      RowAsksWho(j, j.rows[k]);
    } else {
      k := RowsAsksWho(j, n - 1, a);
    }
  }

  /** Every request of a collection but those of the scripts comes with the constant labels of its task. */
  lemma {:induction false} AskIsLabelled(jobs: seq<Job>, a: Ask)
    requires a in Asks(jobs) && !a.OfScript?
    ensures LabelledByOne(a.who.consts, Place(a.who), jobs)
    decreases |jobs|
  {
    var n := |jobs| - 1;
    if a in JobAsks(jobs[n]) {
      var k := RowsAsksWho(jobs[n], |jobs[n].rows|, a);
      WhoIsLabelled(jobs[n], jobs[n].rows[k]);
    } else {
      AskIsLabelled(jobs[..n], a);
      var i, k :| 0 <= i < n && 0 <= k < |jobs[..n][i].rows|
        && LabelledBy(a.who.consts, Place(a.who), jobs[..n][i], jobs[..n][i].rows[k]);
      assert jobs[..n][i] == jobs[i];
    }
  }

  lemma SampleMeant(h: seq<Ask>, tasks: set<Who>, m: nat)
    requires MetricsCache.AllProper(h) && MetricsCache.AskedBy(h, tasks) && MetricsCache.NoClash(tasks) && m < |h|
    ensures Samples(h)[m].desc == Meant(h[m]) && Samples(h)[m].labels == ReadingOf(h[m]).labels
  {
    MetricsCache.CoherentWithoutClash(h, tasks);
    AnswerAt(Answer, h, m);
  }

  lemma AskLabels(a: Ask)
    ensures var values, consts := ReadingOf(a).labels, Meant(a).consts;
      if a.OfScript? then |values| == 2 && consts == map[]
      else |values| >= 3 && values[..3] == Place(a.who) && consts == a.who.consts
  {
  }

  /** The constant labels of a sample are those of its task; a script's has none. */
  ghost predicate WithOwnConstants(s: Sample, jobs: seq<Job>) {
    if |s.labels| == 2 then s.desc.consts == map[]
    else |s.labels| >= 3 && LabelledByOne(s.desc.consts, s.labels[..3], jobs)
  }

  lemma AskWithConstants(s: Sample, a: Ask, jobs: seq<Job>)
    requires a in Asks(jobs) && s.desc == Meant(a) && s.labels == ReadingOf(a).labels
    ensures WithOwnConstants(s, jobs)
  {
    AskLabels(a);
    if !a.OfScript? {
      AskIsLabelled(jobs, a);
    }
  }

  /** Where no two tasks clash, each sample that a collection adds to a history carries the constant labels of its own
      task, whatever was collected before. */
  lemma OwnConstants(h: seq<Ask>, past: seq<Ask>, jobs: seq<Job>, tasks: set<Who>, m: nat)
    requires h == past + Asks(jobs) && |past| <= m < |h|
    requires MetricsCache.AllProper(h) && MetricsCache.AskedBy(h, tasks) && MetricsCache.NoClash(tasks)
    ensures WithOwnConstants(Samples(h)[m], jobs)
  {
    SampleMeant(h, tasks, m);
    assert h[m] in Asks(jobs);
    AskWithConstants(Samples(h)[m], h[m], jobs);
  }
}
