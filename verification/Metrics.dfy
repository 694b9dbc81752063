/** Collecting the metrics of all jobs: how each request is keyed, which descriptor it finds or builds, and the loop
    that assembles label values in Go slices. */
module Metrics {
  import opened Records
  import opened Flatten
  import FlattenLaws
  import Texts

  type Labels = map<string, string>

  datatype Desc = Desc(name: string, help: string, labels: seq<string>, consts: Labels)

  datatype Sample = Sample(desc: Desc, counter: bool, value: real, labels: seq<string>)

  const SCRIPT_RESULT := "boogieman_script_result"
  const TASK_RESULT := "boogieman_task_result"
  const TASK_RUNTIME := "boogieman_task_runtime"
  const TASK_RUNS := "boogieman_task_runs"
  const DATA := "boogieman_probe_data"
  const DATA_ITEM := "boogieman_probe_data_item"

  const SCRIPT_LABELS := ["job", "script"]
  const TASK_LABELS := ["job", "script", "task"]
  const PROBE_LABELS := ["job", "script", "task", "probe"]

  datatype Info = Info(help: string, labels: seq<string>)

  /** The table of base descriptors. */
  function Base(name: string): Option<Info> {
    if name == SCRIPT_RESULT then Some(Info("script execution result", SCRIPT_LABELS))
    else if name == TASK_RESULT then Some(Info("task execution result", TASK_LABELS))
    else if name == TASK_RUNTIME then Some(Info("task runtime", TASK_LABELS))
    else if name == TASK_RUNS then Some(Info("task run counter", TASK_LABELS))
    else if name == DATA then Some(Info("probe execution data result", PROBE_LABELS))
    else if name == DATA_ITEM then Some(Info("probe execution data result", PROBE_LABELS + ["item"]))
    else None
  }

  datatype Reading = Reading(counter: bool, value: real, labels: seq<string>, names: seq<string>, consts: Labels)

  /** A one-part key of a labelled request is completed with the label values. */
  function FullParts(parts: seq<string>, d: Reading): seq<string> {
    if |parts| == 1 && d.consts != map[] then parts + d.labels else parts
  }

  function Built(parts: seq<string>, d: Reading): Option<Desc>
    requires parts != []
  {
    var whole, first := Base(Texts.Join(parts, '|')), Base(parts[0]);
    if whole.Some? then Some(Desc(Texts.Join(parts, '|'), whole.value.help, whole.value.labels, d.consts))
    else if first.None? then None
    else
      var labels := if parts[0] == DATA_ITEM && d.names != [] then PROBE_LABELS + d.names else first.value.labels;
      Some(Desc(parts[0], first.value.help, labels, d.consts))
  }

  function Found(cache: map<string, Desc>, parts: seq<string>, d: Reading): Option<Desc>
    requires parts != []
  {
    var key := Texts.Join(FullParts(parts, d), '|');
    if key in cache then Some(cache[key]) else Built(FullParts(parts, d), d)
  }

  // ----- requests -----

  /** A task as the metrics see it: its place, and the constant labels of its configuration. */
  datatype Who = Who(job: string, script: string, task: string, consts: Labels)

  datatype Gauge = ResultGauge | RuntimeGauge | RunsCounter

  datatype Ask =
    | OfScript(job: string, script: string, value: real)
    | OfTask(gauge: Gauge, who: Who, value: real)
    | OfData(who: Who, probe: string, metric: Metric)

  function GaugeName(g: Gauge): string {
    match g
    case ResultGauge => TASK_RESULT
    case RuntimeGauge => TASK_RUNTIME
    case RunsCounter => TASK_RUNS
  }

  function GaugeHelp(g: Gauge): string {
    match g
    case ResultGauge => "task execution result"
    case RuntimeGauge => "task runtime"
    case RunsCounter => "task run counter"
  }

  function Place(w: Who): seq<string> {
    [w.job, w.script, w.task]
  }

  ghost predicate Proper(a: Ask) {
    a.OfData? ==> FlattenLaws.Shaped(a.metric)
  }

  /** The composite key that the collector passes for a request. */
  function Parts(a: Ask): (p: seq<string>)
    ensures p != []
  {
    match a
    case OfScript(_, _, _) => [SCRIPT_RESULT]
    case OfTask(g, _, _) => [GaugeName(g)]
    case OfData(w, _, m) =>
      (if m.labels == [] then [DATA] else [DATA_ITEM, Texts.Join(m.names, ',')])
      + if w.consts == map[] then [] else Place(w)
  }

  function ReadingOf(a: Ask): Reading {
    match a
    case OfScript(job, script, value) => Reading(false, value, [job, script], [], map[])
    case OfTask(g, w, value) => Reading(g.RunsCounter?, value, Place(w), [], w.consts)
    case OfData(w, probe, m) => Reading(false, m.value, Place(w) + [probe] + m.labels, m.names, w.consts)
  }

  function KeyOf(a: Ask): string {
    Texts.Join(FullParts(Parts(a), ReadingOf(a)), '|')
  }

  /** The descriptor a request means, whatever has been asked before. */
  function Meant(a: Ask): Desc {
    match a
    case OfScript(_, _, _) => Desc(SCRIPT_RESULT, "script execution result", SCRIPT_LABELS, map[])
    case OfTask(g, w, _) =>
      Desc(GaugeName(g), GaugeHelp(g), TASK_LABELS, w.consts)
    case OfData(w, _, m) =>
      Desc(if m.labels == [] then DATA else DATA_ITEM, "probe execution data result", PROBE_LABELS + m.names, w.consts)
  }

  // ----- what a whole history of requests leaves and emits -----

  function CacheAfter(h: seq<Ask>): map<string, Desc>
    decreases |h|
  {
    if h == [] then map[]
    else
      var cache, a := CacheAfter(h[..|h| - 1]), h[|h| - 1];
      if KeyOf(a) in cache then cache else cache[KeyOf(a) := Meant(a)]
  }

  function Emission(cache: map<string, Desc>, a: Ask): Sample {
    var d := ReadingOf(a);
    Sample(if KeyOf(a) in cache then cache[KeyOf(a)] else Meant(a), d.counter, d.value, d.labels)
  }

  /** What a request gets after a history. */
  function Answer(past: seq<Ask>, a: Ask): Sample {
    Emission(CacheAfter(past), a)
  }

  /** The answers to all elements, each after those before it. */
  function Answers<T, U>(answer: (seq<T>, T) -> U, h: seq<T>): (r: seq<U>)
    ensures |r| == |h|
    decreases |h|
  {
    if h == [] then [] else Answers(answer, h[..|h| - 1]) + [answer(h[..|h| - 1], h[|h| - 1])]
  }

  lemma {:induction false} AnswerAt<T, U>(answer: (seq<T>, T) -> U, h: seq<T>, i: nat)
    requires i < |h|
    ensures Answers(answer, h)[i] == answer(h[..i], h[i])
    decreases |h|
  {
    var n := |h| - 1;
    if i < n {
      AnswerAt(answer, h[..n], i);
      assert h[..n][..i] == h[..i];
    }
  }

  function Samples(h: seq<Ask>): seq<Sample> {
    Answers(Answer, h)
  }

  // ----- what a collection asks for -----

  datatype TaskConfig = TaskConfig(name: string, consts: Labels, valueMap: Labels)

  datatype Row = Row(name: string, success: bool, runtimeMs: nat, runs: nat, probe: string, data: Option<Ref<Data>>)

  datatype Job = Job(name: string, scriptFile: string, configs: seq<TaskConfig>, success: bool, rows: seq<Row>)

  function ConfigOf(configs: seq<TaskConfig>, name: string): TaskConfig {
    if configs == [] then TaskConfig(name, map[], map[])
    else if configs[0].name == name then configs[0]
    else ConfigOf(configs[1..], name)
  }

  function GaugeOf(b: bool): real {
    if b then 1.0 else 0.0
  }

  /** The label under "item" replaced by its mapped value, if it has one. */
  function Mapped(valueMap: Labels, m: Metric): Metric {
    var i := FlattenLaws.Find(m.names, "item");
    if i < |m.names| && i < |m.labels| && m.labels[i] in valueMap then
      m.(labels := m.labels[i := valueMap[m.labels[i]]])
    else
      m
  }

  function DataAsks(w: Who, probe: string, valueMap: Labels, ms: seq<Metric>): seq<Ask>
    decreases |ms|
  {
    if ms == [] then []
    else DataAsks(w, probe, valueMap, ms[..|ms| - 1]) + [OfData(w, probe, Mapped(valueMap, ms[|ms| - 1]))]
  }

  function WhoOf(j: Job, r: Row): Who {
    Who(j.name, j.scriptFile, r.name, ConfigOf(j.configs, r.name).consts)
  }

  ghost function MetricsOf(d: Option<Ref<Data>>): seq<Metric> {
    if d.None? then [] else Flat(d.value)
  }

  function GaugeAsks(w: Who, r: Row): seq<Ask> {
    [OfTask(ResultGauge, w, GaugeOf(r.success)),
     OfTask(RuntimeGauge, w, r.runtimeMs as real),
     OfTask(RunsCounter, w, r.runs as real)]
  }

  ghost function RowAsks(j: Job, r: Row): seq<Ask> {
    var w := WhoOf(j, r);
    GaugeAsks(w, r) + DataAsks(w, r.probe, ConfigOf(j.configs, r.name).valueMap, MetricsOf(r.data))
  }

  ghost function RowAsker(j: Job): Row -> seq<Ask> {
    r => RowAsks(j, r)
  }

  ghost function Concat(f: Row -> seq<Ask>, rows: seq<Row>, n: nat): seq<Ask>
    requires n <= |rows|
  {
    if n == 0 then [] else Concat(f, rows, n - 1) + f(rows[n - 1])
  }

  /** For the first n tasks of a job. */
  ghost function RowsAsks(j: Job, n: nat): seq<Ask>
    requires n <= |j.rows|
  {
    Concat(RowAsker(j), j.rows, n)
  }

  ghost function JobAsks(j: Job): seq<Ask> {
    [OfScript(j.name, j.scriptFile, GaugeOf(j.success))] + RowsAsks(j, |j.rows|)
  }

  ghost function Asks(jobs: seq<Job>): seq<Ask>
    decreases |jobs|
  {
    if jobs == [] then [] else Asks(jobs[..|jobs| - 1]) + JobAsks(jobs[|jobs| - 1])
  }
}
