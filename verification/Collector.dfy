/** The collector: one pass over all jobs, the cached descriptors it leaves, the samples it emits. */
module Collector {
  import opened Records
  import Flatten
  import FlattenLaws
  import opened Metrics
  import Texts
  import MetricsKeys
  import MetricsCache
  import MetricsData
  import MetricsValues
  import Slices

  lemma DataAsksMore(h: seq<Ask>, w: Who, probe: string, valueMap: Labels, ms: seq<Flatten.Metric>, i: nat)
    requires i < |ms|
    ensures h + DataAsks(w, probe, valueMap, ms[..i + 1]) ==
            h + DataAsks(w, probe, valueMap, ms[..i]) + [OfData(w, probe, Mapped(valueMap, ms[i]))]
  {
    assert ms[..i + 1][..i] == ms[..i];
  }

  lemma JobAsksMore(h: seq<Ask>, jobs: seq<Job>, i: nat)
    requires i < |jobs|
    ensures h + Asks(jobs[..i + 1]) == h + Asks(jobs[..i]) + JobAsks(jobs[i])
  {
    assert jobs[..i + 1][..i] == jobs[..i];
  }

  lemma Assoc<T>(a: seq<T>, b: seq<T>, c: seq<T>)
    ensures a + b + c == a + (b + c)
  {
  }

  lemma Three<T>(h: seq<T>, a: T, b: T, c: T)
    ensures h + [a] + [b] + [c] == h + [a, b, c]
  {
  }

  /** What sending a request finds, and what it leaves. */
  lemma SendStep(h: seq<Ask>, a: Ask)
    requires MetricsCache.AllProper(h) && Proper(a)
    ensures var s := Answer(h, a);
      && Found(CacheAfter(h), Parts(a), ReadingOf(a)) == Some(s.desc)
      && |s.desc.labels| == |s.labels|
      && Samples(h + [a]) == Samples(h) + [s]
      && CacheAfter(h + [a]) == (if KeyOf(a) in CacheAfter(h) then CacheAfter(h) else CacheAfter(h)[KeyOf(a) := s.desc])
  {
    MetricsKeys.BuiltIsMeant(a);
    MetricsCache.RightButConsts(h, a);
    assert (h + [a])[..|h|] == h;
  }

  class Registry {
    var descriptors: map<string, Desc>

    /** All requests so far, and the samples they got. */
    ghost var history: seq<Ask>
    ghost var sent: seq<Sample>

    ghost predicate Valid()
      reads this
    {
      MetricsCache.AllProper(history) && descriptors == CacheAfter(history) && sent == Samples(history)
    }

    constructor ()
      ensures Valid() && history == []
    {
      descriptors, history, sent := map[], [], [];
    }

    /** The library refuses a sample whose label values do not match the descriptor's variable labels; an unknown base
        name is only logged. */
    method SendMetric(parts: seq<string>, d: Reading) returns (r: Option<Sample>)
      requires parts != []
      requires (var f := Found(descriptors, parts, d); f.Some? ==> |f.value.labels| == |d.labels|)
      modifies this`descriptors
      ensures var f := Found(old(descriptors), parts, d);
        && r == (if f.None? then None else Some(Sample(f.value, d.counter, d.value, d.labels)))
        && (f.None? ==> descriptors == old(descriptors))
        && (f.Some? ==> var key := Texts.Join(FullParts(parts, d), '|');
                        descriptors ==
                          if key in old(descriptors) then old(descriptors) else old(descriptors)[key := f.value])
    {
      var full := parts;
      if |full| == 1 && d.consts != map[] {
        full := full + d.labels;
      }
      var key := if |full| == 1 then full[0] else Texts.Join(full, '|');
      var desc: Desc;
      if key in descriptors {
        desc := descriptors[key];
      } else {
        var info := Base(key);
        if info.Some? {
          desc := Desc(key, info.value.help, info.value.labels, d.consts);
        } else {
          info := Base(full[0]);
          if info.None? {
            return None;
          }
          var labels := info.value.labels;
          if full[0] == DATA_ITEM && d.names != [] {
            labels := PROBE_LABELS + d.names;
          }
          desc := Desc(full[0], info.value.help, labels, d.consts);
        }
        descriptors := descriptors[key := desc];
      }
      return Some(Sample(desc, d.counter, d.value, d.labels));
    }

    /** Sending on behalf of one request: it is never refused. */
    method Send(parts: seq<string>, d: Reading, ghost a: Ask) returns (s: Sample)
      requires Valid() && Proper(a) && parts == Parts(a) && d == ReadingOf(a)
      modifies this
      ensures Valid() && history == old(history) + [a] && sent == old(sent) + [s]
      ensures MetricsValues.Answers(s, a)
    {
      SendStep(history, a);
      MetricsValues.AnswerAnswers(history, a);
      var o := SendMetric(parts, d);
      s := o.value;
      history, sent := history + [a], sent + [s];
    }

    /** The value map applies to the first label named "item". */
    method MapItem(valueMap: Labels, m: Flatten.Metric) returns (r: Flatten.Metric)
      requires |m.labels| == |m.names|
      ensures r == Mapped(valueMap, m)
    {
      r := m;
      if valueMap == map[] {
        return;
      }
      for i := 0 to |m.names|
        invariant r == m && forall j | 0 <= j < i :: m.names[j] != "item"
      {
        if m.names[i] != "item" {
          continue;
        }
        if m.labels[i] in valueMap {
          r := m.(labels := m.labels[i := valueMap[m.labels[i]]]);
        }
        break;
      }
    }

    /** One metric of a task's data. Its label values go behind those of the task and the probe, in place if their
        array has room: what an earlier metric has left there is overwritten. */
    method CollectMetric(taskLabels: Slices.Slice, dataLabels: Slices.Slice, ghost w: Who, probe: string,
                         consts: Labels, m: Flatten.Metric)
      returns (s: Sample)
      requires Valid() && FlattenLaws.Shaped(m) && w.consts == consts
      requires taskLabels.Valid() && taskLabels.View() == Place(w)
      requires dataLabels.Valid() && dataLabels.View() == Place(w) + [probe]
      requires dataLabels.backing != taskLabels.backing
      modifies this, dataLabels.backing
      ensures Valid() && history == old(history) + [OfData(w, probe, m)] && sent == old(sent) + [s]
      ensures MetricsValues.Answers(s, OfData(w, probe, m))
      ensures dataLabels.View() == Place(w) + [probe]
    {
      var labelValues, key := dataLabels, [DATA];
      if |m.labels| != 0 {
        labelValues := Slices.Append(dataLabels, m.labels);
        key := [DATA_ITEM, Texts.Join(m.names, ',')];
      }
      if consts != map[] {
        key := key + taskLabels.View();
      }
      s := Send(key, Reading(false, m.value, labelValues.View(), m.names, consts), OfData(w, probe, m));
    }

    /** The metrics of one task's data. */
    method CollectData(taskLabels: Slices.Slice, ghost w: Who, consts: Labels, valueMap: Labels, probe: string,
                       ms: seq<Flatten.Metric>)
      returns (samples: seq<Sample>)
      requires Valid() && MetricsData.Square(ms) && w.consts == consts
      requires taskLabels.Valid() && taskLabels.View() == Place(w) && taskLabels.backing.Length == 3
      modifies this, taskLabels.backing
      ensures Valid() && history == old(history) + DataAsks(w, probe, valueMap, ms) && sent == old(sent) + samples
      ensures MetricsValues.DataAnswers(samples, w, probe, valueMap, ms)
    {
      samples := [];
      var dataLabels := Slices.Append(taskLabels, [probe]);
      for i := 0 to |ms|
        invariant Valid() && history == old(history) + DataAsks(w, probe, valueMap, ms[..i])
        invariant sent == old(sent) + samples
        invariant MetricsValues.DataAnswers(samples, w, probe, valueMap, ms[..i])
        invariant dataLabels.Valid() && dataLabels.View() == Place(w) + [probe] && fresh(dataLabels.backing)
        invariant taskLabels.View() == Place(w)
      {
        var m := MapItem(valueMap, ms[i]);
        MetricsData.MappedShape(valueMap, ms[i]);
        var s := CollectMetric(taskLabels, dataLabels, w, probe, consts, m);
        DataAsksMore(old(history), w, probe, valueMap, ms, i);
        MetricsValues.OneMoreMetric(samples, s, w, probe, valueMap, ms, i);
        Assoc(old(sent), samples, [s]);
        samples := samples + [s];
      }
      assert ms[..|ms|] == ms;
    }

    method SendGauge(g: Gauge, taskLabels: Slices.Slice, ghost w: Who, consts: Labels, value: real) returns (s: Sample)
      requires Valid() && taskLabels.Valid() && taskLabels.View() == Place(w) && w.consts == consts
      modifies this
      ensures Valid() && history == old(history) + [OfTask(g, w, value)] && sent == old(sent) + [s]
      ensures MetricsValues.Answers(s, OfTask(g, w, value))
    {
      s := Send([GaugeName(g)], Reading(g.RunsCounter?, value, taskLabels.View(), [], consts), OfTask(g, w, value));
    }

    /** What every task reports. */
    method CollectGauges(taskLabels: Slices.Slice, ghost w: Who, consts: Labels, r: Row) returns (samples: seq<Sample>)
      requires Valid() && taskLabels.Valid() && taskLabels.View() == Place(w) && w.consts == consts
      modifies this
      ensures Valid() && history == old(history) + GaugeAsks(w, r) && sent == old(sent) + samples
      ensures |samples| == 3 && forall t | 0 <= t < 3 :: MetricsValues.Answers(samples[t], GaugeAsks(w, r)[t])
    {
      var result := SendGauge(ResultGauge, taskLabels, w, consts, GaugeOf(r.success));
      var runtime := SendGauge(RuntimeGauge, taskLabels, w, consts, r.runtimeMs as real);
      var runs := SendGauge(RunsCounter, taskLabels, w, consts, r.runs as real);
      Three(old(history), OfTask(ResultGauge, w, GaugeOf(r.success)), OfTask(RuntimeGauge, w, r.runtimeMs as real),
            OfTask(RunsCounter, w, r.runs as real));
      Three(old(sent), result, runtime, runs);
      samples := [result, runtime, runs];
    }

    /** All metrics of one task. */
    method CollectRow(j: Job, r: Row) returns (samples: seq<Sample>)
      requires Valid() && MetricsData.Listable(r.data)
      modifies this
      ensures Valid() && history == old(history) + RowAsks(j, r) && sent == old(sent) + samples
      ensures MetricsValues.RowReported(samples, j, r)
    {
      var taskLabels := Slices.Literal([j.name, j.scriptFile, r.name]);
      var config := ConfigOf(j.configs, r.name);
      ghost var w := WhoOf(j, r);
      samples := CollectGauges(taskLabels, w, config.consts, r);
      ghost var gauges, data := samples, [];
      MetricsValues.GaugesReported(gauges, j, r);
      if r.data.Some? {
        var ms := Flatten.ProbeMetrics(r.data.value);
        MetricsData.FlatSquare(r.data.value);
        var more := CollectData(taskLabels, w, config.consts, config.valueMap, r.probe, ms);
        Assoc(old(history), GaugeAsks(w, r), DataAsks(w, r.probe, config.valueMap, ms));
        Assoc(old(sent), samples, more);
        MetricsValues.DataIsReported(more, j, r, config.valueMap, ms);
        samples, data := samples + more, more;
      }
      MetricsValues.RowIsReported(gauges, data, j, r);
    }

    method CollectRows(j: Job) returns (samples: seq<Sample>)
      requires Valid() && MetricsData.Collectable([j])
      modifies this
      ensures Valid() && history == old(history) + RowsAsks(j, |j.rows|) && sent == old(sent) + samples
      ensures MetricsValues.RowsReported(samples, j, |j.rows|)
    {
      samples := [];
      for k := 0 to |j.rows|
        invariant Valid() && history == old(history) + RowsAsks(j, k) && sent == old(sent) + samples
        invariant MetricsValues.RowsReported(samples, j, k)
      {
        assert j in [j] && j.rows[k] in j.rows;
        var more := CollectRow(j, j.rows[k]);
        MetricsValues.OneMoreRow(samples, more, j, k);
        Assoc(old(history), RowsAsks(j, k), RowAsks(j, j.rows[k]));
        Assoc(old(sent), samples, more);
        samples := samples + more;
      }
    }

    method CollectJob(j: Job) returns (samples: seq<Sample>)
      requires Valid() && MetricsData.Collectable([j])
      modifies this
      ensures Valid() && history == old(history) + JobAsks(j) && sent == old(sent) + samples
      ensures MetricsValues.JobReported(samples, j)
    {
      var a := OfScript(j.name, j.scriptFile, GaugeOf(j.success));
      var script := Send([SCRIPT_RESULT], Reading(false, GaugeOf(j.success), [j.name, j.scriptFile], [], map[]), a);
      MetricsValues.ScriptReported(script, j);
      var rows := CollectRows(j);
      Assoc(old(history), [a], RowsAsks(j, |j.rows|));
      Assoc(old(sent), [script], rows);
      samples := [script] + rows;
      assert samples[1..] == rows;
    }

    /** One collection. */
    method Collect(jobs: seq<Job>) returns (samples: seq<Sample>)
      requires Valid() && MetricsData.Collectable(jobs)
      modifies this
      ensures Valid() && history == old(history) + Asks(jobs) && sent == old(sent) + samples
      ensures MetricsValues.Reported(samples, jobs, |jobs|)
    {
      samples := [];
      for i := 0 to |jobs|
        invariant Valid() && history == old(history) + Asks(jobs[..i]) && sent == old(sent) + samples
        invariant MetricsValues.Reported(samples, jobs, i)
      {
        assert jobs[i] in jobs;
        var more := CollectJob(jobs[i]);
        MetricsValues.OneMoreJob(samples, more, jobs, i);
        JobAsksMore(old(history), jobs, i);
        Assoc(old(sent), samples, more);
        samples := samples + more;
      }
      assert jobs[..|jobs|] == jobs;
    }
  }
}
