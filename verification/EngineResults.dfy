/** What a reader of one probe's result sees at any moment of any schedule: the record of one run, and data only of that
    same run. */
module EngineResults {
  import opened Records
  import opened Probe
  import opened Engine
  import opened EngineInvariant
  import EngineSteps

  /** Between the preparation of the handler's record and its end. */
  predicate Open(t: TaskPc) {
    t.Launching? || t.Probing? || t.Settling? || t.Recording?
  }

  predicate RecordOk(t: TaskPc, p: ProbeState) {
    if Open(t) then p.cur.runtime == 0 && !p.cur.success else p.cur == p.last
  }

  ghost predicate RecordsOk(plan: Plan, s: State)
    requires Shape(plan, s)
  {
    forall i | 0 <= i < plan.N() :: RecordOk(Phase(s, i), s.probes[i])
  }

  lemma CellRecord(o: Options, c: Cell, e: Exit, now: int)
    requires Live(c.pc) && RecordOk(c.pc, c.probe)
    ensures RecordOk(CellStep(o, c, e, now).pc, CellStep(o, c, e, now).probe)
  {
  }

  lemma TaskRecords(plan: Plan, s: State, c: nat, i: nat, e: Exit, now: int)
    requires Shape(plan, s) && RecordsOk(plan, s) && Owner(s) == Some(c) && i < plan.N() && Live(s.calls[c].tasks[i])
    ensures RecordsOk(plan, ApplyTask(plan, s, c, i, e, now))
  {
    var s' := ApplyTask(plan, s, c, i, e, now);
    forall j | 0 <= j < plan.N()
      ensures RecordOk(CellOf(s', c, j).pc, CellOf(s', c, j).probe)
    {
      EngineSteps.TaskFrame(plan, s, c, i, e, now, j);
      assert CellOf(s, c, j) == Cell(Phase(s, j), s.tasks[j], s.probes[j]);
      if j == i {
        CellRecord(plan.opts[i], CellOf(s, c, i), e, now);
      }
    }
    EngineSteps.TaskFrame(plan, s, c, i, e, now, i);
    assert forall j | 0 <= j < plan.N() :: CellOf(s', c, j) == Cell(Phase(s', j), s'.tasks[j], s'.probes[j]);
  }

  /** A step of a call opens and closes no record: no goroutine of it holds one open then. */
  lemma CallRecords(plan: Plan, s: State, c: nat, now: int, i: nat)
    requires Inv(plan, s) && RecordsOk(plan, s) && Enabled(plan, s, CallStep(c, now)) && i < plan.N()
    ensures RecordOk(Phase(ApplyCall(plan, s, c, now), i), ApplyCall(plan, s, c, now).probes[i])
  {
    CallKeepsRecords(plan, s, c, now, i);
    CallKeepsOpen(plan, s, c, now, i);
  }

  lemma CallKeepsRecords(plan: Plan, s: State, c: nat, now: int, i: nat)
    requires Shape(plan, s) && Enabled(plan, s, CallStep(c, now)) && i < plan.N()
    ensures var p, p' := s.probes[i], ApplyCall(plan, s, c, now).probes[i]; p'.cur == p.cur && p'.last == p.last
  {
  }

  lemma CallKeepsOpen(plan: Plan, s: State, c: nat, now: int, i: nat)
    requires Shape(plan, s) && CallsOk(plan, s) && Enabled(plan, s, CallStep(c, now)) && i < plan.N()
    ensures Open(Phase(ApplyCall(plan, s, c, now), i)) <==> Open(Phase(s, i))
  {
    if Owner(s) == Some(c) {
      EngineSteps.OwnerPhases(plan, s, c, now);
    } else {
      EngineSteps.OtherPhases(plan, s, c, now);
    }
  }

  lemma StepRecords(plan: Plan, s: State, a: Action)
    requires Inv(plan, s) && RecordsOk(plan, s) && Enabled(plan, s, a)
    ensures RecordsOk(plan, Apply(plan, s, a))
  {
    match a {
      case CallStep(c, now) =>
        forall i: nat | i < plan.N() {
          CallRecords(plan, s, c, now, i);
        }
      case TaskStep(c, i, e, now) =>
        EngineSteps.TaskIsOwned(plan, s, c, i);
        TaskRecords(plan, s, c, i, e, now);
      case _ =>
        assert Owner(Apply(plan, s, a)) == Owner(s);
    }
  }

  lemma {:induction false} RunsRecords(plan: Plan, s: State, acts: seq<Action>)
    requires Inv(plan, s) && RecordsOk(plan, s) && Runs(plan, s, acts)
    ensures RecordsOk(plan, After(plan, s, acts))
    decreases |acts|
  {
    if acts != [] {
      StepRecords(plan, s, acts[0]);
      EngineSteps.StepInv(plan, s, acts[0]);
      RunsRecords(plan, Apply(plan, s, acts[0]), acts[1..]);
    }
  }

  ghost predicate ShownOk(plan: Plan, s: State, i: nat)
    requires Shape(plan, s) && i < plan.N()
  {
    var p, r := s.probes[i], Shown(s.probes[i]);
    if Open(Phase(s, i)) then
      r.result.runCounter == RunNo(s) && !r.result.success && r.data == None
    else
      && r.result == p.last && p.last.runCounter <= RunNo(s)
      && Carries(r.result, r.result.runCounter, VerdictOf(s.verdicts, r.result.runCounter, i))
      && r.data == (if r.result.runtime == 0 then None else p.data)
      && (r.result.runCounter > 0 ==> p.data == VerdictOf(s.verdicts, r.result.runCounter, i).value.data)
  }

  lemma RecordIsShown(plan: Plan, s: State, i: nat)
    requires Inv(plan, s) && i < plan.N() && RecordOk(Phase(s, i), s.probes[i])
    ensures ShownOk(plan, s, i)
  {
    EngineSteps.CountersDescend(plan, s, i);
    assert CellOk(Cell(Phase(s, i), s.tasks[i], s.probes[i]), RunNo(s),
                  VerdictOf(s.verdicts, RunNo(s) - 1, i), VerdictOf(s.verdicts, RunNo(s), i));
  }

  /** At every moment of every schedule: while the runner's record is open, the reader gets it, of the run in progress,
      unsuccessful and without data. Otherwise it gets the last finished record, with the verdict its runner returned in
      the run of that number, and with the data returned in that same run unless the clock did not move meanwhile. */
  lemma ReadShowsOneRun(plan: Plan, acts: seq<Action>, i: nat)
    requires Schedule(plan, acts) && i < plan.N()
    ensures ShownOk(plan, Reached(plan, acts), i)
  {
    InitInv(plan);
    RunsRecords(plan, Init(plan), acts);
    EngineSteps.ReachedInv(plan, acts);
    RecordIsShown(plan, Reached(plan, acts), i);
  }
}
