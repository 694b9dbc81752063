/** What a group records as its success, against the conjunction of its own tasks' verdicts. */
module EngineGroups {
  import opened Records
  import opened Probe
  import opened Engine
  import opened EngineInvariant
  import EngineSteps
  import EngineEnds
  import EngineSerial
  import EngineTheorems

  predicate Succeeded(rows: seq<seq<Option<Verdict>>>, n: int, i: nat) {
    VerdictOf(rows, n, i).Some? && VerdictOf(rows, n, i).value.succ
  }

  /** All tasks of group k succeeded in run n. */
  ghost predicate Own(plan: Plan, rows: seq<seq<Option<Verdict>>>, n: nat, k: nat)
    requires plan.Valid()
  {
    forall i: nat | i < plan.N() && plan.groupOf[i] == k :: Succeeded(rows, n, i)
  }

  /** All tasks of earlier groups succeeded in run n, and all of later groups in the run before. */
  ghost predicate Others(plan: Plan, rows: seq<seq<Option<Verdict>>>, n: nat, k: nat)
    requires plan.Valid()
  {
    forall i: nat | i < plan.N() && plan.groupOf[i] != k ::
      Succeeded(rows, if plan.groupOf[i] < k then n else n - 1, i)
  }

  lemma VerdictSplits(plan: Plan, rows: seq<seq<Option<Verdict>>>, n: nat, k: nat)
    requires plan.Valid()
    ensures GroupVerdict(plan, rows, n, k) <==> Own(plan, rows, n, k) && Others(plan, rows, n, k)
  {
    forall i: nat | i < plan.N()
      ensures var v := VerdictOf(rows, if plan.groupOf[i] <= k then n else n - 1, i);
        v.Some? && v.value.succ <==>
        Succeeded(rows, if plan.groupOf[i] <= k then n else n - 1, i)
    {
    }
    if Own(plan, rows, n, k) && Others(plan, rows, n, k) {
      forall i: nat | i < plan.N()
        ensures Succeeded(rows, if plan.groupOf[i] <= k then n else n - 1, i)
      {
      }
    }
    if GroupVerdict(plan, rows, n, k) {
      forall i: nat | i < plan.N()
        ensures Succeeded(rows, if plan.groupOf[i] <= k then n else n - 1, i)
      {
      }
    }
  }

  /** The group's finished record, if there is one, says whether its own tasks succeeded in that run. */
  ghost predicate RecordsItsOwn(plan: Plan, s: State, k: nat)
    requires Shape(plan, s) && k < plan.groups
  {
    var g := s.groups[k].prev;
    g.runCounter > 0 ==> (g.success <==> Own(plan, s.verdicts, g.runCounter, k))
  }

  /** In every schedule a group's record is that of its own tasks exactly when their success implies that of the tasks
      outside: those of earlier groups in the same run, those of later groups in the run before. */
  lemma RecordIsOwnExactly(plan: Plan, acts: seq<Action>, k: nat)
    requires Schedule(plan, acts) && k < plan.groups && Reached(plan, acts).groups[k].prev.runCounter > 0
    ensures var s := Reached(plan, acts);
      var n := s.groups[k].prev.runCounter;
      && (s.groups[k].prev.success <==> Own(plan, s.verdicts, n, k) && Others(plan, s.verdicts, n, k))
      && (RecordsItsOwn(plan, s, k) <==> (Own(plan, s.verdicts, n, k) ==> Others(plan, s.verdicts, n, k)))
  {
    EngineSteps.ReachedInv(plan, acts);
    var s := Reached(plan, acts);
    VerdictSplits(plan, s.verdicts, s.groups[k].prev.runCounter, k);
  }

  // ----- one call, with chosen verdicts -----

  /** A way out with the wanted verdict. */
  function ExitFor(o: Options, succ: bool): (e: Exit)
    ensures Allowed(o, e) && EffectOf(o, e).succ == succ
  {
    if !succ then Panicked
    else
      match o.kind
      case Plain => Returned(true, None, false)
      case Cmd => if o.stayBackground then StaysAlive(None) else Exited(true, None, false)
      case OpenVpn => Connected
  }

  /** A single call, in its first run. */
  ghost predicate FirstRun(s: State) {
    && |s.calls| == 1 && s.calls[0].pc != Rejected
    && (s.calls[0].pc == Creating || s.calls[0].pc == Arrived ==>
          RunNo(s) == 0 && s.script.status == New && s.readers == {})
    && (s.calls[0].pc != Creating && s.calls[0].pc != Arrived ==> RunNo(s) == 1)
  }

  /** What has been returned so far is as wanted. */
  ghost predicate SoFar(plan: Plan, rows: seq<seq<Option<Verdict>>>, wanted: set<nat>) {
    forall i: nat | i < plan.N() && VerdictOf(rows, 1, i).Some? :: VerdictOf(rows, 1, i).value.succ <==> i in wanted
  }

  ghost predicate AsWanted(plan: Plan, s: State, wanted: set<nat>) {
    EngineSerial.SerialInv(plan, s) && FirstRun(s) && SoFar(plan, s.verdicts, wanted)
  }

  lemma FirstRunGoesOn(plan: Plan, s: State)
    requires Shape(plan, s) && FirstRun(s) && Enabled(plan, s, CallStep(0, 0))
    ensures EngineSerial.Serialized(s, CallStep(0, 0)) && FirstRun(ApplyCall(plan, s, 0, 0))
  {
  }

  lemma CallReturnsNothing(plan: Plan, s: State, wanted: set<nat>)
    requires Shape(plan, s) && |s.calls| > 0 && Enabled(plan, s, CallStep(0, 0)) && SoFar(plan, s.verdicts, wanted)
    ensures SoFar(plan, ApplyCall(plan, s, 0, 0).verdicts, wanted)
  {
    var rows := ApplyCall(plan, s, 0, 0).verdicts;
    forall i: nat | i < plan.N() && VerdictOf(rows, 1, i).Some?
      ensures VerdictOf(s.verdicts, 1, i) == VerdictOf(rows, 1, i)
    {
    }
  }

  lemma WantedCall(plan: Plan, s: State, wanted: set<nat>)
    requires AsWanted(plan, s, wanted) && Enabled(plan, s, CallStep(0, 0))
    ensures EngineSerial.Serialized(s, CallStep(0, 0)) && AsWanted(plan, ApplyCall(plan, s, 0, 0), wanted)
  {
    FirstRunGoesOn(plan, s);
    CallReturnsNothing(plan, s, wanted);
    EngineSerial.SerialStep(plan, s, CallStep(0, 0));
  }

  lemma TaskReturnsWanted(plan: Plan, s: State, i: nat, wanted: set<nat>)
    requires Shape(plan, s) && |s.verdicts| == RunNo(s) == 1 && SoFar(plan, s.verdicts, wanted)
    requires |s.calls| == 1 && i < plan.N() && Live(s.calls[0].tasks[i]) && s.calls[0].tasks[i] != Probing(true)
    ensures SoFar(plan, ApplyTask(plan, s, 0, i, ExitFor(plan.opts[i], i in wanted), 0).verdicts, wanted)
  {
    var e := ExitFor(plan.opts[i], i in wanted);
    var rows := ApplyTask(plan, s, 0, i, e, 0).verdicts;
    forall j: nat | j < plan.N() && VerdictOf(rows, 1, j).Some?
      ensures VerdictOf(rows, 1, j).value.succ <==> j in wanted
    {
      EngineSteps.TaskHistory(plan, s, 0, i, e, 0, 1, j);
    }
  }

  lemma NotBusy(plan: Plan, s: State, i: nat)
    requires EngineSerial.SerialInv(plan, s) && FirstRun(s) && i < plan.N() && Live(s.calls[0].tasks[i])
    ensures s.calls[0].tasks[i] != Probing(true) && |s.verdicts| == RunNo(s) == 1
  {
    EngineSteps.TaskIsOwned(plan, s, 0, i);
    assert EngineSerial.SlotOk(plan.opts[i], Phase(s, i), s.probes[i], RunNo(s), EngineSerial.Pending(s, i));
  }

  lemma WantedTask(plan: Plan, s: State, i: nat, wanted: set<nat>)
    requires AsWanted(plan, s, wanted) && i < plan.N() && Live(s.calls[0].tasks[i])
    ensures var a := TaskStep(0, i, ExitFor(plan.opts[i], i in wanted), 0);
      && Enabled(plan, s, a) && EngineSerial.Serialized(s, a)
      && AsWanted(plan, ApplyTask(plan, s, 0, i, ExitFor(plan.opts[i], i in wanted), 0), wanted)
  {
    NotBusy(plan, s, i);
    TaskReturnsWanted(plan, s, i, wanted);
    EngineSerial.SerialStep(plan, s, TaskStep(0, i, ExitFor(plan.opts[i], i in wanted), 0));
  }

  /** The call can be brought to its end so that every task's verdict is the wanted one. */
  lemma {:induction false} ToTheEnd(plan: Plan, s: State, wanted: set<nat>) returns (acts: seq<Action>)
    requires AsWanted(plan, s, wanted)
    ensures Runs(plan, s, acts) && AsWanted(plan, After(plan, s, acts), wanted)
    ensures After(plan, s, acts).calls[0].pc == Left
    decreases EngineEnds.Measure(plan, s)
  {
    if s.calls[0].pc == Left {
      acts := [];
    } else {
      EngineEnds.BarrierSpawned(plan, s, 0);
      var a := EngineEnds.NextStep(plan, s, 0);
      if a.TaskStep? {
        WantedTask(plan, s, a.i, wanted);
        a := TaskStep(0, a.i, ExitFor(plan.opts[a.i], a.i in wanted), 0);
      } else {
        WantedCall(plan, s, wanted);
      }
      EngineEnds.StepFalls(plan, s, a);
      var rest := ToTheEnd(plan, Apply(plan, s, a), wanted);
      acts := [a] + rest;
      assert acts[1..] == rest;
    }
  }

  lemma FirstRunEnded(plan: Plan, s: State, wanted: set<nat>)
    requires AsWanted(plan, s, wanted) && s.calls[0].pc == Left
    ensures forall k | 0 <= k < plan.groups :: s.groups[k].prev.runCounter == 1
    ensures forall i: nat | i < plan.N() :: Succeeded(s.verdicts, 1, i) <==> i in wanted
  {
    forall k | 0 <= k < plan.groups
      ensures s.groups[k].prev.runCounter == 1
    {
      EngineTheorems.GroupAtRest(plan, s, k);
    }
    forall i: nat | i < plan.N()
      ensures VerdictOf(s.verdicts, 1, i).Some?
    {
      EngineTheorems.AtRest(plan, s, i);
    }
  }

  /** Any verdicts can come about in a first run. */
  lemma FirstRunWith(plan: Plan, wanted: set<nat>) returns (acts: seq<Action>)
    requires plan.Valid()
    ensures Schedule(plan, acts)
    ensures var s := Reached(plan, acts);
      && (forall k | 0 <= k < plan.groups :: s.groups[k].prev.runCounter == 1)
      && (forall i: nat | i < plan.N() :: Succeeded(s.verdicts, 1, i) <==> i in wanted)
  {
    var s := Apply(plan, Init(plan), Arrive);
    EngineSerial.SerialInit(plan);
    EngineSerial.SerialArrive(plan, Init(plan));
    var rest := ToTheEnd(plan, s, wanted);
    acts := [Arrive] + rest;
    assert acts[1..] == rest;
    FirstRunEnded(plan, After(plan, s, rest), wanted);
  }

  /** For a group with a task outside it, some schedule records the wrong success: in a first run where exactly the
      group's own tasks succeed, it records failure. */
  lemma OutsiderSpoilsRecord(plan: Plan, k: nat, outsider: nat) returns (acts: seq<Action>)
    requires plan.Valid() && k < plan.groups && outsider < plan.N() && plan.groupOf[outsider] != k
    ensures Schedule(plan, acts)
    ensures var s := Reached(plan, acts);
      s.groups[k].prev.runCounter == 1 && !s.groups[k].prev.success && Own(plan, s.verdicts, 1, k)
  {
    var wanted := set i: nat | i < plan.N() && plan.groupOf[i] == k;
    acts := FirstRunWith(plan, wanted);
    var s := Reached(plan, acts);
    RecordIsOwnExactly(plan, acts, k);
    assert !Succeeded(s.verdicts, if plan.groupOf[outsider] < k then 1 else 0, outsider);
  }

  /** A caller can tell from the plan alone: group k records the success of its own tasks in every schedule if and only
      if no task lies outside it. */
  lemma RecordIsOwnOnlyAlone(plan: Plan, k: nat)
    requires plan.Valid() && k < plan.groups
    ensures (forall acts: seq<Action> | Schedule(plan, acts) :: RecordsItsOwn(plan, Reached(plan, acts), k))
            <==> (forall i | 0 <= i < plan.N() :: plan.groupOf[i] == k)
  {
    if forall i | 0 <= i < plan.N() :: plan.groupOf[i] == k {
      forall acts: seq<Action> | Schedule(plan, acts)
        ensures RecordsItsOwn(plan, Reached(plan, acts), k)
      {
        if Reached(plan, acts).groups[k].prev.runCounter > 0 {
          RecordIsOwnExactly(plan, acts, k);
        }
      }
    } else {
      var i: nat :| i < plan.N() && plan.groupOf[i] != k;
      var acts := OutsiderSpoilsRecord(plan, k, i);
      assert !RecordsItsOwn(plan, Reached(plan, acts), k);
    }
  }
}
