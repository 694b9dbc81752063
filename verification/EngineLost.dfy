/** Probes that no drain brings down: a caller that lets at most one call arrive before the queue exists loses none,
    however later calls overlap; two such calls can lose every probe that can stay alive. */
module EngineLost {
  import opened Records
  import opened Probe
  import opened Engine
  import opened EngineInvariant
  import opened EngineDriver
  import EngineSteps
  import EngineEnds
  import EngineSlots

  // ----- one early call -----

  /** How many calls arrive while there is no queue. */
  ghost function EarlyCalls(plan: Plan, s: State, acts: seq<Action>): nat
    requires Shape(plan, s) && Runs(plan, s, acts)
    decreases |acts|
  {
    if acts == [] then 0
    else (if acts[0].Arrive? && !s.made then 1 else 0) + EarlyCalls(plan, Apply(plan, s, acts[0]), acts[1..])
  }

  /** Before the queue exists every call is about to create one; with one such call at most nothing is lost. */
  ghost predicate OneCreator(s: State) {
    && s.dropped == {}
    && (s.made ==> forall c | 0 <= c < |s.calls| :: s.calls[c].pc != Creating)
    && (!s.made ==> s.queue == [] && |s.calls| <= 1 && forall c | 0 <= c < |s.calls| :: s.calls[c].pc == Creating)
  }

  ghost function Creators(s: State): nat {
    if s.made then 0 else |s.calls|
  }

  lemma CreatorCall(plan: Plan, s: State, c: nat, now: int)
    requires Shape(plan, s) && OneCreator(s) && Enabled(plan, s, CallStep(c, now))
    ensures OneCreator(ApplyCall(plan, s, c, now)) && Creators(ApplyCall(plan, s, c, now)) <= Creators(s)
  {
  }

  lemma CreatorTask(plan: Plan, s: State, c: nat, i: nat, e: Exit, now: int)
    requires Inv(plan, s) && OneCreator(s) && Enabled(plan, s, TaskStep(c, i, e, now))
    ensures OneCreator(ApplyTask(plan, s, c, i, e, now)) && Creators(ApplyTask(plan, s, c, i, e, now)) <= Creators(s)
  {
    EngineSteps.TaskIsOwned(plan, s, c, i);
  }

  lemma {:induction false} CreatorRuns(plan: Plan, s: State, acts: seq<Action>)
    requires Inv(plan, s) && OneCreator(s) && Runs(plan, s, acts)
    requires EarlyCalls(plan, s, acts) + Creators(s) <= 1
    ensures OneCreator(After(plan, s, acts))
    decreases |acts|
  {
    if acts != [] {
      EngineSteps.StepInv(plan, s, acts[0]);
      match acts[0] {
        case CallStep(c, now) => CreatorCall(plan, s, c, now);
        case TaskStep(c, i, e, now) => CreatorTask(plan, s, c, i, e, now);
        case _ =>
      }
      CreatorRuns(plan, Apply(plan, s, acts[0]), acts[1..]);
    }
  }

  /** If at most one call arrives before the queue exists, no queue is ever replaced while it holds a probe, whatever
      overlaps later. */
  lemma OneEarlyCallLosesNothing(plan: Plan, acts: seq<Action>)
    requires Schedule(plan, acts) && EarlyCalls(plan, Init(plan), acts) <= 1
    ensures Reached(plan, acts).dropped == {}
  {
    InitInv(plan);
    CreatorRuns(plan, Init(plan), acts);
  }

  // ----- probes that can stay alive -----

  /** Some way out of its runner leaves the probe alive. */
  predicate Keepable(o: Options) {
    o.kind == Cmd || (o.stayBackground && (o.kind == OpenVpn || o.canStayBackground))
  }

  /** How one that is not keepable looks outside its runner. */
  predicate Quiet(o: Options, t: TaskPc, p: ProbeState) {
    if Slotted(o) then p.slot.None?
    else p.worker.status != Running || t.Preparing? || t.Launching? || t.Probing? || t.Settling?
  }

  lemma CellQuiet(o: Options, c: Cell, e: Exit, now: int)
    requires Live(c.pc) && Allowed(o, e) && !Keepable(o) && Quiet(o, c.pc, c.probe)
    ensures Quiet(o, CellStep(o, c, e, now).pc, CellStep(o, c, e, now).probe)
  {
  }

  ghost predicate StaysQuiet(plan: Plan, s: State, i: nat)
    requires Shape(plan, s) && i < plan.N()
  {
    Quiet(plan.opts[i], Phase(s, i), s.probes[i])
  }

  lemma QuietCall(plan: Plan, s: State, c: nat, now: int, i: nat)
    requires Inv(plan, s) && i < plan.N() && StaysQuiet(plan, s, i) && Enabled(plan, s, CallStep(c, now))
    ensures StaysQuiet(plan, ApplyCall(plan, s, c, now), i)
  {
    if Owner(s) == Some(c) {
      EngineSteps.OwnerPhases(plan, s, c, now);
    } else {
      EngineSteps.OtherPhases(plan, s, c, now);
    }
    CallProbes(plan, s, c, now, i);
  }

  lemma CallProbes(plan: Plan, s: State, c: nat, now: int, i: nat)
    requires Shape(plan, s) && i < plan.N() && Enabled(plan, s, CallStep(c, now))
    ensures var p, q := s.probes[i], ApplyCall(plan, s, c, now).probes[i];
      (q.slot.Some? ==> p.slot.Some?) && (q.worker.status == Running ==> p.worker.status == Running)
  {
  }

  lemma QuietTask(plan: Plan, s: State, c: nat, j: nat, e: Exit, now: int, i: nat)
    requires Inv(plan, s) && i < plan.N() && StaysQuiet(plan, s, i) && !Keepable(plan.opts[i])
    requires Enabled(plan, s, TaskStep(c, j, e, now))
    ensures StaysQuiet(plan, ApplyTask(plan, s, c, j, e, now), i)
  {
    var t := ApplyTask(plan, s, c, j, e, now);
    EngineSteps.TaskIsOwned(plan, s, c, j);
    EngineSteps.TaskFrame(plan, s, c, j, e, now, i);
    assert CellOf(s, c, i) == Cell(Phase(s, i), s.tasks[i], s.probes[i]);
    assert CellOf(t, c, i) == Cell(Phase(t, i), t.tasks[i], t.probes[i]);
    if j == i {
      CellQuiet(plan.opts[i], CellOf(s, c, i), e, now);
    }
  }

  lemma QuietStep(plan: Plan, s: State, a: Action, i: nat)
    requires Inv(plan, s) && i < plan.N() && StaysQuiet(plan, s, i) && !Keepable(plan.opts[i]) && Enabled(plan, s, a)
    ensures StaysQuiet(plan, Apply(plan, s, a), i)
  {
    match a
    case CallStep(c, now) => QuietCall(plan, s, c, now, i);
    case TaskStep(c, j, e, now) => QuietTask(plan, s, c, j, e, now, i);
    case _ => assert Owner(Apply(plan, s, a)) == Owner(s);
  }

  lemma {:induction false} QuietRuns(plan: Plan, s: State, acts: seq<Action>, i: nat)
    requires Inv(plan, s) && i < plan.N() && StaysQuiet(plan, s, i) && !Keepable(plan.opts[i]) && Runs(plan, s, acts)
    ensures StaysQuiet(plan, After(plan, s, acts), i)
    decreases |acts|
  {
    if acts != [] {
      EngineSteps.StepInv(plan, s, acts[0]);
      QuietStep(plan, s, acts[0], i);
      QuietRuns(plan, Apply(plan, s, acts[0]), acts[1..], i);
    }
  }

  // ----- before the queue exists -----

  /** Nothing has happened yet. */
  ghost predicate Untouched(plan: Plan, s: State)
    requires Shape(plan, s)
  {
    && s.script == FRESH && s.current == None && s.queue == [] && s.readers == {} && s.dropped == {}
    && (forall i | 0 <= i < plan.N() :: s.probes[i] == UNUSED)
    && (forall c | 0 <= c < |s.calls| :: s.calls[c] == Call(Creating, Fill(plan.N(), NotSpawned)))
  }

  lemma {:induction false} UntouchedRuns(plan: Plan, s: State, acts: seq<Action>)
    requires Shape(plan, s) && (!s.made ==> Untouched(plan, s)) && Runs(plan, s, acts)
    ensures var t := After(plan, s, acts); !t.made ==> Untouched(plan, t)
    decreases |acts|
  {
    if acts != [] {
      UntouchedStep(plan, s, acts[0]);
      UntouchedRuns(plan, Apply(plan, s, acts[0]), acts[1..]);
    }
  }

  lemma UntouchedStep(plan: Plan, s: State, a: Action)
    requires Shape(plan, s) && (!s.made ==> Untouched(plan, s)) && Enabled(plan, s, a)
    ensures var t := Apply(plan, s, a); !t.made ==> Untouched(plan, t)
  {
    if s.made {
      MadeStays(plan, s, a);
    }
  }

  lemma MadeStays(plan: Plan, s: State, a: Action)
    requires Shape(plan, s) && s.made && Enabled(plan, s, a)
    ensures Apply(plan, s, a).made
  {
    match a
    case CallStep(c, now) =>
    case TaskStep(c, i, e, now) =>
    case _ =>
  }

  // ----- two early calls -----

  /** A way out that leaves the probe alive. */
  function KeepExit(o: Options): (e: Exit)
    ensures Allowed(o, e)
  {
    match o.kind
    case Plain => Returned(true, None, false)
    case Cmd => Panicked
    case OpenVpn => Failed
  }

  /** From the runner on, the goroutine is about to queue its probe. */
  predicate OnItsWay(o: Options, t: TaskPc, p: ProbeState) {
    match t
    case Launching => o.kind == Plain ==> !p.error && p.worker.status == Running
    case Probing(busy) =>
      if o.kind == Plain then !busy && !p.error && p.worker.status == Running
      else o.kind == Cmd || busy ==> p.slot.Some?
    case Settling(succ, _, panicked) =>
      if o.kind == Plain then succ && !panicked && !p.error && p.worker.status == Running else p.slot.Some?
    case Recording(_, _) => IsAlive(o, p)
    case Ending(_) => IsAlive(o, p)
    case Checking => IsAlive(o, p)
    case Queueing => IsAlive(o, p)
    case _ => false
  }

  lemma CellOnItsWay(o: Options, c: Cell)
    requires Keepable(o) && OnItsWay(o, c.pc, c.probe)
    ensures var d := CellStep(o, c, KeepExit(o), 0);
      (IsAlive(o, d.probe) && d.pc == Gone) || OnItsWay(o, d.pc, d.probe)
    ensures c.pc == Queueing <==> CellStep(o, c, KeepExit(o), 0).pc == Gone
    ensures c.pc.Probing? ==> !ExitEffect(o, c.pc.busy, KeepExit(o)).reader
  {
  }

  lemma KeepFrame(plan: Plan, s: State, c: nat, i: nat)
    requires Shape(plan, s) && Owner(s) == Some(c) && i < plan.N() && Live(s.calls[c].tasks[i])
    requires s.calls[c].tasks[i].Probing? ==>
      !ExitEffect(plan.opts[i], s.calls[c].tasks[i].busy, KeepExit(plan.opts[i])).reader
    ensures var t := ApplyTask(plan, s, c, i, KeepExit(plan.opts[i]), 0); t.readers == s.readers
  {
  }

  /** The goroutine goes on until it has queued its probe. */
  lemma {:induction false} QueueIt(plan: Plan, s: State, c: nat, i: nat) returns (t: State)
    requires Inv(plan, s) && Owner(s) == Some(c) && i < plan.N() && Keepable(plan.opts[i])
    requires OnItsWay(plan.opts[i], s.calls[c].tasks[i], s.probes[i])
    ensures Leads(plan, s, t) && Inv(plan, t) && Owner(t) == Some(c) && t.calls[c].tasks[i] == Gone
    ensures IsAlive(plan.opts[i], t.probes[i]) && t.readers == s.readers && t.made == s.made
    ensures |t.calls| == |s.calls| && forall d | 0 <= d < |s.calls| && d != c :: t.calls[d] == s.calls[d]
    decreases EngineEnds.Measure(plan, s)
  {
    var u := QueueStep(plan, s, c, i);
    if u.calls[c].tasks[i] == Gone {
      t := u;
    } else {
      t := QueueIt(plan, u, c, i);
      LeadsOn(plan, s, u, t);
    }
  }

  lemma QueueStep(plan: Plan, s: State, c: nat, i: nat) returns (t: State)
    requires Inv(plan, s) && Owner(s) == Some(c) && i < plan.N() && Keepable(plan.opts[i])
    requires OnItsWay(plan.opts[i], s.calls[c].tasks[i], s.probes[i])
    ensures Leads(plan, s, t) && Inv(plan, t) && Owner(t) == Some(c)
    ensures if t.calls[c].tasks[i] == Gone then IsAlive(plan.opts[i], t.probes[i])
            else OnItsWay(plan.opts[i], t.calls[c].tasks[i], t.probes[i])
    ensures t.readers == s.readers && t.made == s.made
    ensures |t.calls| == |s.calls| && forall d | 0 <= d < |s.calls| && d != c :: t.calls[d] == s.calls[d]
    ensures EngineEnds.Measure(plan, t) < EngineEnds.Measure(plan, s)
  {
    var e := KeepExit(plan.opts[i]);
    assert CellOf(s, c, i) == Cell(s.calls[c].tasks[i], s.tasks[i], s.probes[i]);
    CellOnItsWay(plan.opts[i], CellOf(s, c, i));
    KeepFrame(plan, s, c, i);
    OwnFrame(plan, s, c, i, e);
    EngineSteps.TaskFrame(plan, s, c, i, e, 0, i);
    t := Stepped(plan, s, TaskStep(c, i, e, 0));
    assert CellOf(t, c, i) == Cell(t.calls[c].tasks[i], t.tasks[i], t.probes[i]);
  }

  /** The probe has been queued by call 0; the calls before d have been rejected, the others are still to create their
      queues. */
  ghost predicate Holding(plan: Plan, s: State, i: nat, d: nat) {
    && Inv(plan, s) && Owner(s) == Some(0) && i < plan.N() && s.calls[0].tasks[i] == Gone
    && IsAlive(plan.opts[i], s.probes[i]) && s.readers == {}
    && 1 <= d <= |s.calls|
    && (forall x | 1 <= x < d :: s.calls[x].pc == Rejected)
    && (forall x | d <= x < |s.calls| :: s.calls[x].pc == Creating)
    && (i in s.queue ==> d == 1)
  }

  /** Each of the other calls replaces the queue, and is then rejected. */
  lemma {:induction false} RejectOthers(plan: Plan, s: State, i: nat, d: nat) returns (t: State)
    requires Holding(plan, s, i, d)
    ensures Leads(plan, s, t) && |t.calls| == |s.calls| && Holding(plan, t, i, |t.calls|)
    decreases |s.calls| - d
  {
    if d == |s.calls| {
      t := s;
      LeadsHere(plan, s);
    } else {
      CreateThenReject(plan, s, i, d);
      var u := Stepped(plan, s, CallStep(d, 0));
      var v := Stepped(plan, u, CallStep(d, 0));
      LeadsOn(plan, s, u, v);
      t := RejectOthers(plan, v, i, d + 1);
      LeadsOn(plan, s, v, t);
    }
  }

  lemma CreateThenReject(plan: Plan, s: State, i: nat, d: nat)
    requires Holding(plan, s, i, d) && d < |s.calls|
    ensures var u := ApplyCall(plan, s, d, 0);
      && Enabled(plan, u, CallStep(d, 0))
      && var v := ApplyCall(plan, u, d, 0);
         |v.calls| == |s.calls| && (Inv(plan, v) ==> Holding(plan, v, i, d + 1))
  {
  }

  /** Call 0 is on its way out, nobody else is, and the probe is in no queue. */
  ghost predicate Leaving(plan: Plan, s: State, i: nat) {
    && Inv(plan, s) && i < plan.N() && |s.calls| >= 1 && s.calls[0].tasks[i] == Gone
    && IsAlive(plan.opts[i], s.probes[i]) && s.readers == {} && i !in s.queue
    && (Serving(s.calls[0].pc) || s.calls[0].pc == Left) && s.calls[0].pc != Finishing(i)
    && (forall x | 1 <= x < |s.calls| :: s.calls[x].pc == Rejected)
  }

  lemma LeaveRun(plan: Plan, s: State, i: nat)
    requires Leaving(plan, s, i) && Active(s.calls[0].pc) && Enabled(plan, s, CallStep(0, 0))
    ensures var t := ApplyCall(plan, s, 0, 0); Inv(plan, t) ==> Leaving(plan, t, i)
  {
    assert Owner(s) == Some(0);
    assert Staged(plan, s.calls[0].pc, i, s.calls[0].tasks[i]);
    ActiveFrame(plan, s, 0, 0);
  }

  /** A step inside the run touches no probe and no queue. */
  lemma ActiveFrame(plan: Plan, s: State, c: nat, now: int)
    requires Shape(plan, s) && c < |s.calls| && Active(s.calls[c].pc) && Enabled(plan, s, CallStep(c, now))
    ensures var t := ApplyCall(plan, s, c, now);
      && t.probes == s.probes && t.queue == s.queue && t.readers == s.readers && |t.calls| == |s.calls|
      && (Serving(t.calls[c].pc) && !t.calls[c].pc.Finishing?)
      && forall d | 0 <= d < |s.calls| && d != c :: t.calls[d] == s.calls[d]
  {
  }

  lemma LeaveDrain(plan: Plan, s: State, i: nat)
    requires Leaving(plan, s, i) && (s.calls[0].pc.Draining? || s.calls[0].pc.Finishing?)
    ensures var t := ApplyCall(plan, s, 0, 0); Inv(plan, t) ==> Leaving(plan, t, i)
  {
    DrainFrame(plan, s, 0, i);
  }

  /** A drain touches only the probe that it holds. */
  lemma DrainFrame(plan: Plan, s: State, c: nat, i: nat)
    requires Shape(plan, s) && c < |s.calls| && i < plan.N() && s.calls[c].pc != Finishing(i) && i !in s.queue
    requires s.calls[c].pc.Draining? || s.calls[c].pc.Finishing?
    ensures var t := ApplyCall(plan, s, c, 0);
      && t.probes[i] == s.probes[i] && i !in t.queue && t.readers == s.readers && |t.calls| == |s.calls|
      && (t.calls[c].pc.Draining? || t.calls[c].pc.Finishing? || t.calls[c].pc == Left)
      && t.calls[c].pc != Finishing(i) && t.calls[c].tasks == s.calls[c].tasks
      && forall d | 0 <= d < |s.calls| && d != c :: t.calls[d] == s.calls[d]
  {
  }

  lemma LeaveTask(plan: Plan, s: State, i: nat, j: nat)
    requires Leaving(plan, s, i) && j < plan.N() && Live(s.calls[0].tasks[j])
    ensures var t := ApplyTask(plan, s, 0, j, Panicked, 0); Inv(plan, t) ==> Leaving(plan, t, i)
  {
    EngineSteps.TaskIsOwned(plan, s, 0, j);
    PanicFrame(plan, s, 0, i, j);
  }

  lemma PanicFrame(plan: Plan, s: State, c: nat, i: nat, j: nat)
    requires Shape(plan, s) && c < |s.calls| && i < plan.N() && j < plan.N() && i != j && Live(s.calls[c].tasks[j])
    ensures var t := ApplyTask(plan, s, c, j, Panicked, 0);
      && t.probes[i] == s.probes[i] && (i in t.queue ==> i in s.queue) && t.readers == s.readers
      && |t.calls| == |s.calls| && t.calls[c].pc == s.calls[c].pc && t.calls[c].tasks[i] == s.calls[c].tasks[i]
      && forall d | 0 <= d < |s.calls| && d != c :: t.calls[d] == s.calls[d]
  {
  }

  lemma {:induction false} LeaveAlone(plan: Plan, s: State, i: nat) returns (t: State)
    requires Leaving(plan, s, i)
    ensures Leads(plan, s, t) && Leaving(plan, t, i) && t.calls[0].pc == Left
    decreases EngineEnds.Measure(plan, s)
  {
    if s.calls[0].pc == Left {
      t := s;
      LeadsHere(plan, s);
    } else {
      var u := LeaveStep(plan, s, i);
      t := LeaveAlone(plan, u, i);
      LeadsOn(plan, s, u, t);
    }
  }

  lemma LeaveStep(plan: Plan, s: State, i: nat) returns (t: State)
    requires Leaving(plan, s, i) && s.calls[0].pc != Left
    ensures Leads(plan, s, t) && Leaving(plan, t, i) && EngineEnds.Measure(plan, t) < EngineEnds.Measure(plan, s)
  {
    EngineEnds.BarrierSpawned(plan, s, 0);
    var a := EngineEnds.NextStep(plan, s, 0);
    if a.CallStep? {
      if Active(s.calls[0].pc) {
        LeaveRun(plan, s, i);
      } else {
        LeaveDrain(plan, s, i);
      }
    } else {
      a := TaskStep(0, a.i, Panicked, 0);
      LeaveTask(plan, s, i, a.i);
    }
    t := Stepped(plan, s, a);
  }

  /** The first call to create a queue. */
  lemma CreateFirst(plan: Plan, s: State) returns (t: State)
    requires Inv(plan, s) && Untouched(plan, s) && |s.calls| >= 1
    ensures Leads(plan, s, t) && Inv(plan, t) && t == Moved(s, 0, Arrived).(made := true)
  {
    t := Stepped(plan, s, CallStep(0, 0));
  }

  /** Call 0 is accepted, and brings the goroutine to its runner. */
  lemma FirstToLaunch(plan: Plan, s: State, i: nat) returns (t: State)
    requires Inv(plan, s) && s.script == FRESH && s.readers == {} && i < plan.N() && !s.probes[i].error
    requires |s.calls| >= 1 && s.calls[0].pc == Arrived
    ensures Leads(plan, s, t) && Coming(plan, t, 0, i) && t.calls[0].tasks[i] == Launching
    ensures !t.probes[i].error && t.readers == {}
    ensures |t.calls| == |s.calls| && forall d | 1 <= d < |s.calls| :: t.calls[d] == s.calls[d]
  {
    AdmitComing(plan, s, 0, i, 0);
    var u := Accepted(plan, s, 0, i, 0);
    t := Drive(plan, u, 0, i);
    LeadsOn(plan, s, u, t);
  }

  lemma FirstQueues(plan: Plan, s: State, i: nat) returns (t: State)
    requires Coming(plan, s, 0, i) && s.calls[0].tasks[i] == Launching && Keepable(plan.opts[i])
    requires !s.probes[i].error && s.readers == {} && forall d | 1 <= d < |s.calls| :: s.calls[d].pc == Creating
    ensures Leads(plan, s, t) && |t.calls| == |s.calls| && Holding(plan, t, i, 1)
  {
    t := QueueIt(plan, s, 0, i);
  }

  lemma FirstHolds(plan: Plan, s: State, i: nat) returns (t: State)
    requires Inv(plan, s) && Untouched(plan, s) && i < plan.N() && |s.calls| >= 1 && Keepable(plan.opts[i])
    ensures Leads(plan, s, t) && |t.calls| == |s.calls| && Holding(plan, t, i, 1)
  {
    var u := CreateFirst(plan, s);
    var v := FirstToLaunch(plan, u, i);
    LeadsOn(plan, s, u, v);
    t := FirstQueues(plan, v, i);
    LeadsOn(plan, s, v, t);
  }

  lemma HoldingLeaves(plan: Plan, s: State, i: nat)
    requires |s.calls| >= 2 && Holding(plan, s, i, |s.calls|)
    ensures Leaving(plan, s, i)
  {
  }

  lemma TwoCanLose(plan: Plan, s: State, i: nat) returns (t: State)
    requires Inv(plan, s) && Untouched(plan, s) && i < plan.N() && |s.calls| >= 2 && Keepable(plan.opts[i])
    ensures Leads(plan, s, t) && Leaving(plan, t, i) && t.calls[0].pc == Left
  {
    var u := FirstHolds(plan, s, i);
    var v := RejectOthers(plan, u, i, 1);
    LeadsOn(plan, s, u, v);
    HoldingLeaves(plan, v, i);
    t := LeaveAlone(plan, v, i);
    LeadsOn(plan, s, v, t);
  }

  // ----- main results -----

  /** If at most one call arrives before the queue exists, every process has been brought down when all calls have
      returned and no reader is left, whatever overlaps later. */
  lemma OneEarlyCallLeavesNothing(plan: Plan, acts: seq<Action>, i: nat)
    requires Schedule(plan, acts) && EarlyCalls(plan, Init(plan), acts) <= 1
    requires EngineEnds.AllOver(Reached(plan, acts)) && i < plan.N()
    ensures !IsAlive(plan.opts[i], Reached(plan, acts).probes[i])
  {
    OneEarlyCallLosesNothing(plan, acts);
    EngineSteps.ReachedInv(plan, acts);
    EngineSlots.AlwaysHeld(plan, acts);
    EngineEnds.AlwaysServed(plan, acts);
    if IsAlive(plan.opts[i], Reached(plan, acts).probes[i]) {
      EngineSlots.OnlyDroppedStayAlive(plan, Reached(plan, acts), i);
    }
  }

  /** If at most one call arrives before the queue exists, then in every state a runner that finds its slot taken
      finds a process whose probe a drain is going to finish, or is finishing. */
  lemma TakenMeansPending(plan: Plan, acts: seq<Action>, c: nat, i: nat)
    requires Schedule(plan, acts) && EarlyCalls(plan, Init(plan), acts) <= 1
    requires c < |Reached(plan, acts).calls| && i < plan.N()
    requires Reached(plan, acts).calls[c].tasks[i] == Launching && Busy(plan.opts[i], Reached(plan, acts).probes[i])
    ensures var s := Reached(plan, acts);
      i in s.queue || exists d :: 0 <= d < |s.calls| && s.calls[d].pc == Finishing(i)
  {
    OneEarlyCallLosesNothing(plan, acts);
    EngineSlots.TakenMeansHeld(plan, acts, c, i);
  }

  lemma {:induction false} NoneEarly(plan: Plan, s: State, acts: seq<Action>)
    requires Shape(plan, s) && Runs(plan, s, acts) && NoNewcomer(acts)
    ensures EarlyCalls(plan, s, acts) == 0
    decreases |acts|
  {
    if acts != [] {
      assert acts[0] in acts;
      NoneEarly(plan, Apply(plan, s, acts[0]), acts[1..]);
    }
  }

  lemma OnlyTwoLose(plan: Plan, s: State, more: seq<Action>, i: nat)
    requires Inv(plan, s) && !s.made && Untouched(plan, s) && i < plan.N()
    requires Runs(plan, s, more) && NoNewcomer(more)
    requires EngineEnds.AllOver(After(plan, s, more)) && IsAlive(plan.opts[i], After(plan, s, more).probes[i])
    ensures |s.calls| >= 2 && Keepable(plan.opts[i])
  {
    EngineSteps.RunsInv(plan, s, more);
    EngineSlots.RunsHold(plan, s, more);
    EngineEnds.ServedRuns(plan, s, more);
    EngineSlots.OnlyDroppedStayAlive(plan, After(plan, s, more), i);
    if |s.calls| <= 1 {
      NoneEarly(plan, s, more);
      CreatorRuns(plan, s, more);
    }
    if !Keepable(plan.opts[i]) {
      QuietRuns(plan, s, more, i);
    }
  }

  /** The calls that are there can all return and leave the probe alive. */
  ghost predicate CanLose(plan: Plan, s: State, i: nat)
    requires Shape(plan, s) && i < plan.N()
  {
    exists t :: Leads(plan, s, t) && Shape(plan, t) && EngineEnds.AllOver(t) && IsAlive(plan.opts[i], t.probes[i])
  }

  lemma LosingPair(plan: Plan, s: State, i: nat)
    requires Inv(plan, s) && !s.made && Untouched(plan, s) && i < plan.N() && CanLose(plan, s, i)
    ensures |s.calls| >= 2 && Keepable(plan.opts[i])
  {
    var t :| Leads(plan, s, t) && Shape(plan, t) && EngineEnds.AllOver(t) && IsAlive(plan.opts[i], t.probes[i]);
    var more: seq<Action> :| Runs(plan, s, more) && NoNewcomer(more) && After(plan, s, more) == t;
    OnlyTwoLose(plan, s, more, i);
  }

  /** Before the queue exists a caller can tell: the calls that have arrived so far can all return and leave a probe
      alive for good if and only if there are two of them and the probe is one that can stay alive. */
  lemma LostExactly(plan: Plan, acts: seq<Action>, i: nat)
    requires Schedule(plan, acts) && !Reached(plan, acts).made && i < plan.N()
    ensures var s := Reached(plan, acts); CanLose(plan, s, i) <==> |s.calls| >= 2 && Keepable(plan.opts[i])
  {
    var s := Reached(plan, acts);
    EngineSteps.ReachedInv(plan, acts);
    UntouchedRuns(plan, Init(plan), acts);
    LostFrom(plan, s, i);
  }

  lemma LostFrom(plan: Plan, s: State, i: nat)
    requires Inv(plan, s) && !s.made && Untouched(plan, s) && i < plan.N()
    ensures CanLose(plan, s, i) <==> |s.calls| >= 2 && Keepable(plan.opts[i])
  {
    if CanLose(plan, s, i) {
      LosingPair(plan, s, i);
    }
    if |s.calls| >= 2 && Keepable(plan.opts[i]) {
      PairLoses(plan, s, i);
    }
  }

  lemma PairLoses(plan: Plan, s: State, i: nat)
    requires Inv(plan, s) && Untouched(plan, s) && i < plan.N() && |s.calls| >= 2 && Keepable(plan.opts[i])
    ensures CanLose(plan, s, i)
  {
    var t := TwoCanLose(plan, s, i);
    LeftIsOver(plan, t, i);
  }

  lemma LeftIsOver(plan: Plan, s: State, i: nat)
    requires Leaving(plan, s, i) && s.calls[0].pc == Left
    ensures EngineEnds.AllOver(s)
  {
  }
}
