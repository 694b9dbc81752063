/** Background readers of earlier processes: when exactly one of them can still be waiting while the slot holds the
    process of a new run. Its next step brings that process down. */
module EngineReaders {
  import opened Records
  import opened Probe
  import opened Engine
  import opened EngineInvariant
  import opened EngineDriver
  import EngineSteps
  import EngineEnds
  import EngineOverlap

  ghost predicate AtRisk(s: State, i: nat) {
    && i < |s.probes| && s.probes[i].slot == Some(RunNo(s))
    && exists p :: p < RunNo(s) && (i, p) in s.readers
  }

  /** A call holds the probe in its hand and is about to finish it. */
  ghost predicate InHand(s: State, i: nat) {
    exists d :: 0 <= d < |s.calls| && s.calls[d].pc == Finishing(i)
  }

  /** A reader of the probe is waiting, and the slot is empty or can still be emptied by something else. */
  ghost predicate ReaderCanBeLate(s: State, i: nat)
    requires i < |s.probes|
  {
    exists p :: (i, p) in s.readers &&
      (s.probes[i].slot.None? || i in s.queue || InHand(s, i) || exists q :: q != p && (i, q) in s.readers)
  }

  // ----- slots and readers in every schedule -----

  predicate SlotSane(o: Options, p: ProbeState) {
    p.slot.Some? ==> Slotted(o) && p.slot.value <= p.cur.runCounter
  }

  ghost predicate Sane(plan: Plan, s: State)
    requires Shape(plan, s)
  {
    && (forall i | 0 <= i < plan.N() :: SlotSane(plan.opts[i], s.probes[i]))
    && (forall b | b in s.readers :: Slotted(plan.opts[b.0]) && plan.opts[b.0].stayBackground)
  }

  lemma CellSane(o: Options, c: Cell, e: Exit, now: int)
    requires Live(c.pc) && Allowed(o, e) && SlotSane(o, c.probe)
    ensures SlotSane(o, CellStep(o, c, e, now).probe)
    ensures c.pc.Probing? && ExitEffect(o, c.pc.busy, e).reader ==> Slotted(o) && o.stayBackground
  {
  }

  lemma SaneTask(plan: Plan, s: State, c: nat, i: nat, e: Exit, now: int)
    requires Shape(plan, s) && Sane(plan, s) && Enabled(plan, s, TaskStep(c, i, e, now))
    ensures Sane(plan, ApplyTask(plan, s, c, i, e, now))
  {
    CellSane(plan.opts[i], CellOf(s, c, i), e, now);
  }

  lemma SaneCall(plan: Plan, s: State, c: nat, now: int)
    requires Shape(plan, s) && Sane(plan, s) && Enabled(plan, s, CallStep(c, now))
    ensures Sane(plan, ApplyCall(plan, s, c, now))
  {
  }

  lemma {:induction false} SaneRuns(plan: Plan, s: State, acts: seq<Action>)
    requires Shape(plan, s) && Sane(plan, s) && Runs(plan, s, acts)
    ensures Sane(plan, After(plan, s, acts))
    decreases |acts|
  {
    if acts != [] {
      match acts[0] {
        case CallStep(c, now) => SaneCall(plan, s, c, now);
        case TaskStep(c, i, e, now) => SaneTask(plan, s, c, i, e, now);
        case _ =>
      }
      SaneRuns(plan, Apply(plan, s, acts[0]), acts[1..]);
    }
  }

  lemma CountersBelow(plan: Plan, s: State, i: nat)
    requires Inv(plan, s) && i < plan.N()
    ensures s.probes[i].cur.runCounter <= RunNo(s)
    ensures Ahead(Phase(s, i)) && !Phase(s, i).Launching? ==> s.probes[i].cur.runCounter < RunNo(s)
    ensures forall p | (i, p) in s.readers :: p <= RunNo(s) && (Ahead(Phase(s, i)) ==> p < RunNo(s))
  {
    assert CellOk(Cell(Phase(s, i), s.tasks[i], s.probes[i]), RunNo(s),
                  VerdictOf(s.verdicts, RunNo(s) - 1, i), VerdictOf(s.verdicts, RunNo(s), i));
  }

  // ----- nothing else makes a reader late -----

  /** Since `s0` the slot was empty, or something has emptied it, or is going to. */
  ghost predicate Freed(s0: State, t: State, i: nat)
    requires i < |s0.probes|
  {
    || s0.probes[i].slot.None? || i in s0.queue || InHand(s0, i)
    || exists p :: (i, p) in s0.readers && (i, p) !in t.readers
  }

  /** Otherwise the slot is what it was until the runner has looked at it, and the runner does not fill it. */
  ghost predicate Untouched(s0: State, t: State, c: nat, i: nat)
    requires i < |s0.probes| && i < |t.probes| && c < |t.calls| && i < |t.calls[c].tasks|
  {
    && t.calls[c].tasks[i] != Probing(false)
    && (t.probes[i].slot.None? || t.probes[i].slot == s0.probes[i].slot)
    && (Ahead(t.calls[c].tasks[i]) ==> t.probes[i].slot == s0.probes[i].slot && i !in t.queue && !InHand(t, i))
  }

  /** What holds of every state of the run that call c has begun in `s0`. */
  ghost predicate Since(plan: Plan, s0: State, t: State, c: nat, i: nat)
    requires Shape(plan, t) && i < plan.N() && i < |s0.probes|
  {
    && c < |t.calls| && t.current == Some(c) && (Owner(t) == Some(c) || t.calls[c].tasks[i] == Gone)
    && (forall p | (i, p) in t.readers && p <= RunNo(s0) :: (i, p) in s0.readers)
    && (Freed(s0, t, i) || Untouched(s0, t, c, i))
  }

  /** The state in which a run begins. */
  ghost predicate Begins(plan: Plan, s0: State, t: State, i: nat) {
    && Inv(plan, s0) && Sane(plan, s0) && i < plan.N() && Inv(plan, t) && RunNo(t) == RunNo(s0) + 1
  }

  lemma FreedStays(s0: State, t: State, t': State, i: nat)
    requires i < |s0.probes| && Freed(s0, t, i)
    requires forall p | (i, p) in s0.readers && (i, p) in t'.readers :: (i, p) in t.readers
    ensures Freed(s0, t', i)
  {
  }

  /** The readers that a goroutine leaves behind belong to the run in progress. */
  lemma TaskReadersNew(plan: Plan, s0: State, t: State, c: nat, i: nat, j: nat, e: Exit, now: int)
    requires Begins(plan, s0, t, i) && Owner(t) == Some(c) && Enabled(plan, t, TaskStep(c, j, e, now))
    ensures var t' := ApplyTask(plan, t, c, j, e, now);
      forall p | (i, p) in t'.readers && p <= RunNo(s0) :: (i, p) in t.readers
  {
    EngineSteps.CellHere(plan, t, c, j);
  }

  lemma CellUntouched(o: Options, x: Cell, e: Exit, now: int, slot: Option<nat>)
    requires Live(x.pc) && Allowed(o, e) && x.pc != Probing(false) && slot.Some? && Slotted(o)
    requires x.probe.slot.None? || x.probe.slot == slot
    requires Ahead(x.pc) ==> x.probe.slot == slot
    ensures var y := CellStep(o, x, e, now);
      && y.pc != Probing(false) && (y.probe.slot.None? || y.probe.slot == slot)
      && (Ahead(y.pc) ==> y.probe.slot == slot && Ahead(x.pc))
  {
  }

  lemma TaskUntouched(plan: Plan, s0: State, t: State, c: nat, i: nat, j: nat, e: Exit, now: int)
    requires Shape(plan, t) && i < plan.N() && i < |s0.probes| && Owner(t) == Some(c)
    requires Untouched(s0, t, c, i) && Enabled(plan, t, TaskStep(c, j, e, now))
    requires s0.probes[i].slot.Some? && Slotted(plan.opts[i])
    ensures Untouched(s0, ApplyTask(plan, t, c, j, e, now), c, i)
  {
    var t' := ApplyTask(plan, t, c, j, e, now);
    EngineSteps.TaskFrame(plan, t, c, j, e, now, i);
    assert CellOf(t, c, i) == Cell(t.calls[c].tasks[i], t.tasks[i], t.probes[i]);
    assert CellOf(t', c, i) == Cell(t'.calls[c].tasks[i], t'.tasks[i], t'.probes[i]);
    if j == i {
      CellUntouched(plan.opts[i], CellOf(t, c, i), e, now, s0.probes[i].slot);
    }
    TaskHands(plan, t, c, i, j, e, now);
  }

  lemma TaskHands(plan: Plan, t: State, c: nat, i: nat, j: nat, e: Exit, now: int)
    requires Shape(plan, t) && Enabled(plan, t, TaskStep(c, j, e, now))
    ensures var t' := ApplyTask(plan, t, c, j, e, now);
      && (InHand(t', i) ==> InHand(t, i))
      && (i in t'.queue ==> i in t.queue || (j == i && t.calls[c].tasks[j] == Queueing))
  {
    var t' := ApplyTask(plan, t, c, j, e, now);
    if InHand(t', i) {
      var d :| 0 <= d < |t'.calls| && t'.calls[d].pc == Finishing(i);
      assert t.calls[d].pc == Finishing(i);
    }
  }

  lemma SinceTask(plan: Plan, s0: State, t: State, c: nat, i: nat, j: nat, e: Exit, now: int)
    requires Begins(plan, s0, t, i) && Since(plan, s0, t, c, i)
    requires Owner(t) == Some(c) && Enabled(plan, t, TaskStep(c, j, e, now))
    ensures Since(plan, s0, ApplyTask(plan, t, c, j, e, now), c, i)
  {
    var t' := ApplyTask(plan, t, c, j, e, now);
    TaskReadersNew(plan, s0, t, c, i, j, e, now);
    EngineSteps.TaskFrame(plan, t, c, j, e, now, i);
    CountersBelow(plan, s0, i);
    if Freed(s0, t, i) {
      FreedStays(s0, t, t', i);
    } else {
      TaskUntouched(plan, s0, t, c, i, j, e, now);
    }
  }

  /** A call that moves can empty a slot only if it has the probe in its hand. */
  lemma CallHands(plan: Plan, t: State, d: nat, now: int, i: nat)
    requires Shape(plan, t) && Enabled(plan, t, CallStep(d, now)) && i < plan.N()
    ensures var t' := ApplyCall(plan, t, d, now);
      && t'.readers == t.readers
      && (t'.probes[i].slot == t.probes[i].slot || (t'.probes[i].slot.None? && InHand(t, i)))
      && (i in t'.queue ==> i in t.queue)
  {
  }

  /** What comes to a call's hand has been in the queue. */
  lemma HandsFromQueue(plan: Plan, t: State, d: nat, now: int, i: nat)
    requires Shape(plan, t) && Enabled(plan, t, CallStep(d, now)) && i < plan.N()
    ensures InHand(ApplyCall(plan, t, d, now), i) ==> InHand(t, i) || i in t.queue
  {
    var t' := ApplyCall(plan, t, d, now);
    EngineEnds.CallPcFalls(plan, t, d, now);
    if InHand(t', i) {
      var x :| 0 <= x < |t'.calls| && t'.calls[x].pc == Finishing(i);
      if x == d {
        HandOfStepper(plan, t, d, now, i);
      } else {
        assert t.calls[x].pc == Finishing(i);
      }
    }
  }

  lemma HandOfStepper(plan: Plan, t: State, d: nat, now: int, i: nat)
    requires Shape(plan, t) && Enabled(plan, t, CallStep(d, now)) && i < plan.N()
    ensures ApplyCall(plan, t, d, now).calls[d].pc == Finishing(i) ==> i in t.queue
  {
  }

  lemma CallPlace(plan: Plan, t: State, c: nat, i: nat, d: nat, now: int)
    requires Inv(plan, t) && c < |t.calls| && i < plan.N() && t.current == Some(c)
    requires Owner(t) == Some(c) || t.calls[c].tasks[i] == Gone
    requires Enabled(plan, t, CallStep(d, now))
    ensures var t' := ApplyCall(plan, t, d, now);
      RunNo(t') == RunNo(t) ==>
        && c < |t'.calls| && t'.current == Some(c) && (Owner(t') == Some(c) || t'.calls[c].tasks[i] == Gone)
        && (t'.calls[c].tasks[i] == t.calls[c].tasks[i]
            || (t.calls[c].tasks[i] == NotSpawned && t'.calls[c].tasks[i] == Spawned))
  {
    if Owner(t) == Some(c) {
      assert Staged(plan, t.calls[c].pc, i, t.calls[c].tasks[i]);
    }
  }

  lemma SinceCall(plan: Plan, s0: State, t: State, c: nat, i: nat, d: nat, now: int)
    requires Begins(plan, s0, t, i) && Since(plan, s0, t, c, i) && Enabled(plan, t, CallStep(d, now))
    ensures var t' := ApplyCall(plan, t, d, now); RunNo(t') == RunNo(t) ==> Since(plan, s0, t', c, i)
  {
    CallPlace(plan, t, c, i, d, now);
    CallHands(plan, t, d, now, i);
    HandsFromQueue(plan, t, d, now, i);
  }

  lemma SinceReader(plan: Plan, s0: State, t: State, c: nat, i: nat, j: nat, proc: nat, now: int)
    requires Begins(plan, s0, t, i) && Since(plan, s0, t, c, i) && (j, proc) in t.readers
    ensures Since(plan, s0, ApplyReader(t, j, proc, now), c, i)
  {
    var t' := ApplyReader(t, j, proc, now);
    CountersBelow(plan, t, i);
    if Freed(s0, t, i) {
      FreedStays(s0, t, t', i);
    } else if j == i && Ahead(t.calls[c].tasks[i]) {
      assert Phase(t, i) == t.calls[c].tasks[i];
      assert (i, proc) in s0.readers && (i, proc) !in t'.readers;
    } else {
      assert InHand(t', i) ==> InHand(t, i);
    }
  }

  lemma {:induction false} SinceRuns(plan: Plan, s0: State, t: State, acts: seq<Action>, c: nat, i: nat)
    requires Begins(plan, s0, t, i) && Since(plan, s0, t, c, i) && Runs(plan, t, acts)
    ensures var u := After(plan, t, acts);
      Inv(plan, u) && RunNo(u) >= RunNo(t) && (RunNo(u) == RunNo(t) ==> Since(plan, s0, u, c, i))
    decreases |acts|
  {
    if acts != [] {
      var t' := Apply(plan, t, acts[0]);
      EngineSteps.StepInv(plan, t, acts[0]);
      SinceStep(plan, s0, t, acts[0], c, i);
      if RunNo(t') == RunNo(t) {
        SinceRuns(plan, s0, t', acts[1..], c, i);
      } else {
        RunsForward(plan, t', acts[1..]);
      }
    }
  }

  lemma SinceStep(plan: Plan, s0: State, t: State, a: Action, c: nat, i: nat)
    requires Begins(plan, s0, t, i) && Since(plan, s0, t, c, i) && Enabled(plan, t, a)
    ensures var t' := Apply(plan, t, a);
      RunNo(t') >= RunNo(t) && (RunNo(t') == RunNo(t) ==> Since(plan, s0, t', c, i))
  {
    StepForward(plan, t, a);
    match a
    case CallStep(d, now) => SinceCall(plan, s0, t, c, i, d, now);
    case TaskStep(d, j, e, now) =>
      EngineSteps.TaskIsOwned(plan, t, d, j);
      SinceTask(plan, s0, t, c, i, j, e, now);
    case ReaderEnds(j, proc, now) => SinceReader(plan, s0, t, c, i, j, proc, now);
    case _ =>
      SinceQuiet(plan, s0, t, a, c, i);
  }

  lemma SinceQuiet(plan: Plan, s0: State, t: State, a: Action, c: nat, i: nat)
    requires Begins(plan, s0, t, i) && Since(plan, s0, t, c, i) && Enabled(plan, t, a)
    requires a.Arrive? || a.Observe? || a.ObserveMore?
    ensures var t' := Apply(plan, t, a); RunNo(t') == RunNo(t) && Since(plan, s0, t', c, i)
  {
    var t' := Apply(plan, t, a);
    assert InHand(t', i) ==> InHand(t, i);
    if Freed(s0, t, i) {
      FreedStays(s0, t, t', i);
    }
  }

  lemma StepForward(plan: Plan, s: State, a: Action)
    requires Shape(plan, s) && Enabled(plan, s, a)
    ensures RunNo(Apply(plan, s, a)) >= RunNo(s)
  {
    match a
    case CallStep(c, now) =>
    case TaskStep(c, i, e, now) =>
    case _ =>
  }

  lemma {:induction false} RunsForward(plan: Plan, s: State, acts: seq<Action>)
    requires Inv(plan, s) && Runs(plan, s, acts)
    ensures Inv(plan, After(plan, s, acts)) && RunNo(After(plan, s, acts)) >= RunNo(s)
    decreases |acts|
  {
    if acts != [] {
      EngineSteps.StepInv(plan, s, acts[0]);
      StepForward(plan, s, acts[0]);
      RunsForward(plan, Apply(plan, s, acts[0]), acts[1..]);
    }
  }

  // ----- and these do -----

  /** From an empty slot, the goroutine can be brought to fill it. */
  lemma FillSlot(plan: Plan, s: State, c: nat, i: nat) returns (t: State)
    requires Coming(plan, s, c, i) && s.probes[i].slot.None? && Slotted(plan.opts[i])
    requires plan.opts[i].stayBackground
    ensures Shape(plan, t) && Leads(plan, s, t) && RunNo(t) == RunNo(s) && t.readers == s.readers
    ensures t.probes[i].slot == Some(RunNo(t))
  {
    var u := Drive(plan, s, c, i);
    var v := LaunchFree(plan, u, c, i);
    LeadsOn(plan, s, u, v);
    if plan.opts[i].kind == Cmd {
      t := v;
    } else {
      t := FailToStart(plan, v, c, i);
      LeadsOn(plan, s, v, t);
    }
  }

  lemma LaunchFree(plan: Plan, s: State, c: nat, i: nat) returns (t: State)
    requires Coming(plan, s, c, i) && s.calls[c].tasks[i] == Launching
    requires s.probes[i].slot.None? && Slotted(plan.opts[i])
    ensures Leads(plan, s, t) && Inv(plan, t) && Owner(t) == Some(c) && t.calls[c].tasks[i] == Probing(false)
    ensures t.readers == s.readers && RunNo(t) == RunNo(s) && t.probes[i].cur.runCounter == RunNo(t)
    ensures plan.opts[i].kind == Cmd ==> t.probes[i].slot == Some(RunNo(t))
  {
    EngineSteps.CellHere(plan, s, c, i);
    OwnFrame(plan, s, c, i, Panicked);
    t := OwnStep(plan, s, c, i, Panicked);
    assert CellOf(s, c, i) == Cell(Launching, s.tasks[i], s.probes[i]);
    assert CellOf(t, c, i) == Cell(t.calls[c].tasks[i], t.tasks[i], t.probes[i]);
  }

  lemma FailToStart(plan: Plan, s: State, c: nat, i: nat) returns (t: State)
    requires Inv(plan, s) && Owner(s) == Some(c) && i < plan.N() && s.calls[c].tasks[i] == Probing(false)
    requires plan.opts[i].kind == OpenVpn && plan.opts[i].stayBackground && s.probes[i].cur.runCounter == RunNo(s)
    ensures Leads(plan, s, t) && Shape(plan, t)
    ensures t.readers == s.readers && RunNo(t) == RunNo(s) && t.probes[i].slot == Some(RunNo(t))
  {
    OwnFrame(plan, s, c, i, Failed);
    t := OwnStep(plan, s, c, i, Failed);
    assert CellOf(s, c, i) == Cell(Probing(false), s.tasks[i], s.probes[i]);
    assert CellOf(t, c, i) == Cell(t.calls[c].tasks[i], t.tasks[i], t.probes[i]);
  }

  /** A state in which call c has just been accepted, and the slot can be emptied although a reader keeps waiting. */
  ghost predicate Fresh(plan: Plan, s: State, c: nat, i: nat) {
    Coming(plan, s, c, i) && s.calls[c].tasks[i] == NotSpawned
  }

  /** Another call drains the queue until it has finished the probe. */
  lemma {:induction false} DrainTo(plan: Plan, s: State, c: nat, i: nat, d: nat) returns (t: State)
    requires Fresh(plan, s, c, i) && d < |s.calls| && d != c
    requires s.calls[d].pc == Finishing(i) || (i in s.queue && (s.calls[d].pc.Draining? || s.calls[d].pc.Finishing?))
    ensures Leads(plan, s, t) && Fresh(plan, t, c, i) && t.probes[i].slot.None?
    ensures t.readers == s.readers && RunNo(t) == RunNo(s)
    decreases EngineEnds.Measure(plan, s)
  {
    var u := DrainStep(plan, s, c, i, d);
    if s.calls[d].pc == Finishing(i) {
      t := u;
    } else {
      t := DrainTo(plan, u, c, i, d);
      LeadsOn(plan, s, u, t);
    }
  }

  lemma DrainStep(plan: Plan, s: State, c: nat, i: nat, d: nat) returns (t: State)
    requires Fresh(plan, s, c, i) && d < |s.calls| && d != c
    requires s.calls[d].pc == Finishing(i) || (i in s.queue && (s.calls[d].pc.Draining? || s.calls[d].pc.Finishing?))
    ensures Leads(plan, s, t) && Fresh(plan, t, c, i) && |t.calls| == |s.calls|
    ensures t.readers == s.readers && RunNo(t) == RunNo(s)
    ensures EngineEnds.Measure(plan, t) < EngineEnds.Measure(plan, s)
    ensures if s.calls[d].pc == Finishing(i) then t.probes[i].slot.None?
            else t.calls[d].pc == Finishing(i)
                 || (i in t.queue && (t.calls[d].pc.Draining? || t.calls[d].pc.Finishing?))
  {
    t := Stepped(plan, s, CallStep(d, 0));
    DrainKeeps(plan, s, c, i, d);
  }

  lemma DrainKeeps(plan: Plan, s: State, c: nat, i: nat, d: nat)
    requires Fresh(plan, s, c, i) && d < |s.calls| && d != c
    requires s.calls[d].pc == Finishing(i) || (i in s.queue && (s.calls[d].pc.Draining? || s.calls[d].pc.Finishing?))
    ensures var t := ApplyCall(plan, s, d, 0);
      && Owner(t) == Some(c) && t.calls[c] == s.calls[c] && |t.calls| == |s.calls|
      && t.readers == s.readers && RunNo(t) == RunNo(s)
      && if s.calls[d].pc == Finishing(i) then t.probes[i].slot.None?
         else t.calls[d].pc == Finishing(i)
              || (i in t.queue && (t.calls[d].pc.Draining? || t.calls[d].pc.Finishing?))
  {
    EngineOverlap.OtherCall(plan, s, c, d, 0);
    if s.calls[d].pc != Finishing(i) {
      DrainOne(plan, s, i, d);
    }
  }

  lemma DrainOne(plan: Plan, s: State, i: nat, d: nat)
    requires Shape(plan, s) && d < |s.calls| && i < plan.N() && s.calls[d].pc != Finishing(i)
    requires i in s.queue && (s.calls[d].pc.Draining? || s.calls[d].pc.Finishing?)
    ensures var t := ApplyCall(plan, s, d, 0);
      t.calls[d].pc == Finishing(i) || (i in t.queue && (t.calls[d].pc.Draining? || t.calls[d].pc.Finishing?))
  {
  }

  /** Which other call will finish the probe, if it is queued when the run begins. */
  lemma Drainer(plan: Plan, s: State, i: nat) returns (d: nat)
    requires Inv(plan, s) && EngineEnds.QueueServed(s) && s.script.status != Running
    requires i in s.queue || InHand(s, i)
    ensures d < |s.calls| && (s.calls[d].pc == Finishing(i)
                              || (i in s.queue && (s.calls[d].pc.Draining? || s.calls[d].pc.Finishing?)))
  {
    if InHand(s, i) {
      d :| d < |s.calls| && s.calls[d].pc == Finishing(i);
    } else {
      d :| d < |s.calls| && Serving(s.calls[d].pc);
    }
  }

  lemma OneReaderEnds(plan: Plan, s: State, c: nat, i: nat, q: nat) returns (t: State)
    requires Fresh(plan, s, c, i) && (i, q) in s.readers
    ensures Leads(plan, s, t) && Fresh(plan, t, c, i) && t.probes[i].slot.None?
    ensures t.readers == s.readers - {(i, q)} && RunNo(t) == RunNo(s)
  {
    t := Stepped(plan, s, ReaderEnds(i, q, 0));
    assert Owner(t) == Owner(s);
  }

  /** The slot can be emptied while a reader keeps waiting. */
  lemma EmptySlot(plan: Plan, s: State, c: nat, i: nat, t: State, p: nat) returns (u: State)
    requires Inv(plan, s) && EngineEnds.QueueServed(s) && s.script.status != Running && i < plan.N()
    requires c < |s.calls| && s.calls[c].pc == Arrived && t == ApplyCall(plan, s, c, 0) && Fresh(plan, t, c, i)
    requires (i, p) in s.readers
    requires s.probes[i].slot.None? || i in s.queue || InHand(s, i) || exists q :: q != p && (i, q) in s.readers
    ensures Leads(plan, t, u) && Fresh(plan, u, c, i) && u.probes[i].slot.None? && RunNo(u) == RunNo(t)
    ensures (i, p) in u.readers
  {
    AdmitComing(plan, s, c, i, 0);
    if s.probes[i].slot.None? {
      u := t;
      LeadsHere(plan, t);
    } else if i in s.queue || InHand(s, i) {
      var d := Drainer(plan, s, i);
      u := DrainTo(plan, t, c, i, d);
    } else {
      var q :| q != p && (i, q) in s.readers;
      u := OneReaderEnds(plan, t, c, i, q);
    }
  }

  lemma CanBeLate(plan: Plan, s: State, c: nat, i: nat) returns (t: State)
    requires Inv(plan, s) && Sane(plan, s) && EngineEnds.QueueServed(s) && i < plan.N()
    requires c < |s.calls| && s.calls[c].pc == Arrived && s.script.status != Running
    requires ReaderCanBeLate(s, i)
    ensures EngineOverlap.Follows(plan, s, c, t) && RunNo(t) == RunNo(s) + 1 && AtRisk(t, i)
  {
    var p :| (i, p) in s.readers &&
      (s.probes[i].slot.None? || i in s.queue || InHand(s, i) || exists q :: q != p && (i, q) in s.readers);
    CountersBelow(plan, s, i);
    AdmitComing(plan, s, c, i, 0);
    var u := Accepted(plan, s, c, i, 0);
    var v := EmptySlot(plan, s, c, i, u, p);
    t := FillSlot(plan, v, c, i);
    LeadsOn(plan, u, v, t);
    EngineOverlap.FollowsBy(plan, s, c, 0, u, t);
  }

  lemma OnlyThenLate(plan: Plan, s: State, c: nat, i: nat, t: State)
    requires Inv(plan, s) && Sane(plan, s) && i < plan.N()
    requires c < |s.calls| && s.calls[c].pc == Arrived && s.script.status != Running
    requires EngineOverlap.Follows(plan, s, c, t) && RunNo(t) == RunNo(s) + 1 && AtRisk(t, i)
    ensures ReaderCanBeLate(s, i)
  {
    var u, more, now := EngineOverlap.FollowsFrom(plan, s, c, t);
    AdmitComing(plan, s, c, i, now);
    EngineSteps.CallStepInv(plan, s, c, now);
    BeginsSince(plan, s, u, c, i);
    SinceRuns(plan, s, u, more, c, i);
    RiskMeansFreed(plan, s, t, c, i);
  }

  lemma RiskMeansFreed(plan: Plan, s: State, t: State, c: nat, i: nat)
    requires Inv(plan, s) && Sane(plan, s) && i < plan.N() && Shape(plan, t)
    requires Since(plan, s, t, c, i) && RunNo(t) == RunNo(s) + 1 && AtRisk(t, i)
    ensures ReaderCanBeLate(s, i)
  {
    CountersBelow(plan, s, i);
    var p :| p < RunNo(t) && (i, p) in t.readers;
    assert (i, p) in s.readers;
    assert Freed(s, t, i);
  }

  lemma BeginsSince(plan: Plan, s: State, t: State, c: nat, i: nat)
    requires Begins(plan, s, t, i) && c < |t.calls| && Owner(t) == Some(c) && t.calls[c].tasks[i] == NotSpawned
    requires t.probes == s.probes && t.readers == s.readers && t.queue == s.queue && |t.calls| == |s.calls|
    requires forall d | 0 <= d < |s.calls| && d != c :: t.calls[d] == s.calls[d]
    ensures Since(plan, s, t, c, i)
  {
    if InHand(t, i) {
      var d :| 0 <= d < |t.calls| && t.calls[d].pc == Finishing(i);
      assert s.calls[d].pc == Finishing(i);
    }
  }

  /** A caller can tell when the run is accepted: in that run the slot can come to hold the new process while the
      reader of an older one waits if and only if a reader waits at that moment and the slot is empty, or is going
      to be emptied by something else: a drain, or a second reader. */
  lemma LateExactly(plan: Plan, acts: seq<Action>, c: nat, i: nat)
    requires Schedule(plan, acts) && c < |Reached(plan, acts).calls| && i < plan.N()
    requires Reached(plan, acts).calls[c].pc == Arrived && Reached(plan, acts).script.status != Running
    ensures var s := Reached(plan, acts);
      (exists t :: EngineOverlap.Follows(plan, s, c, t) && RunNo(t) == RunNo(s) + 1 && AtRisk(t, i))
      <==> ReaderCanBeLate(s, i)
  {
    EngineSteps.ReachedInv(plan, acts);
    SaneRuns(plan, Init(plan), acts);
    EngineEnds.AlwaysServed(plan, acts);
    var s := Reached(plan, acts);
    if ReaderCanBeLate(s, i) {
      var t := CanBeLate(plan, s, c, i);
    } else if t :| EngineOverlap.Follows(plan, s, c, t) && RunNo(t) == RunNo(s) + 1 && AtRisk(t, i) {
      OnlyThenLate(plan, s, c, i, t);
    }
  }
}
