/** Serialized runs: the scheduler starts a script again only when its previous run has returned, drain included.
    The one extra assumption is about the background readers of kept processes: each has called `Finish` before the
    next run starts. Under these two the process slots and the alive queue are clean at the start of every run. */
module EngineSerial {
  import opened Records
  import opened Probe
  import opened Engine
  import opened EngineInvariant
  import opened EngineSteps

  /** A call may take its first steps only when no other call is being served and no background reader is pending. */
  ghost predicate Serialized(s: State, a: Action) {
    a.CallStep? && a.c < |s.calls| && (s.calls[a.c].pc == Arrived || s.calls[a.c].pc == Creating) ==>
      (forall d | 0 <= d < |s.calls| :: !Serving(s.calls[d].pc)) && s.readers == {}
  }

  ghost predicate SerialRuns(plan: Plan, s: State, acts: seq<Action>)
    requires Shape(plan, s)
    decreases |acts|
  {
    acts == [] ||
    (Enabled(plan, s, acts[0]) && Serialized(s, acts[0]) && SerialRuns(plan, Apply(plan, s, acts[0]), acts[1..]))
  }

  lemma {:induction false} SerialIsRuns(plan: Plan, s: State, acts: seq<Action>)
    requires Shape(plan, s) && SerialRuns(plan, s, acts)
    ensures Runs(plan, s, acts)
    decreases |acts|
  {
    if acts != [] {
      SerialIsRuns(plan, Apply(plan, s, acts[0]), acts[1..]);
    }
  }

  ghost predicate SerialSchedule(plan: Plan, acts: seq<Action>)
    ensures SerialSchedule(plan, acts) ==> Schedule(plan, acts)
  {
    && plan.Valid() && SerialRuns(plan, Init(plan), acts)
    && (SerialIsRuns(plan, Init(plan), acts); true)
  }

  // ----- the invariant -----

  /** The probe that the drain holds between dequeue and finish. */
  function InHand(s: State): seq<nat>
    requires s.current.Some? ==> s.current.value < |s.calls|
  {
    if s.current.Some? && s.calls[s.current.value].pc.Finishing? then [s.calls[s.current.value].pc.p] else []
  }

  ghost predicate Pending(s: State, i: nat)
    requires s.current.Some? ==> s.current.value < |s.calls|
  {
    i in s.queue || i in InHand(s)
  }

  predicate Early(t: TaskPc) {
    t.NotSpawned? || t.Spawned? || t.Admitted? || t.Preparing? || t.Launching? || t.Probing?
  }

  /** The slot and the worker of one probe at each position of its goroutine in run n. */
  predicate SlotOk(o: Options, t: TaskPc, p: ProbeState, n: nat, pending: bool) {
    && (p.slot.Some? ==> p.slot.value == n && Slotted(o))
    && match t
       case NotSpawned => p.slot.None? && p.worker.status != Running
       case Spawned => p.slot.None? && p.worker.status != Running
       case Admitted => p.slot.None? && p.worker.status != Running
       case Preparing => p.slot.None?
       case Launching => p.slot.None?
       case Probing(busy) => !busy && (o.kind == Cmd ==> p.slot.Some?)
       case Settling(succ, _, panicked) =>
         (Slotted(o) && o.canStayBackground && o.stayBackground && succ && !panicked && !p.error
          && p.worker.status == Running)
         ==> p.slot.Some?
       case Recording(_, _) => p.worker.status == Running ==> IsAlive(o, p)
       case Ending(_) => p.worker.status == Running ==> IsAlive(o, p)
       case Checking => p.worker.status == Running ==> IsAlive(o, p)
       case Queueing => true
       case Gone => !pending ==> p.slot.None? && p.worker.status != Running
  }

  ghost predicate SlotsOk(plan: Plan, s: State)
    requires Shape(plan, s)
  {
    forall i | 0 <= i < plan.N() :: SlotOk(plan.opts[i], Phase(s, i), s.probes[i], RunNo(s), Pending(s, i))
  }

  ghost predicate OneServed(s: State) {
    forall c | 0 <= c < |s.calls| :: Serving(s.calls[c].pc) ==> s.current == Some(c)
  }

  ghost predicate Distinct(q: seq<nat>) {
    forall a, b | 0 <= a < b < |q| :: q[a] != q[b]
  }

  ghost predicate ListsOk(plan: Plan, s: State)
    requires Shape(plan, s)
  {
    && (s.queue != [] ==> s.current.Some? && Serving(s.calls[s.current.value].pc))
    && s.queued == s.drained + InHand(s) + s.queue
    && Distinct(s.queued)
    && (forall i | i in s.queued :: i < plan.N())
    && (forall i | i in s.found :: i < plan.N())
  }

  predicate FoundOk(s: State, i: nat, t: TaskPc) {
    && (i in s.found <==> t == Queueing || i in s.queued)
    && (t != Gone ==> i !in s.queued)
  }

  ghost predicate QueueOk(plan: Plan, s: State)
    requires Shape(plan, s)
  {
    ListsOk(plan, s) && forall i: nat | i < plan.N() :: FoundOk(s, i, Phase(s, i))
  }

  ghost predicate OwnReaders(plan: Plan, s: State)
    requires Shape(plan, s)
  {
    forall b | b in s.readers :: b.1 == RunNo(s) && !Early(Phase(s, b.0))
  }

  ghost predicate SerialInv(plan: Plan, s: State) {
    Inv(plan, s) && OneServed(s) && SlotsOk(plan, s) && QueueOk(plan, s) && OwnReaders(plan, s) && s.dropped == {}
  }

  lemma SerialInit(plan: Plan)
    requires plan.Valid()
    ensures SerialInv(plan, Init(plan))
  {
    InitInv(plan);
    var s := Init(plan);
    assert OneServed(s) && OwnReaders(plan, s);
    assert QueueOk(plan, s);
    assert SlotsOk(plan, s) by {
      assert forall i | 0 <= i < plan.N() :: Phase(s, i) == Gone && s.probes[i] == UNUSED;
    }
  }

  // ----- goroutine steps -----

  lemma SlotStep(o: Options, c: Cell, e: Exit, now: int, n: nat)
    requires Live(c.pc) && Allowed(o, e) && SlotOk(o, c.pc, c.probe, n, false)
    requires (c.pc.Launching? || c.pc.Probing?) ==> c.probe.cur.runCounter == n
    requires c.pc.Spawned? ==> c.task.status != Running
    ensures var c' := CellStep(o, c, e, now); c'.pc != Gone ==> SlotOk(o, c'.pc, c'.probe, n, false)
    ensures c.pc.Checking? && CellStep(o, c, e, now).pc == Gone ==> SlotOk(o, Gone, c.probe, n, false)
    ensures !c.pc.Checking? && CellStep(o, c, e, now).pc == Gone ==> c.pc.Queueing? && SlotOk(o, Gone, c.probe, n, true)
  {
  }

  /** The slot of one task after a step of the goroutine of task i. */
  lemma SlotAfterStep(plan: Plan, s: State, c: nat, i: nat, e: Exit, now: int, j: nat)
    requires Shape(plan, s) && CellsOk(plan, s) && Owner(s) == Some(c)
    requires Enabled(plan, s, TaskStep(c, i, e, now)) && j < plan.N()
    requires SlotOk(plan.opts[j], Phase(s, j), s.probes[j], RunNo(s), Pending(s, j))
    requires Phase(s, j) != Gone ==> !Pending(s, j)
    ensures var s' := ApplyTask(plan, s, c, i, e, now);
      SlotOk(plan.opts[j], CellOf(s', c, j).pc, CellOf(s', c, j).probe, RunNo(s), Pending(s', j))
  {
    CellHere(plan, s, c, i);
    TaskFrame(plan, s, c, i, e, now, j);
    assert CellOf(s, c, j) == Cell(Phase(s, j), s.tasks[j], s.probes[j]);
    if j == i {
      SlotStep(plan.opts[i], CellOf(s, c, i), e, now, RunNo(s));
    }
  }

  lemma SerialSlots(plan: Plan, s: State, c: nat, i: nat, e: Exit, now: int)
    requires Shape(plan, s) && CellsOk(plan, s) && SlotsOk(plan, s)
    requires Enabled(plan, s, TaskStep(c, i, e, now)) && Owner(s) == Some(c)
    requires forall j | 0 <= j < plan.N() :: Phase(s, j) != Gone ==> !Pending(s, j)
    ensures SlotsOk(plan, ApplyTask(plan, s, c, i, e, now))
  {
    var s' := ApplyTask(plan, s, c, i, e, now);
    forall j | 0 <= j < plan.N()
      ensures SlotOk(plan.opts[j], CellOf(s', c, j).pc, CellOf(s', c, j).probe, RunNo(s), Pending(s', j))
    {
      SlotAfterStep(plan, s, c, i, e, now, j);
    }
    TaskFrame(plan, s, c, i, e, now, i);
    assert forall j | 0 <= j < plan.N() :: CellOf(s', c, j) == Cell(Phase(s', j), s'.tasks[j], s'.probes[j]);
  }

  lemma TaskQueues(plan: Plan, s: State, c: nat, i: nat, e: Exit, now: int)
    requires Shape(plan, s) && Owner(s) == Some(c) && i < plan.N() && Live(s.calls[c].tasks[i])
    ensures var s' := ApplyTask(plan, s, c, i, e, now);
      var t, t' := s.calls[c].tasks[i], s'.calls[c].tasks[i];
      && InHand(s') == InHand(s) == [] && s'.current == s.current && s'.calls[c].pc == s.calls[c].pc
      && s'.drained == s.drained
      && s'.queue == (if t.Queueing? then s.queue + [i] else s.queue)
      && s'.queued == (if t.Queueing? then s.queued + [i] else s.queued)
      && s'.found == (if t'.Queueing? then s.found + {i} else s.found)
      && (t'.Queueing? ==> t.Checking?) && (t.Queueing? ==> t'.Gone?)
      && (t'.Gone? ==> t.Queueing? || t.Checking?)
  {
  }

  lemma SerialLists(plan: Plan, s: State, c: nat, i: nat, e: Exit, now: int)
    requires Shape(plan, s) && Owner(s) == Some(c) && i < plan.N() && Live(s.calls[c].tasks[i])
    requires ListsOk(plan, s) && i !in s.queued
    ensures ListsOk(plan, ApplyTask(plan, s, c, i, e, now))
  {
    TaskQueues(plan, s, c, i, e, now);
  }

  lemma SerialFound(plan: Plan, s: State, c: nat, i: nat, e: Exit, now: int, j: nat)
    requires Shape(plan, s) && Owner(s) == Some(c) && i < plan.N() && Live(s.calls[c].tasks[i]) && j < plan.N()
    requires FoundOk(s, j, s.calls[c].tasks[j])
    ensures var s' := ApplyTask(plan, s, c, i, e, now); FoundOk(s', j, CellOf(s', c, j).pc)
  {
    TaskQueues(plan, s, c, i, e, now);
    TaskFrame(plan, s, c, i, e, now, j);
  }

  lemma SerialQueue(plan: Plan, s: State, c: nat, i: nat, e: Exit, now: int)
    requires Shape(plan, s) && Owner(s) == Some(c) && i < plan.N() && Live(s.calls[c].tasks[i]) && QueueOk(plan, s)
    ensures QueueOk(plan, ApplyTask(plan, s, c, i, e, now))
  {
    var s' := ApplyTask(plan, s, c, i, e, now);
    assert FoundOk(s, i, Phase(s, i));
    SerialLists(plan, s, c, i, e, now);
    forall j: nat | j < plan.N()
      ensures FoundOk(s', j, CellOf(s', c, j).pc)
    {
      assert FoundOk(s, j, Phase(s, j));
      SerialFound(plan, s, c, i, e, now, j);
    }
    TaskFrame(plan, s, c, i, e, now, i);
    assert forall j: nat | j < plan.N() :: CellOf(s', c, j).pc == Phase(s', j);
  }

  lemma SerialReaders(plan: Plan, s: State, c: nat, i: nat, e: Exit, now: int)
    requires Shape(plan, s) && CellsOk(plan, s) && OwnReaders(plan, s)
    requires Enabled(plan, s, TaskStep(c, i, e, now)) && Owner(s) == Some(c)
    ensures OwnReaders(plan, ApplyTask(plan, s, c, i, e, now))
  {
    var s' := ApplyTask(plan, s, c, i, e, now);
    CellHere(plan, s, c, i);
    forall b | b in s'.readers
      ensures b.1 == RunNo(s') && !Early(Phase(s', b.0))
    {
      TaskFrame(plan, s, c, i, e, now, b.0);
      assert CellOf(s', c, b.0) == Cell(Phase(s', b.0), s'.tasks[b.0], s'.probes[b.0]);
      assert CellOf(s, c, b.0) == Cell(Phase(s, b.0), s.tasks[b.0], s.probes[b.0]);
    }
  }

  lemma NotPending(plan: Plan, s: State, c: nat)
    requires Shape(plan, s) && QueueOk(plan, s) && Owner(s) == Some(c)
    ensures forall i | 0 <= i < plan.N() :: Phase(s, i) != Gone ==> !Pending(s, i)
  {
    assert InHand(s) == [];
    assert forall i | i in s.queue :: i in s.queued;
  }

  lemma TaskServes(plan: Plan, s: State, c: nat, i: nat, e: Exit, now: int)
    requires Shape(plan, s) && OneServed(s) && c < |s.calls| && i < plan.N() && Live(s.calls[c].tasks[i])
    ensures OneServed(ApplyTask(plan, s, c, i, e, now)) && ApplyTask(plan, s, c, i, e, now).dropped == s.dropped
  {
  }

  lemma SerialWork(plan: Plan, s: State, c: nat, i: nat, e: Exit, now: int)
    requires Shape(plan, s) && CellsOk(plan, s) && OneServed(s)
    requires SlotsOk(plan, s) && QueueOk(plan, s) && OwnReaders(plan, s)
    requires Enabled(plan, s, TaskStep(c, i, e, now)) && Owner(s) == Some(c)
    ensures var s' := ApplyTask(plan, s, c, i, e, now);
      OneServed(s') && SlotsOk(plan, s') && QueueOk(plan, s') && OwnReaders(plan, s') && s'.dropped == s.dropped
  {
    NotPending(plan, s, c);
    TaskServes(plan, s, c, i, e, now);
    SerialSlots(plan, s, c, i, e, now);
    SerialQueue(plan, s, c, i, e, now);
    SerialReaders(plan, s, c, i, e, now);
  }

  lemma SerialTask(plan: Plan, s: State, c: nat, i: nat, e: Exit, now: int)
    requires SerialInv(plan, s) && Enabled(plan, s, TaskStep(c, i, e, now))
    ensures SerialInv(plan, ApplyTask(plan, s, c, i, e, now))
  {
    TaskIsOwned(plan, s, c, i);
    TaskStepInv(plan, s, c, i, e, now);
    SerialWork(plan, s, c, i, e, now);
  }

  // ----- call steps -----

  /** Nothing is pending, no process is kept and no probe is running when a serialized call is accepted. */
  lemma CleanStart(plan: Plan, s: State, c: nat, now: int)
    requires SerialInv(plan, s) && c < |s.calls| && s.calls[c].pc == Arrived && Serialized(s, CallStep(c, now))
    ensures s.script.status != Running && s.queue == [] && InHand(s) == [] && s.readers == {}
    ensures forall i | 0 <= i < plan.N() :: s.probes[i].slot.None? && s.probes[i].worker.status != Running
  {
  }

  lemma SerialAdmit(plan: Plan, s: State, c: nat, now: int)
    requires SerialInv(plan, s) && c < |s.calls| && s.calls[c].pc == Arrived && Serialized(s, CallStep(c, now))
    ensures SerialInv(plan, ApplyCall(plan, s, c, now))
  {
    CleanStart(plan, s, c, now);
    ArrivedInv(plan, s, c, now);
    var s' := ApplyCall(plan, s, c, now);
    assert Owner(s') == Some(c);
    assert forall i | 0 <= i < plan.N() :: Phase(s', i) == NotSpawned;
  }

  /** In serialized runs only empty queues are replaced. */
  lemma SerialCreate(plan: Plan, s: State, c: nat, now: int)
    requires SerialInv(plan, s) && c < |s.calls| && s.calls[c].pc == Creating && Serialized(s, CallStep(c, now))
    ensures SerialInv(plan, ApplyCall(plan, s, c, now))
  {
    var s' := ApplyCall(plan, s, c, now);
    CallStepInv(plan, s, c, now);
    assert s.queue == [] && Owner(s) == None && Owner(s') == None && InHand(s) == InHand(s') == [];
  }

  /** A step that keeps every goroutine where it is, or spawns it, and leaves probes and queue alone. */
  lemma SerialMove(plan: Plan, s: State, s': State, c: nat)
    requires SerialInv(plan, s) && Inv(plan, s') && Owner(s) == Some(c)
    requires s'.probes == s.probes && s'.queue == s.queue && s'.readers == s.readers && RunNo(s') == RunNo(s)
    requires s'.current == s.current && s'.found == s.found && s'.queued == s.queued && s'.drained == s.drained
    requires s'.dropped == s.dropped
    requires |s'.calls| == |s.calls| && s'.calls == s.calls[c := s'.calls[c]]
    requires Serving(s'.calls[c].pc) && !s'.calls[c].pc.Finishing?
    requires forall i | 0 <= i < plan.N() ::
      Phase(s', i) == Phase(s, i) || (Phase(s, i) == NotSpawned && Phase(s', i) == Spawned)
    ensures SerialInv(plan, s')
  {
  }

  lemma OwnerFrame(plan: Plan, s: State, c: nat, now: int)
    requires Shape(plan, s) && Enabled(plan, s, CallStep(c, now)) && Owner(s) == Some(c)
    ensures var s' := ApplyCall(plan, s, c, now);
      && s'.probes == s.probes && s'.queue == s.queue && s'.readers == s.readers && s'.current == s.current
      && s'.found == s.found && s'.queued == s.queued && s'.drained == s.drained && s'.dropped == s.dropped
      && |s'.calls| == |s.calls| && s'.calls == s.calls[c := s'.calls[c]]
      && Serving(s'.calls[c].pc) && !s'.calls[c].pc.Finishing?
      && RunNo(s') == RunNo(s)
  {
  }

  lemma SerialOwner(plan: Plan, s: State, c: nat, now: int)
    requires SerialInv(plan, s) && Enabled(plan, s, CallStep(c, now)) && Owner(s) == Some(c)
    ensures SerialInv(plan, ApplyCall(plan, s, c, now))
  {
    CallStepInv(plan, s, c, now);
    OwnerFrame(plan, s, c, now);
    OwnerPhases(plan, s, c, now);
    SerialMove(plan, s, ApplyCall(plan, s, c, now), c);
  }

  /** Where a draining call stands, and that its steps concern nothing but the queue and the probe in its hand. */
  lemma DrainFrame(plan: Plan, s: State, c: nat, now: int)
    requires Shape(plan, s) && OneServed(s) && c < |s.calls| && (s.calls[c].pc.Draining? || s.calls[c].pc.Finishing?)
    ensures var s' := ApplyCall(plan, s, c, now);
      && s.current == s'.current == Some(c) && Owner(s) == None && Owner(s') == None && RunNo(s') == RunNo(s)
      && s'.found == s.found && s'.queued == s.queued && s'.readers == s.readers && s'.dropped == s.dropped
      && OneServed(s')
      && InHand(s) == (if s.calls[c].pc.Finishing? then [s.calls[c].pc.p] else [])
      && InHand(s') == (if s'.calls[c].pc.Finishing? then [s'.calls[c].pc.p] else [])
  {
  }

  lemma DequeueQueue(plan: Plan, s: State, c: nat, now: int)
    requires Shape(plan, s) && OneServed(s) && QueueOk(plan, s) && c < |s.calls| && s.calls[c].pc.Draining?
    ensures QueueOk(plan, ApplyCall(plan, s, c, now))
    ensures forall i | Pending(s, i) :: Pending(ApplyCall(plan, s, c, now), i)
  {
    var s' := ApplyCall(plan, s, c, now);
    DrainFrame(plan, s, c, now);
    if s.queue != [] {
      assert InHand(s') == [s.queue[0]] && s.queue == [s.queue[0]] + s'.queue;
    }
    assert s'.drained + InHand(s') + s'.queue == s.drained + InHand(s) + s.queue;
    forall i: nat | i < plan.N()
      ensures FoundOk(s', i, Phase(s', i))
    {
      assert FoundOk(s, i, Phase(s, i));
    }
  }

  lemma FinishQueue(plan: Plan, s: State, c: nat, now: int)
    requires Shape(plan, s) && OneServed(s) && QueueOk(plan, s) && c < |s.calls| && s.calls[c].pc.Finishing?
    ensures QueueOk(plan, ApplyCall(plan, s, c, now))
    ensures forall i | Pending(s, i) && i != s.calls[c].pc.p :: Pending(ApplyCall(plan, s, c, now), i)
  {
    DrainFrame(plan, s, c, now);
    var s' := ApplyCall(plan, s, c, now);
    assert s'.drained + InHand(s') + s'.queue == s.drained + InHand(s) + s.queue;
    forall i: nat | i < plan.N()
      ensures FoundOk(s', i, Phase(s', i))
    {
      assert FoundOk(s, i, Phase(s, i));
    }
  }

  lemma DrainSlots(plan: Plan, s: State, c: nat, now: int)
    requires Shape(plan, s) && OneServed(s) && SlotsOk(plan, s) && c < |s.calls|
    requires s.calls[c].pc.Draining? || s.calls[c].pc.Finishing?
    requires forall i | Pending(s, i) && s.calls[c].pc != Finishing(i) :: Pending(ApplyCall(plan, s, c, now), i)
    ensures SlotsOk(plan, ApplyCall(plan, s, c, now))
  {
    DrainFrame(plan, s, c, now);
    var s' := ApplyCall(plan, s, c, now);
    forall i | 0 <= i < plan.N()
      ensures SlotOk(plan.opts[i], Phase(s', i), s'.probes[i], RunNo(s'), Pending(s', i))
    {
      assert SlotOk(plan.opts[i], Phase(s, i), s.probes[i], RunNo(s), Pending(s, i));
    }
  }

  lemma SerialDrain(plan: Plan, s: State, c: nat, now: int)
    requires SerialInv(plan, s) && c < |s.calls| && (s.calls[c].pc.Draining? || s.calls[c].pc.Finishing?)
    ensures SerialInv(plan, ApplyCall(plan, s, c, now))
  {
    CallStepInv(plan, s, c, now);
    DrainFrame(plan, s, c, now);
    if s.calls[c].pc.Draining? {
      DequeueQueue(plan, s, c, now);
    } else {
      FinishQueue(plan, s, c, now);
    }
    DrainSlots(plan, s, c, now);
  }

  // ----- the other steps -----

  lemma SerialArrive(plan: Plan, s: State)
    requires SerialInv(plan, s)
    ensures SerialInv(plan, Apply(plan, s, Arrive))
  {
    var s' := Apply(plan, s, Arrive);
    ArriveInv(plan, s);
    assert Owner(s') == Owner(s) && InHand(s') == InHand(s);
    assert forall i | 0 <= i < plan.N() :: Phase(s', i) == Phase(s, i) && (Pending(s', i) <==> Pending(s, i));
  }

  lemma FinishedSlot(o: Options, t: TaskPc, p: ProbeState, n: nat, pending: bool, now: int)
    requires SlotOk(o, t, p, n, pending) && !Early(t)
    ensures SlotOk(o, t, Finish(p, now), n, pending)
  {
  }

  lemma SerialReader(plan: Plan, s: State, i: nat, proc: nat, now: int)
    requires SerialInv(plan, s) && (i, proc) in s.readers
    ensures SerialInv(plan, ApplyReader(s, i, proc, now))
  {
    var s' := ApplyReader(s, i, proc, now);
    ReaderInv(plan, s, i, proc, now);
    assert Owner(s') == Owner(s) && InHand(s') == InHand(s);
    forall j | 0 <= j < plan.N()
      ensures Phase(s', j) == Phase(s, j)
      ensures SlotOk(plan.opts[j], Phase(s', j), s'.probes[j], RunNo(s'), Pending(s', j))
    {
      assert SlotOk(plan.opts[j], Phase(s, j), s.probes[j], RunNo(s), Pending(s, j));
      if j == i {
        FinishedSlot(plan.opts[j], Phase(s, j), s.probes[j], RunNo(s), Pending(s, j), now);
      }
    }
  }

  /** Steps that leave everything but observers as it is. */
  lemma SerialQuiet(plan: Plan, s: State, s': State)
    requires SerialInv(plan, s) && Inv(plan, s') && s' == s.(observers := s'.observers)
    ensures SerialInv(plan, s')
  {
    assert Owner(s') == Owner(s) && InHand(s') == InHand(s);
    forall i: nat | i < plan.N()
      ensures Phase(s', i) == Phase(s, i) && (Pending(s', i) <==> Pending(s, i))
      ensures FoundOk(s', i, Phase(s', i))
    {
      assert FoundOk(s, i, Phase(s, i));
    }
  }

  lemma SerialStep(plan: Plan, s: State, a: Action)
    requires SerialInv(plan, s) && Enabled(plan, s, a) && Serialized(s, a)
    ensures SerialInv(plan, Apply(plan, s, a))
  {
    match a
    case Arrive => SerialArrive(plan, s);
    case CallStep(c, now) =>
      if s.calls[c].pc == Creating {
        SerialCreate(plan, s, c, now);
      } else if s.calls[c].pc == Arrived {
        SerialAdmit(plan, s, c, now);
      } else if s.calls[c].pc.Draining? || s.calls[c].pc.Finishing? {
        SerialDrain(plan, s, c, now);
      } else {
        SerialOwner(plan, s, c, now);
      }
    case TaskStep(c, i, e, now) => SerialTask(plan, s, c, i, e, now);
    case ReaderEnds(i, proc, now) => SerialReader(plan, s, i, proc, now);
    case Observe =>
      ObserveInv(plan, s);
      SerialQuiet(plan, s, Apply(plan, s, a));
    case ObserveMore(r) =>
      ObserveMoreInv(plan, s, r);
      SerialQuiet(plan, s, Apply(plan, s, a));
  }

  lemma {:induction false} SerialAfter(plan: Plan, s: State, acts: seq<Action>)
    requires SerialInv(plan, s) && SerialRuns(plan, s, acts)
    ensures Runs(plan, s, acts) && SerialInv(plan, After(plan, s, acts))
    decreases |acts|
  {
    if acts != [] {
      SerialStep(plan, s, acts[0]);
      SerialAfter(plan, Apply(plan, s, acts[0]), acts[1..]);
    }
  }

  lemma SerialReached(plan: Plan, acts: seq<Action>)
    requires SerialSchedule(plan, acts)
    ensures SerialInv(plan, Reached(plan, acts))
  {
    SerialInit(plan);
    SerialAfter(plan, Init(plan), acts);
  }

  // ----- main results -----

  /** Whenever a run is accepted the queue is empty, no slot holds a process, no probe is running and no reader is
      left: each serialized run starts clean, whichever exit paths the earlier ones took. */
  lemma EveryRunStartsClean(plan: Plan, acts: seq<Action>, c: nat, now: int)
    requires SerialSchedule(plan, acts)
    requires c < |Reached(plan, acts).calls| && Reached(plan, acts).calls[c].pc == Arrived
    requires Serialized(Reached(plan, acts), CallStep(c, now))
    ensures var s := Reached(plan, acts);
      && Apply(plan, s, CallStep(c, now)).calls[c].pc == Entering(0)
      && s.queue == [] && s.readers == {}
      && forall i | 0 <= i < plan.N() :: s.probes[i].slot.None? && s.probes[i].worker.status != Running
  {
    SerialReached(plan, acts);
    CleanStart(plan, Reached(plan, acts), c, now);
  }

  /** A runner never finds its slot taken by another process, and the probe's own status guard never refuses. */
  lemma SlotNeverTaken(plan: Plan, acts: seq<Action>, c: nat, i: nat)
    requires SerialSchedule(plan, acts) && c < |Reached(plan, acts).calls| && i < plan.N()
    ensures var s := Reached(plan, acts);
      && s.calls[c].tasks[i] != Probing(true)
      && (s.calls[c].tasks[i] == Launching ==> s.probes[i].slot.None?)
      && (s.calls[c].tasks[i] == Admitted ==> s.probes[i].worker.status != Running)
  {
    SerialReached(plan, acts);
    var s := Reached(plan, acts);
    if Live(s.calls[c].tasks[i]) {
      TaskIsOwned(plan, s, c, i);
      assert SlotOk(plan.opts[i], Phase(s, i), s.probes[i], RunNo(s), Pending(s, i));
    }
  }

  /** A background reader that ends brings down its own process or none, never that of a later run. */
  lemma ReaderStopsItsOwn(plan: Plan, acts: seq<Action>, i: nat, proc: nat)
    requires SerialSchedule(plan, acts) && (i, proc) in Reached(plan, acts).readers
    ensures i < plan.N() && var p := Reached(plan, acts).probes[i]; p.slot == None || p.slot == Some(proc)
  {
    SerialReached(plan, acts);
    var s := Reached(plan, acts);
    assert SlotOk(plan.opts[i], Phase(s, i), s.probes[i], RunNo(s), Pending(s, i));
  }

  /** When the call accepted last has returned: the probes found alive are exactly the probes queued, each once; the
      drain has finished them in the order in which they were queued; nothing is left in the queue and no probe is
      alive any more. */
  lemma DrainConserves(plan: Plan, acts: seq<Action>)
    requires SerialSchedule(plan, acts)
    requires var s := Reached(plan, acts); s.current.Some? && s.calls[s.current.value].pc == Left
    ensures var s := Reached(plan, acts);
      && s.queue == [] && s.drained == s.queued && Distinct(s.queued)
      && (forall i: nat :: i in s.found <==> i in s.drained)
      && forall i | 0 <= i < plan.N() :: !IsAlive(plan.opts[i], s.probes[i])
  {
    SerialReached(plan, acts);
    var s := Reached(plan, acts);
    assert Owner(s) == None && InHand(s) == [];
    assert s.drained + [] + [] == s.drained;
    forall i: nat
      ensures i in s.found <==> i in s.queued
    {
      if i < plan.N() {
        assert Phase(s, i) == Gone && FoundOk(s, i, Phase(s, i));
      }
    }
    forall i | 0 <= i < plan.N()
      ensures !IsAlive(plan.opts[i], s.probes[i])
    {
      assert SlotOk(plan.opts[i], Phase(s, i), s.probes[i], RunNo(s), Pending(s, i));
    }
  }

  /** Serialized runs never replace a queue that holds a probe. */
  lemma NothingDropped(plan: Plan, acts: seq<Action>)
    requires SerialSchedule(plan, acts)
    ensures Reached(plan, acts).dropped == {}
  {
    SerialReached(plan, acts);
  }

  /** At every moment of a serialized run: what has been queued is what has been finished, the probe in hand and the
      queue, in that order, and a task is queued only after it was found alive in this run. */
  lemma QueueAtEveryMoment(plan: Plan, acts: seq<Action>)
    requires SerialSchedule(plan, acts)
    ensures var s := Reached(plan, acts);
      && s.queued == s.drained + InHand(s) + s.queue
      && Distinct(s.queued)
      && forall i | i in s.queued :: i in s.found
  {
    SerialReached(plan, acts);
    var s := Reached(plan, acts);
    forall i | i in s.queued
      ensures i in s.found
    {
      assert FoundOk(s, i, Phase(s, i));
    }
  }
}
