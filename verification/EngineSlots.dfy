/** Who answers for a probe that is alive, in every schedule, overlapping calls included: its goroutine, the queue, a
    drain that holds it, or a queue that was replaced and that nobody will drain. */
module EngineSlots {
  import opened Probe
  import opened Engine
  import opened EngineInvariant
  import EngineSteps
  import EngineEnds
  import EngineTheorems

  /** Goroutine positions at which the goroutine itself will still look after a living probe. */
  predicate LooksAfter(o: Options, t: TaskPc) {
    match t
    case NotSpawned => false
    case Spawned => false
    case Admitted => false
    case Preparing => !Slotted(o)
    case Launching => !Slotted(o)
    case Gone => false
    case _ => true
  }

  ghost predicate Keeps(plan: Plan, s: State, c: nat, i: nat)
    requires Shape(plan, s) && i < plan.N()
  {
    c < |s.calls| && (s.calls[c].pc == Finishing(i) || LooksAfter(plan.opts[i], s.calls[c].tasks[i]))
  }

  ghost predicate Held(plan: Plan, s: State, i: nat)
    requires Shape(plan, s) && i < plan.N()
  {
    i in s.queue || i in s.dropped || exists c :: Keeps(plan, s, c, i)
  }

  ghost predicate AliveHeld(plan: Plan, s: State)
    requires Shape(plan, s)
  {
    forall i | 0 <= i < plan.N() :: IsAlive(plan.opts[i], s.probes[i]) ==> Held(plan, s, i)
  }

  lemma CellHeld(o: Options, c: Cell, e: Exit, now: int)
    requires Live(c.pc) && IsAlive(o, CellStep(o, c, e, now).probe)
    ensures LooksAfter(o, CellStep(o, c, e, now).pc) || c.pc == Queueing
            || (IsAlive(o, c.probe) && !LooksAfter(o, c.pc) && !c.pc.Queueing?)
  {
  }

  lemma TaskHolds(plan: Plan, s: State, c: nat, i: nat, e: Exit, now: int, j: nat)
    requires Shape(plan, s) && AliveHeld(plan, s) && c < |s.calls| && i < plan.N() && Live(s.calls[c].tasks[i])
    requires j < plan.N() && IsAlive(plan.opts[j], ApplyTask(plan, s, c, i, e, now).probes[j])
    ensures Held(plan, ApplyTask(plan, s, c, i, e, now), j)
  {
    var s' := ApplyTask(plan, s, c, i, e, now);
    if j == i {
      CellHeld(plan.opts[i], CellOf(s, c, i), e, now);
      if LooksAfter(plan.opts[i], s'.calls[c].tasks[i]) {
        assert Keeps(plan, s', c, i);
        return;
      }
    }
    if s.calls[c].tasks[i].Queueing? && j == i {
      assert s'.queue[|s.queue|] == i;
    } else if j in s.queue {
      var q :| 0 <= q < |s.queue| && s.queue[q] == j;
      assert s'.queue[q] == j;
    } else if j !in s.dropped {
      var d: nat :| Keeps(plan, s, d, j);
      assert Keeps(plan, s', d, j);
    }
  }

  /** A call that can step has no goroutine that looks after anything, and what it held in its hand it finishes. */
  lemma NotByStepper(plan: Plan, s: State, c: nat, now: int, j: nat)
    requires Inv(plan, s) && Enabled(plan, s, CallStep(c, now)) && j < plan.N()
    requires IsAlive(plan.opts[j], ApplyCall(plan, s, c, now).probes[j])
    ensures !Keeps(plan, s, c, j)
  {
    FinishTwice(plan.opts[j], s.probes[j], now, now);
    if LooksAfter(plan.opts[j], s.calls[c].tasks[j]) {
      EngineSteps.TaskIsOwned(plan, s, c, j);
      EngineSteps.TaskAtBarrier(plan, s, c, j);
    }
  }

  lemma CallKeepsProbe(plan: Plan, s: State, c: nat, now: int, j: nat)
    requires Shape(plan, s) && Enabled(plan, s, CallStep(c, now)) && j < plan.N()
    requires IsAlive(plan.opts[j], ApplyCall(plan, s, c, now).probes[j])
    ensures IsAlive(plan.opts[j], s.probes[j])
    ensures forall d: nat | d != c && Keeps(plan, s, d, j) :: Keeps(plan, ApplyCall(plan, s, c, now), d, j)
    ensures s.dropped <= ApplyCall(plan, s, c, now).dropped
  {
  }

  /** A step of a call moves probes from the queue to its hand, or to the queues that are gone, and finishes what it
      holds. */
  lemma CallHolds(plan: Plan, s: State, c: nat, now: int, j: nat)
    requires Inv(plan, s) && AliveHeld(plan, s) && Enabled(plan, s, CallStep(c, now))
    requires j < plan.N() && IsAlive(plan.opts[j], ApplyCall(plan, s, c, now).probes[j])
    ensures Held(plan, ApplyCall(plan, s, c, now), j)
  {
    CallKeepsProbe(plan, s, c, now, j);
    NotByStepper(plan, s, c, now, j);
    if j in s.queue {
      QueueMoves(plan, s, c, now, j);
    }
  }

  lemma QueueMoves(plan: Plan, s: State, c: nat, now: int, j: nat)
    requires Shape(plan, s) && Enabled(plan, s, CallStep(c, now)) && j < plan.N() && j in s.queue
    ensures Held(plan, ApplyCall(plan, s, c, now), j)
  {
    var s' := ApplyCall(plan, s, c, now);
    if s.calls[c].pc.Draining? {
      if s.queue[0] == j {
        assert Keeps(plan, s', c, j);
      } else {
        var q :| 0 <= q < |s.queue| && s.queue[q] == j;
        assert s'.queue[q - 1] == j;
      }
    }
  }

  lemma StepHolds(plan: Plan, s: State, a: Action)
    requires Inv(plan, s) && AliveHeld(plan, s) && Enabled(plan, s, a)
    ensures AliveHeld(plan, Apply(plan, s, a))
  {
    var s' := Apply(plan, s, a);
    forall j: nat | j < plan.N() && IsAlive(plan.opts[j], s'.probes[j])
      ensures Held(plan, s', j)
    {
      match a {
        case CallStep(c, now) => CallHolds(plan, s, c, now, j);
        case TaskStep(c, i, e, now) => TaskHolds(plan, s, c, i, e, now, j);
        case _ => QuietHolds(plan, s, a, j);
      }
    }
  }

  /** Arrivals, observers and background readers: a reader finishes its probe, the others leave everything in place. */
  lemma QuietHolds(plan: Plan, s: State, a: Action, j: nat)
    requires Shape(plan, s) && AliveHeld(plan, s) && Enabled(plan, s, a) && !a.CallStep? && !a.TaskStep?
    requires j < plan.N() && IsAlive(plan.opts[j], Apply(plan, s, a).probes[j])
    ensures Held(plan, Apply(plan, s, a), j)
  {
    if j !in s.queue && j !in s.dropped {
      var d: nat :| Keeps(plan, s, d, j);
      assert Keeps(plan, Apply(plan, s, a), d, j);
    }
  }

  lemma {:induction false} RunsHold(plan: Plan, s: State, acts: seq<Action>)
    requires Inv(plan, s) && AliveHeld(plan, s) && Runs(plan, s, acts)
    ensures AliveHeld(plan, After(plan, s, acts))
    decreases |acts|
  {
    if acts != [] {
      StepHolds(plan, s, acts[0]);
      EngineSteps.StepInv(plan, s, acts[0]);
      RunsHold(plan, Apply(plan, s, acts[0]), acts[1..]);
    }
  }

  lemma AlwaysHeld(plan: Plan, acts: seq<Action>)
    requires Schedule(plan, acts)
    ensures AliveHeld(plan, Reached(plan, acts))
  {
    InitInv(plan);
    RunsHold(plan, Init(plan), acts);
  }

  // ----- what that means -----

  /** In every schedule: a runner that finds its slot taken finds a process whose probe is still queued, or in the hand
      of a drain, or was lost with a queue that a late first call replaced. */
  lemma TakenMeansHeld(plan: Plan, acts: seq<Action>, c: nat, i: nat)
    requires Schedule(plan, acts) && c < |Reached(plan, acts).calls| && i < plan.N()
    requires Reached(plan, acts).calls[c].tasks[i] == Launching && Busy(plan.opts[i], Reached(plan, acts).probes[i])
    ensures var s := Reached(plan, acts);
      i in s.queue || i in s.dropped || exists d :: 0 <= d < |s.calls| && s.calls[d].pc == Finishing(i)
  {
    AlwaysHeld(plan, acts);
    var s := Reached(plan, acts);
    if i !in s.queue && i !in s.dropped {
      var d: nat :| Keeps(plan, s, d, i);
      if LooksAfter(plan.opts[i], s.calls[d].tasks[i]) {
        EngineTheorems.AliveTogether(plan, acts, c, i, d, i);
      }
    }
  }

  /** When every call has returned, the only probes still alive are those lost with a replaced queue. */
  lemma OnlyDroppedStayAlive(plan: Plan, s: State, i: nat)
    requires Inv(plan, s) && AliveHeld(plan, s) && EngineEnds.QueueServed(s) && EngineEnds.AllOver(s)
    requires i < plan.N() && IsAlive(plan.opts[i], s.probes[i])
    ensures i in s.dropped
  {
    if d: nat :| Keeps(plan, s, d, i) {
      if LooksAfter(plan.opts[i], s.calls[d].tasks[i]) {
        EngineSteps.TaskIsOwned(plan, s, d, i);
      }
    }
  }
}
