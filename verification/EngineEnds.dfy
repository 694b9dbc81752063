/** Every schedule of the run engine ends, and no call is ever stuck: the barrier and the drain cannot deadlock.
    The assumption that a started runner comes back is built into the step system, where the return of a runner
    is always an enabled step. */
module EngineEnds {
  import opened Records
  import opened Probe
  import opened Engine
  import opened EngineInvariant
  import EngineSteps

  // ----- one measure over goroutine phases, groups, queue, readers and observers -----

  function TaskRank(t: TaskPc): nat {
    match t
    case NotSpawned => 14
    case Spawned => 13
    case Admitted => 12
    case Preparing => 11
    case Launching => 10
    case Probing(_) => 9
    case Settling(_, _, _) => 7
    case Recording(_, _) => 6
    case Ending(_) => 5
    case Checking => 4
    case Queueing => 3
    case Gone => 0
  }

  /** What `g` groups still cost, with `n` tasks to fold over in each. */
  function GroupsRank(g: nat, n: nat): nat {
    if g == 0 then 0 else GroupsRank(g - 1, n) + n + 4
  }

  function CallRank(plan: Plan, pc: CallPc): nat {
    var n := plan.N();
    match pc
    case Creating => n + 7 + GroupsRank(plan.groups, n)
    case Arrived => n + 6 + GroupsRank(plan.groups, n)
    case Rejected => 0
    case Entering(k) => n + 5 + GroupsRank(if k <= plan.groups then plan.groups - k else 0, n)
    case Waiting(k) => n + 5 + GroupsRank(if k < plan.groups then plan.groups - k - 1 else 0, n) + n + 3
    case Folding(k, j, _) =>
      n + 5 + GroupsRank(if k < plan.groups then plan.groups - k - 1 else 0, n) + 1 + (if j <= n then n - j else 0)
    case Judging(j, _) => 3 + (if j <= n then n - j else 0)
    case Draining => 1
    case Finishing(_) => 2
    case Left => 0
  }

  function TasksRank(ts: seq<TaskPc>): nat {
    if ts == [] then 0 else TasksRank(ts[..|ts| - 1]) + TaskRank(ts[|ts| - 1])
  }

  function CallsRank(plan: Plan, cs: seq<Call>): nat {
    if cs == [] then 0
    else
      var c := cs[|cs| - 1];
      CallsRank(plan, cs[..|cs| - 1]) + CallRank(plan, c.pc) + TasksRank(c.tasks)
  }

  function ReadsLeft(n: nat, v: Snapshot): nat {
    var done := |v.tasks| + |v.probes|;
    if done <= 2 * n then 2 * n - done else 0
  }

  function ObserversRank(n: nat, vs: seq<Snapshot>): nat {
    if vs == [] then 0 else ObserversRank(n, vs[..|vs| - 1]) + ReadsLeft(n, vs[|vs| - 1])
  }

  function Measure(plan: Plan, s: State): nat {
    CallsRank(plan, s.calls) + 2 * |s.queue| + |s.readers| + ObserversRank(plan.N(), s.observers)
  }

  lemma {:induction false} TasksRankUpdate(ts: seq<TaskPc>, i: nat, x: TaskPc)
    requires i < |ts|
    ensures TasksRank(ts[i := x]) == TasksRank(ts) + TaskRank(x) - TaskRank(ts[i])
  {
    var last := |ts| - 1;
    if i == last {
      assert ts[i := x][..last] == ts[..last];
    } else {
      assert ts[i := x][..last] == ts[..last][i := x];
      TasksRankUpdate(ts[..last], i, x);
    }
  }

  lemma {:induction false} TasksRankFalls(ts: seq<TaskPc>, ts': seq<TaskPc>)
    requires |ts| == |ts'|
    requires forall i | 0 <= i < |ts| :: TaskRank(ts'[i]) <= TaskRank(ts[i])
    ensures TasksRank(ts') <= TasksRank(ts)
  {
    if ts != [] {
      TasksRankFalls(ts[..|ts| - 1], ts'[..|ts| - 1]);
    }
  }

  lemma {:induction false} CallsRankUpdate(plan: Plan, cs: seq<Call>, c: nat, x: Call)
    requires c < |cs|
    ensures CallsRank(plan, cs[c := x]) ==
            CallsRank(plan, cs) + CallRank(plan, x.pc) + TasksRank(x.tasks)
            - CallRank(plan, cs[c].pc) - TasksRank(cs[c].tasks)
  {
    var last := |cs| - 1;
    if c == last {
      assert cs[c := x][..last] == cs[..last];
    } else {
      assert cs[c := x][..last] == cs[..last][c := x];
      CallsRankUpdate(plan, cs[..last], c, x);
    }
  }

  lemma {:induction false} ObserversRankUpdate(n: nat, vs: seq<Snapshot>, r: nat, x: Snapshot)
    requires r < |vs|
    ensures ObserversRank(n, vs[r := x]) == ObserversRank(n, vs) + ReadsLeft(n, x) - ReadsLeft(n, vs[r])
  {
    var last := |vs| - 1;
    if r == last {
      assert vs[r := x][..last] == vs[..last];
    } else {
      assert vs[r := x][..last] == vs[..last][r := x];
      ObserversRankUpdate(n, vs[..last], r, x);
    }
  }

  // ----- every step but a new arrival makes the measure fall -----

  predicate Newcomer(a: Action) {
    a.Arrive? || a.Observe?
  }

  lemma TasksFall(plan: Plan, s: State, c: nat, now: int)
    requires Inv(plan, s) && Enabled(plan, s, CallStep(c, now))
    ensures TasksRank(ApplyCall(plan, s, c, now).calls[c].tasks) <= TasksRank(s.calls[c].tasks)
  {
    var s' := ApplyCall(plan, s, c, now);
    if s.calls[c].pc.Entering? {
      forall i | 0 <= i < plan.N()
        ensures TaskRank(s'.calls[c].tasks[i]) <= TaskRank(s.calls[c].tasks[i])
      {
        assert Owner(s) == Some(c);
        assert Staged(plan, s.calls[c].pc, i, s.calls[c].tasks[i]);
      }
      TasksRankFalls(s.calls[c].tasks, s'.calls[c].tasks);
    }
  }

  lemma GroupPcFalls(plan: Plan, s: State, c: nat, now: int)
    requires Shape(plan, s) && c < |s.calls|
    requires s.calls[c].pc.Entering? || s.calls[c].pc.Waiting? || s.calls[c].pc.Folding?
    ensures var s' := ApplyCall(plan, s, c, now);
      CallRank(plan, s'.calls[c].pc) < CallRank(plan, s.calls[c].pc) && s'.queue == s.queue
  {
  }

  lemma FirstPcFalls(plan: Plan, s: State, c: nat, now: int)
    requires Shape(plan, s) && c < |s.calls| && (s.calls[c].pc.Creating? || s.calls[c].pc.Arrived?)
    ensures var s' := ApplyFirst(plan, s, c, now);
      CallRank(plan, s'.calls[c].pc) < CallRank(plan, s.calls[c].pc) && |s'.queue| <= |s.queue|
  {
  }

  lemma LastPcFalls(plan: Plan, s: State, c: nat, now: int)
    requires Shape(plan, s) && c < |s.calls|
    requires s.calls[c].pc.Judging? || s.calls[c].pc.Draining? || s.calls[c].pc.Finishing?
    ensures var s' := ApplyLast(plan, s, c, now);
      CallRank(plan, s'.calls[c].pc) + 2 * |s'.queue| < CallRank(plan, s.calls[c].pc) + 2 * |s.queue|
  {
  }

  lemma OtherPcFalls(plan: Plan, s: State, c: nat, now: int)
    requires Shape(plan, s) && c < |s.calls| && !Final(s.calls[c].pc)
    requires !s.calls[c].pc.Entering? && !s.calls[c].pc.Waiting? && !s.calls[c].pc.Folding?
    ensures var s' := ApplyCall(plan, s, c, now);
      CallRank(plan, s'.calls[c].pc) + 2 * |s'.queue| < CallRank(plan, s.calls[c].pc) + 2 * |s.queue|
  {
    if s.calls[c].pc.Creating? || s.calls[c].pc.Arrived? {
      FirstPcFalls(plan, s, c, now);
    } else {
      LastPcFalls(plan, s, c, now);
    }
  }

  lemma CallPcFalls(plan: Plan, s: State, c: nat, now: int)
    requires Shape(plan, s) && c < |s.calls| && !Final(s.calls[c].pc)
    ensures var s' := ApplyCall(plan, s, c, now);
      && CallRank(plan, s'.calls[c].pc) + 2 * |s'.queue| < CallRank(plan, s.calls[c].pc) + 2 * |s.queue|
      && s'.calls == s.calls[c := s'.calls[c]] && s'.readers == s.readers && s'.observers == s.observers
  {
    if s.calls[c].pc.Entering? || s.calls[c].pc.Waiting? || s.calls[c].pc.Folding? {
      GroupPcFalls(plan, s, c, now);
    } else {
      OtherPcFalls(plan, s, c, now);
    }
  }

  lemma CallFalls(plan: Plan, s: State, c: nat, now: int)
    requires Inv(plan, s) && Enabled(plan, s, CallStep(c, now))
    ensures Measure(plan, ApplyCall(plan, s, c, now)) < Measure(plan, s)
  {
    CallPcFalls(plan, s, c, now);
    TasksFall(plan, s, c, now);
    CallsRankUpdate(plan, s.calls, c, ApplyCall(plan, s, c, now).calls[c]);
  }

  /** One goroutine step costs at least what it can add to the queue and to the background readers. */
  lemma CellFalls(o: Options, c: Cell, e: Exit, now: int)
    requires Live(c.pc)
    ensures TaskRank(CellStep(o, c, e, now).pc)
          + (if c.pc.Queueing? then 2 else 0) + (if c.pc.Probing? then 1 else 0) < TaskRank(c.pc)
  {
  }

  lemma TaskAdds(plan: Plan, s: State, c: nat, i: nat, e: Exit, now: int)
    requires Shape(plan, s) && c < |s.calls| && i < plan.N() && Live(s.calls[c].tasks[i])
    ensures var s' := ApplyTask(plan, s, c, i, e, now);
      && s'.calls ==
         s.calls[c := s.calls[c].(tasks := s.calls[c].tasks[i := CellStep(plan.opts[i], CellOf(s, c, i), e, now).pc])]
      && |s'.queue| == |s.queue| + (if s.calls[c].tasks[i].Queueing? then 1 else 0)
      && |s'.readers| <= |s.readers| + (if s.calls[c].tasks[i].Probing? then 1 else 0)
      && s'.observers == s.observers
  {
  }

  lemma TaskFalls(plan: Plan, s: State, c: nat, i: nat, e: Exit, now: int)
    requires Shape(plan, s) && c < |s.calls| && i < plan.N() && Live(s.calls[c].tasks[i])
    ensures Measure(plan, ApplyTask(plan, s, c, i, e, now)) < Measure(plan, s)
  {
    var x := CellStep(plan.opts[i], CellOf(s, c, i), e, now).pc;
    TaskAdds(plan, s, c, i, e, now);
    CellFalls(plan.opts[i], CellOf(s, c, i), e, now);
    TasksRankUpdate(s.calls[c].tasks, i, x);
    CallsRankUpdate(plan, s.calls, c, s.calls[c].(tasks := s.calls[c].tasks[i := x]));
  }

  lemma StepFalls(plan: Plan, s: State, a: Action)
    requires Inv(plan, s) && Enabled(plan, s, a) && !Newcomer(a)
    ensures Measure(plan, Apply(plan, s, a)) < Measure(plan, s)
  {
    match a
    case CallStep(c, now) => CallFalls(plan, s, c, now);
    case TaskStep(c, i, e, now) => TaskFalls(plan, s, c, i, e, now);
    case ReaderEnds(i, proc, now) =>
    case ObserveMore(r) => ObserversRankUpdate(plan.N(), s.observers, r, ApplyObserveMore(s, r).observers[r]);
  }

  lemma {:induction false} RunsFall(plan: Plan, s: State, acts: seq<Action>)
    requires Inv(plan, s) && Runs(plan, s, acts)
    requires forall t | 0 <= t < |acts| :: !Newcomer(acts[t])
    ensures |acts| + Measure(plan, After(plan, s, acts)) <= Measure(plan, s)
    decreases |acts|
  {
    if acts != [] {
      StepFalls(plan, s, acts[0]);
      EngineSteps.StepInv(plan, s, acts[0]);
      RunsFall(plan, Apply(plan, s, acts[0]), acts[1..]);
    }
  }

  /** From any reached state, every further schedule without new arrivals is no longer than the measure. */
  lemma EveryScheduleEnds(plan: Plan, acts: seq<Action>, more: seq<Action>)
    requires Schedule(plan, acts) && Runs(plan, Reached(plan, acts), more)
    requires forall t | 0 <= t < |more| :: !Newcomer(more[t])
    ensures |more| <= Measure(plan, Reached(plan, acts))
  {
    EngineSteps.ReachedInv(plan, acts);
    RunsFall(plan, Reached(plan, acts), more);
  }

  // ----- and while a call has not returned there is a step to take -----

  /** The step that the call, or a goroutine it waits for, can take. */
  lemma NextStep(plan: Plan, s: State, c: nat) returns (a: Action)
    requires Shape(plan, s) && c < |s.calls| && !Final(s.calls[c].pc)
    requires s.calls[c].pc.Waiting? ==> forall i | 0 <= i < plan.N() ::
      plan.groupOf[i] == s.calls[c].pc.k ==> s.calls[c].tasks[i] != NotSpawned
    ensures Enabled(plan, s, a) && !Newcomer(a)
    ensures a == CallStep(c, 0)
            || (a.TaskStep? && a.c == c && s.calls[c].pc.Waiting? && plan.groupOf[a.i] == s.calls[c].pc.k)
  {
    var pc := s.calls[c].pc;
    if pc.Waiting? && !Released(plan, pc.k, s.calls[c].tasks) {
      var i: nat :| i < plan.N() && plan.groupOf[i] == pc.k && s.calls[c].tasks[i] != Gone;
      a := TaskStep(c, i, Panicked, 0);
    } else {
      a := CallStep(c, 0);
    }
  }

  /** At a barrier every goroutine of the group has been created. */
  lemma BarrierSpawned(plan: Plan, s: State, c: nat)
    requires Inv(plan, s) && c < |s.calls|
    ensures s.calls[c].pc.Waiting? ==> forall i | 0 <= i < plan.N() ::
      plan.groupOf[i] == s.calls[c].pc.k ==> s.calls[c].tasks[i] != NotSpawned
  {
    if s.calls[c].pc.Waiting? {
      assert Owner(s) == Some(c);
      forall i | 0 <= i < plan.N() && plan.groupOf[i] == s.calls[c].pc.k
        ensures s.calls[c].tasks[i] != NotSpawned
      {
        assert Staged(plan, s.calls[c].pc, i, s.calls[c].tasks[i]);
      }
    }
  }

  /** No call is stuck: as long as one has neither returned nor been rejected, it or a goroutine of the group it
      waits for can step. */
  lemma NoDeadlock(plan: Plan, acts: seq<Action>, c: nat)
    requires Schedule(plan, acts)
    requires c < |Reached(plan, acts).calls| && !Final(Reached(plan, acts).calls[c].pc)
    ensures exists a: Action ::
              Enabled(plan, Reached(plan, acts), a) && !Newcomer(a)
              && (a == CallStep(c, 0) || (a.TaskStep? && a.c == c))
  {
    EngineSteps.ReachedInv(plan, acts);
    var s := Reached(plan, acts);
    BarrierSpawned(plan, s, c);
    var a := NextStep(plan, s, c);
  }

  // ----- what is left when nothing can step -----

  /** Every call has returned and no background reader is left. */
  ghost predicate AllOver(s: State) {
    (forall c | 0 <= c < |s.calls| :: Final(s.calls[c].pc)) && s.readers == {}
  }

  /** As long as the queue holds a probe, some call is still going to look at it. */
  ghost predicate QueueServed(s: State) {
    s.queue != [] ==> exists c :: 0 <= c < |s.calls| && Serving(s.calls[c].pc)
  }

  lemma ServedCall(plan: Plan, s: State, c: nat, now: int)
    requires Shape(plan, s) && Enabled(plan, s, CallStep(c, now)) && QueueServed(s)
    ensures QueueServed(ApplyCall(plan, s, c, now))
  {
    var s' := ApplyCall(plan, s, c, now);
    if s'.queue != [] {
      if Serving(s.calls[c].pc) {
        assert Serving(s'.calls[c].pc);
      } else {
        var d :| 0 <= d < |s.calls| && Serving(s.calls[d].pc);
        assert s'.calls[d] == s.calls[d];
      }
    }
  }

  lemma ServedTask(plan: Plan, s: State, c: nat, i: nat, e: Exit, now: int)
    requires Shape(plan, s) && Owner(s) == Some(c) && i < plan.N() && Live(s.calls[c].tasks[i])
    ensures QueueServed(ApplyTask(plan, s, c, i, e, now))
  {
    var s' := ApplyTask(plan, s, c, i, e, now);
    assert s'.calls[c].pc == s.calls[c].pc;
  }

  lemma ServedStep(plan: Plan, s: State, a: Action)
    requires Inv(plan, s) && Enabled(plan, s, a) && QueueServed(s)
    ensures QueueServed(Apply(plan, s, a))
  {
    match a
    case CallStep(c, now) => ServedCall(plan, s, c, now);
    case TaskStep(c, i, e, now) =>
      EngineSteps.TaskIsOwned(plan, s, c, i);
      ServedTask(plan, s, c, i, e, now);
    case Arrive =>
      if s.queue != [] {
        var d :| 0 <= d < |s.calls| && Serving(s.calls[d].pc);
        assert Apply(plan, s, a).calls[d] == s.calls[d];
      }
    case _ =>
  }

  lemma {:induction false} ServedRuns(plan: Plan, s: State, acts: seq<Action>)
    requires Inv(plan, s) && Runs(plan, s, acts) && QueueServed(s)
    ensures QueueServed(After(plan, s, acts))
    decreases |acts|
  {
    if acts != [] {
      ServedStep(plan, s, acts[0]);
      EngineSteps.StepInv(plan, s, acts[0]);
      ServedRuns(plan, Apply(plan, s, acts[0]), acts[1..]);
    }
  }

  lemma AlwaysServed(plan: Plan, acts: seq<Action>)
    requires Schedule(plan, acts)
    ensures QueueServed(Reached(plan, acts))
  {
    InitInv(plan);
    ServedRuns(plan, Init(plan), acts);
  }

  /** A schedule that cannot be continued without new arrivals has brought every call to its end: every accepted run
      is recorded, the queue is empty and no background reader is pending. */
  lemma StoppedMeansDone(plan: Plan, acts: seq<Action>)
    requires Schedule(plan, acts)
    requires forall a: Action :: Enabled(plan, Reached(plan, acts), a) ==> Newcomer(a)
    ensures var s := Reached(plan, acts);
      && AllOver(s) && s.queue == []
      && s.script.status != Running && s.script.cur.runCounter == s.script.prev.runCounter
  {
    EngineSteps.ReachedInv(plan, acts);
    AlwaysServed(plan, acts);
    var s := Reached(plan, acts);
    forall c | 0 <= c < |s.calls|
      ensures Final(s.calls[c].pc)
    {
      if !Final(s.calls[c].pc) {
        NoDeadlock(plan, acts, c);
      }
    }
    if s.readers != {} {
      var b :| b in s.readers;
      assert Enabled(plan, s, ReaderEnds(b.0, b.1, 0));
    }
  }
}
