/** What every schedule of the run engine guarantees, whatever the interleaving and the number of calls. */
module EngineTheorems {
  import opened Records
  import opened Probe
  import opened Engine
  import opened EngineInvariant
  import opened EngineSteps

  // ----- order -----

  /** While a goroutine of task j is alive, every task of an earlier group has been started, probed, ended and
      checked in this very run, and no goroutine of any other call is alive. */
  lemma HappensBefore(plan: Plan, acts: seq<Action>, c: nat, i: nat, j: nat)
    requires Schedule(plan, acts)
    requires c < |Reached(plan, acts).calls| && i < plan.N() && j < plan.N()
    requires Live(Reached(plan, acts).calls[c].tasks[j]) && plan.groupOf[i] < plan.groupOf[j]
    ensures var s := Reached(plan, acts);
      && s.calls[c].tasks[i] == Gone
      && s.tasks[i].status == Finished
      && s.tasks[i].prev.runCounter == s.probes[i].last.runCounter == RunNo(s)
      && VerdictOf(s.verdicts, RunNo(s), i).Some?
      && forall d, t | 0 <= d < |s.calls| && 0 <= t < plan.N() && d != c :: !Live(s.calls[d].tasks[t])
  {
    ReachedInv(plan, acts);
    var s := Reached(plan, acts);
    TaskIsOwned(plan, s, c, j);
    TaskAtBarrier(plan, s, c, j);
    assert Staged(plan, s.calls[c].pc, i, s.calls[c].tasks[i]);
    CellHere(plan, s, c, i);
  }

  /** Nor has any task of a later group started by then. */
  lemma NotStartedYet(plan: Plan, acts: seq<Action>, c: nat, i: nat, j: nat)
    requires Schedule(plan, acts)
    requires c < |Reached(plan, acts).calls| && i < plan.N() && j < plan.N()
    requires Live(Reached(plan, acts).calls[c].tasks[i]) && plan.groupOf[i] < plan.groupOf[j]
    ensures Reached(plan, acts).calls[c].tasks[j] == NotSpawned
  {
    ReachedInv(plan, acts);
    var s := Reached(plan, acts);
    TaskIsOwned(plan, s, c, i);
    TaskAtBarrier(plan, s, c, i);
    assert Staged(plan, s.calls[c].pc, j, s.calls[c].tasks[j]);
  }

  /** No task starts while a goroutine of another group is pending: two goroutines that are alive together belong
      to one call and one group. */
  lemma AliveTogether(plan: Plan, acts: seq<Action>, c: nat, i: nat, d: nat, j: nat)
    requires Schedule(plan, acts)
    requires c < |Reached(plan, acts).calls| && d < |Reached(plan, acts).calls| && i < plan.N() && j < plan.N()
    requires Live(Reached(plan, acts).calls[c].tasks[i]) && Live(Reached(plan, acts).calls[d].tasks[j])
    ensures c == d && plan.groupOf[i] == plan.groupOf[j]
  {
    ReachedInv(plan, acts);
    var s := Reached(plan, acts);
    TaskIsOwned(plan, s, c, i);
    TaskIsOwned(plan, s, d, j);
    TaskAtBarrier(plan, s, c, i);
    TaskAtBarrier(plan, s, d, j);
  }

  // ----- exclusion -----

  lemma AtMostOneRun(plan: Plan, acts: seq<Action>, c: nat, d: nat)
    requires Schedule(plan, acts)
    requires c < |Reached(plan, acts).calls| && d < |Reached(plan, acts).calls|
    requires Active(Reached(plan, acts).calls[c].pc) && Active(Reached(plan, acts).calls[d].pc)
    ensures c == d && Reached(plan, acts).script.status == Running
  {
    ReachedInv(plan, acts);
  }

  /** A call is rejected exactly while another one is active, and then nothing but its own position changes. The queue
      that it may have created before is a step of its own. */
  lemma RejectedIsHarmless(plan: Plan, acts: seq<Action>, c: nat, now: int)
    requires Schedule(plan, acts)
    requires c < |Reached(plan, acts).calls| && Reached(plan, acts).calls[c].pc == Arrived
    ensures var s := Reached(plan, acts);
      var s' := Apply(plan, s, CallStep(c, now));
      && (s'.calls[c].pc == Rejected <==> exists d | 0 <= d < |s.calls| :: Active(s.calls[d].pc))
      && (s'.calls[c].pc == Rejected ==> s' == s.(calls := s.calls[c := s.calls[c].(pc := Rejected)]))
  {
    ReachedInv(plan, acts);
    var s := Reached(plan, acts);
    if s.script.status == Running {
      assert Active(s.calls[Owner(s).value].pc);
    }
  }

  /** The guards inside a run never reject: the group about to be entered and the task about to start are free. */
  lemma InnerGuardsAccept(plan: Plan, acts: seq<Action>, c: nat, i: nat)
    requires Schedule(plan, acts) && c < |Reached(plan, acts).calls| && i < plan.N()
    ensures var s := Reached(plan, acts);
      && (s.calls[c].pc.Entering? && s.calls[c].pc.k < plan.groups ==> s.groups[s.calls[c].pc.k].status != Running)
      && (s.calls[c].tasks[i] == Spawned ==> s.tasks[i].status != Running)
  {
    ReachedInv(plan, acts);
    var s := Reached(plan, acts);
    if s.calls[c].pc.Entering? && s.calls[c].pc.k < plan.groups {
      GroupAdmitted(plan, s, c);
    }
    if s.calls[c].tasks[i] == Spawned {
      TaskIsOwned(plan, s, c, i);
      CellHere(plan, s, c, i);
    }
  }

  // ----- counting -----

  predicate WasAccepted(c: Call) {
    c.pc != Creating && c.pc != Arrived && c.pc != Rejected
  }

  function Accepted(calls: seq<Call>): nat {
    if calls == [] then 0
    else Accepted(calls[..|calls| - 1]) + if WasAccepted(calls[|calls| - 1]) then 1 else 0
  }

  lemma {:induction false} AcceptedUpdate(calls: seq<Call>, c: nat, x: Call)
    requires c < |calls|
    ensures Accepted(calls[c := x]) ==
            Accepted(calls) + (if WasAccepted(x) then 1 else 0) - (if WasAccepted(calls[c]) then 1 else 0)
  {
    var last := |calls| - 1;
    if c == last {
      assert calls[c := x][..last] == calls[..last];
    } else {
      assert calls[c := x][..last] == calls[..last][c := x];
      AcceptedUpdate(calls[..last], c, x);
    }
  }

  ghost predicate CountsOn(s: State, s': State, c: nat) {
    && c < |s.calls| == |s'.calls| && s'.calls == s.calls[c := s'.calls[c]]
    && RunNo(s') - RunNo(s) == (if WasAccepted(s'.calls[c]) then 1 else 0) - (if WasAccepted(s.calls[c]) then 1 else 0)
  }

  lemma FirstCounts(plan: Plan, s: State, c: nat, now: int)
    requires Shape(plan, s) && c < |s.calls| && (s.calls[c].pc.Creating? || s.calls[c].pc.Arrived?)
    ensures CountsOn(s, ApplyFirst(plan, s, c, now), c)
  {
  }

  lemma GroupCounts(plan: Plan, s: State, c: nat, now: int)
    requires Shape(plan, s) && c < |s.calls|
    requires s.calls[c].pc.Entering? || s.calls[c].pc.Waiting? || s.calls[c].pc.Folding?
    ensures CountsOn(s, ApplyGroup(plan, s, c, now), c)
  {
  }

  lemma LastCounts(plan: Plan, s: State, c: nat, now: int)
    requires Shape(plan, s) && c < |s.calls|
    requires s.calls[c].pc.Judging? || s.calls[c].pc.Draining? || s.calls[c].pc.Finishing?
    ensures CountsOn(s, ApplyLast(plan, s, c, now), c)
  {
  }

  /** Only the accepted first step of a call adds to the count, and it starts a new run. */
  lemma AcceptedCall(plan: Plan, s: State, c: nat, now: int)
    requires Shape(plan, s) && c < |s.calls| && !Final(s.calls[c].pc)
    ensures var s' := ApplyCall(plan, s, c, now);
      Accepted(s'.calls) - RunNo(s') == Accepted(s.calls) - RunNo(s)
  {
    var pc := s.calls[c].pc;
    if pc.Creating? || pc.Arrived? {
      FirstCounts(plan, s, c, now);
    } else if pc.Entering? || pc.Waiting? || pc.Folding? {
      GroupCounts(plan, s, c, now);
    } else {
      LastCounts(plan, s, c, now);
    }
    AcceptedUpdate(s.calls, c, ApplyCall(plan, s, c, now).calls[c]);
  }

  lemma AcceptedTask(plan: Plan, s: State, c: nat, i: nat, e: Exit, now: int)
    requires Shape(plan, s) && c < |s.calls| && i < plan.N() && Live(s.calls[c].tasks[i])
    ensures var s' := ApplyTask(plan, s, c, i, e, now);
      Accepted(s'.calls) == Accepted(s.calls) && RunNo(s') == RunNo(s)
  {
    var s' := ApplyTask(plan, s, c, i, e, now);
    AcceptedUpdate(s.calls, c, s'.calls[c]);
    assert s'.calls == s.calls[c := s'.calls[c]];
  }

  lemma AcceptedStep(plan: Plan, s: State, a: Action)
    requires Inv(plan, s) && Enabled(plan, s, a) && Accepted(s.calls) == RunNo(s)
    ensures var s' := Apply(plan, s, a); Accepted(s'.calls) == RunNo(s')
  {
    match a
    case Arrive => assert Apply(plan, s, a).calls[..|s.calls|] == s.calls;
    case CallStep(c, now) => AcceptedCall(plan, s, c, now);
    case TaskStep(c, i, e, now) => AcceptedTask(plan, s, c, i, e, now);
    case _ =>
  }

  lemma {:induction false} AcceptedRuns(plan: Plan, s: State, acts: seq<Action>)
    requires Inv(plan, s) && Runs(plan, s, acts) && Accepted(s.calls) == RunNo(s)
    ensures Accepted(After(plan, s, acts).calls) == RunNo(After(plan, s, acts))
    decreases |acts|
  {
    if acts != [] {
      AcceptedStep(plan, s, acts[0]);
      StepInv(plan, s, acts[0]);
      AcceptedRuns(plan, Apply(plan, s, acts[0]), acts[1..]);
    }
  }

  /** Between runs every task and probe is at rest with the last run's verdict. */
  lemma AtRest(plan: Plan, s: State, i: nat)
    requires Inv(plan, s) && Owner(s) == None && i < plan.N()
    ensures Settled(s.tasks[i], s.probes[i], RunNo(s), VerdictOf(s.verdicts, RunNo(s), i))
  {
  }

  lemma GroupAtRest(plan: Plan, s: State, k: nat)
    requires Inv(plan, s) && Owner(s) == None && k < plan.groups
    ensures s.groups[k].cur.runCounter == s.groups[k].prev.runCounter == RunNo(s)
  {
  }

  /** All counters stand at n. */
  ghost predicate AllCount(plan: Plan, s: State, n: nat)
    requires Shape(plan, s)
  {
    && s.script.cur.runCounter == s.script.prev.runCounter == n
    && (forall k | 0 <= k < plan.groups :: s.groups[k].cur.runCounter == s.groups[k].prev.runCounter == n)
    && (forall i | 0 <= i < plan.N() ::
          && s.tasks[i].cur.runCounter == s.tasks[i].prev.runCounter == n
          && s.probes[i].cur.runCounter == s.probes[i].last.runCounter == n)
  }

  /** Whenever no call is active, the counters of the script, of every group, of every task and of every probe all
      equal the number of accepted calls: each accepted run has started each of them exactly once. */
  lemma CountersAgree(plan: Plan, acts: seq<Action>)
    requires Schedule(plan, acts)
    requires forall c | 0 <= c < |Reached(plan, acts).calls| :: !Active(Reached(plan, acts).calls[c].pc)
    ensures AllCount(plan, Reached(plan, acts), Accepted(Reached(plan, acts).calls))
  {
    ReachedInv(plan, acts);
    AcceptedIsRunNo(plan, acts);
    CountersAtRest(plan, Reached(plan, acts));
  }

  lemma AcceptedIsRunNo(plan: Plan, acts: seq<Action>)
    requires Schedule(plan, acts)
    ensures Accepted(Reached(plan, acts).calls) == RunNo(Reached(plan, acts))
  {
    InitInv(plan);
    AcceptedRuns(plan, Init(plan), acts);
  }

  lemma CountersAtRest(plan: Plan, s: State)
    requires Inv(plan, s) && forall c | 0 <= c < |s.calls| :: !Active(s.calls[c].pc)
    ensures AllCount(plan, s, RunNo(s))
  {
    assert Owner(s) == None;
    forall k | 0 <= k < plan.groups
      ensures s.groups[k].cur.runCounter == s.groups[k].prev.runCounter == RunNo(s)
    {
      GroupAtRest(plan, s, k);
    }
    forall i | 0 <= i < plan.N()
      ensures Settled(s.tasks[i], s.probes[i], RunNo(s), VerdictOf(s.verdicts, RunNo(s), i))
    {
      AtRest(plan, s, i);
    }
  }

  // ----- times -----

  /** What a step of call c at this time puts into the records of script and groups: the time of an accepted start, the
      time and the verdict of an end, and nothing otherwise. */
  ghost predicate TimesRecorded(plan: Plan, s: State, s': State, c: nat, now: int)
    requires Shape(plan, s) && Shape(plan, s') && c < |s.calls|
  {
    match s.calls[c].pc
    case Arrived => s.script.status != Running ==> s'.script.cur == Result(now, 0, false, RunNo(s) + 1)
    case Judging(j, acc) =>
      var begun := s.script.cur.startedAt;
      j == plan.N() ==> s'.script.cur == s'.script.prev == Result(begun, now - begun, acc, RunNo(s))
    case Entering(k) =>
      k < plan.groups ==> s'.groups[k].cur == Result(now, 0, false, s.groups[k].cur.runCounter + 1)
    case Folding(k, j, acc) =>
      var begun := s.groups[k].cur.startedAt;
      j == plan.N() ==>
        s'.groups[k].cur == s'.groups[k].prev == Result(begun, now - begun, acc, s.groups[k].cur.runCounter)
    case _ => s'.script == s.script && s'.groups == s.groups
  }

  /** The records of script and groups bear the times at which their runs were accepted and ended. */
  lemma RunTimes(plan: Plan, acts: seq<Action>, c: nat, now: int)
    requires Schedule(plan, acts) && Enabled(plan, Reached(plan, acts), CallStep(c, now))
    ensures var s := Reached(plan, acts); TimesRecorded(plan, s, ApplyCall(plan, s, c, now), c, now)
  {
    ReachedInv(plan, acts);
    var s := Reached(plan, acts);
    if Active(s.calls[c].pc) {
      ActiveOwns(plan, s, c);
      if s.calls[c].pc.Entering? && s.calls[c].pc.k < plan.groups {
        GroupAdmitted(plan, s, c);
      }
    }
  }

  // ----- verdicts -----

  lemma TaskReturns(plan: Plan, s: State, c: nat, j: nat, e: Exit, now: int, n: nat, i: nat)
    requires Inv(plan, s) && Enabled(plan, s, TaskStep(c, j, e, now)) && i < plan.N()
    requires VerdictOf(ApplyTask(plan, s, c, j, e, now).verdicts, n, i) != VerdictOf(s.verdicts, n, i)
    ensures n == RunNo(s) && VerdictOf(s.verdicts, n, i) == None && j == i && Owner(s) == Some(c)
    ensures s.calls[c].tasks[i].Probing?
    ensures var eff := ExitEffect(plan.opts[i], s.calls[c].tasks[i].busy, e);
      VerdictOf(ApplyTask(plan, s, c, j, e, now).verdicts, n, i) == Some(Verdict(eff.succ, eff.data))
  {
    TaskIsOwned(plan, s, c, j);
    TaskHistory(plan, s, c, j, e, now, n, i);
    CellHere(plan, s, c, i);
  }

  /** An entry of the history is written once, by the return of that task's runner in that run, and is what its way out
      must deliver: for a plain probe the verdict and the data that its runner returned. */
  lemma VerdictSource(plan: Plan, acts: seq<Action>, a: Action, n: nat, i: nat)
    requires Schedule(plan, acts) && Enabled(plan, Reached(plan, acts), a) && i < plan.N()
    requires var s := Reached(plan, acts);
      VerdictOf(Apply(plan, s, a).verdicts, n, i) != VerdictOf(s.verdicts, n, i)
    ensures var s := Reached(plan, acts);
      && n == RunNo(s) && VerdictOf(s.verdicts, n, i) == None
      && a.TaskStep? && a.i == i && Owner(s) == Some(a.c) && s.calls[a.c].tasks[i].Probing?
      && var v := VerdictOf(Apply(plan, s, a).verdicts, n, i);
         && v.Some? && Delivers(plan.opts[i], s.calls[a.c].tasks[i].busy, a.exit, v.value.succ, v.value.data)
         && (a.exit.Returned? && !s.calls[a.c].tasks[i].busy ==> v.value == Verdict(a.exit.succ, a.exit.data))
  {
    ReachedInv(plan, acts);
    var s := Reached(plan, acts);
    match a
    case TaskStep(c, j, e, now) =>
      TaskReturns(plan, s, c, j, e, now, n, i);
      ExitDelivers(plan.opts[i], s.calls[c].tasks[i], e);
    case _ => OthersKeepHistory(plan, s, a, n, i);
  }

  lemma OthersKeepHistory(plan: Plan, s: State, a: Action, n: nat, i: nat)
    requires Shape(plan, s) && Enabled(plan, s, a) && !a.TaskStep? && i < plan.N()
    ensures VerdictOf(Apply(plan, s, a).verdicts, n, i) == VerdictOf(s.verdicts, n, i)
  {
  }

  lemma ExitDelivers(o: Options, t: TaskPc, e: Exit)
    ensures t.Probing? ==> var eff := ExitEffect(o, t.busy, e); Delivers(o, t.busy, e, eff.succ, eff.data)
  {
  }

  /** A background reader comes from a runner that left its process running: a cmd that stays, or an openvpn client that
      is up and should stay. It waits for the process of that run. */
  lemma ReaderSource(plan: Plan, acts: seq<Action>, a: Action, b: (nat, nat))
    requires Schedule(plan, acts) && Enabled(plan, Reached(plan, acts), a)
    ensures var s, s' := Reached(plan, acts), Apply(plan, Reached(plan, acts), a);
      b in s'.readers && b !in s.readers <==>
        && a.TaskStep? && b == (a.i, RunNo(s)) && s.calls[a.c].tasks[a.i] == Probing(false)
        && (a.exit.StaysAlive? || (a.exit.Connected? && plan.opts[a.i].stayBackground))
  {
    ReachedInv(plan, acts);
    var s := Reached(plan, acts);
    match a
    case TaskStep(c, j, e, now) =>
      TaskIsOwned(plan, s, c, j);
      ReaderLeft(plan, s, c, j, e, now, b);
    case _ =>
  }

  lemma ReaderLeft(plan: Plan, s: State, c: nat, j: nat, e: Exit, now: int, b: (nat, nat))
    requires Shape(plan, s) && CellsOk(plan, s) && Owner(s) == Some(c) && Enabled(plan, s, TaskStep(c, j, e, now))
    requires ReadersOk(plan, s)
    ensures b in ApplyTask(plan, s, c, j, e, now).readers && b !in s.readers <==>
              && b == (j, RunNo(s)) && s.calls[c].tasks[j] == Probing(false)
              && (e.StaysAlive? || (e.Connected? && plan.opts[j].stayBackground))
  {
    CellHere(plan, s, c, j);
  }

  /** Between runs the recorded success of the script is the conjunction of the verdicts that its probes returned in
      the last run, and the finished record of every task and probe carries its own verdict (and data) of that run. */
  lemma VerdictsAgree(plan: Plan, acts: seq<Action>)
    requires Schedule(plan, acts)
    requires Reached(plan, acts).script.status == Finished
    ensures var s := Reached(plan, acts);
      var n := RunNo(s);
      && s.script.cur == s.script.prev && s.script.prev.runCounter == n >= 1
      && (forall i: nat | i < plan.N() ::
            var v := VerdictOf(s.verdicts, n, i);
            && v.Some?
            && s.tasks[i].prev.success == s.probes[i].last.success == v.value.succ
            && s.probes[i].data == v.value.data)
      && (s.script.prev.success <==> forall i: nat | i < plan.N() :: VerdictOf(s.verdicts, n, i).value.succ)
  {
    ReachedInv(plan, acts);
    var s := Reached(plan, acts);
    forall i: nat | i < plan.N()
      ensures Settled(s.tasks[i], s.probes[i], RunNo(s), VerdictOf(s.verdicts, RunNo(s), i))
    {
      AtRest(plan, s, i);
    }
  }

  /** The success a group records is not that of its own tasks: it mixes this run's verdicts of the groups up to it
      with the previous run's verdicts of the later ones. In the first run it is false unless no task comes later;
      for a group with no later task it is the script's verdict. */
  lemma GroupsRecord(plan: Plan, acts: seq<Action>, k: nat)
    requires Schedule(plan, acts) && k < plan.groups
    ensures var s := Reached(plan, acts);
      var g := s.groups[k].prev;
      && (g.runCounter > 0 ==> (g.success <==> GroupVerdict(plan, s.verdicts, g.runCounter, k)))
      && (g.runCounter == 1 && (exists i | 0 <= i < plan.N() :: plan.groupOf[i] > k) ==> !g.success)
      && (s.script.status == Finished && (forall i | 0 <= i < plan.N() :: plan.groupOf[i] <= k) ==>
            (g.success <==> s.script.prev.success))
  {
    ReachedInv(plan, acts);
    var s := Reached(plan, acts);
    var g := s.groups[k].prev;
    if g.runCounter == 1 && exists i | 0 <= i < plan.N() :: plan.groupOf[i] > k {
      var i: nat :| i < plan.N() && plan.groupOf[i] > k;
      assert VerdictOf(s.verdicts, 0, i) == None;
    }
    if s.script.status == Finished && forall i | 0 <= i < plan.N() :: plan.groupOf[i] <= k {
      assert g.runCounter == RunNo(s) >= 1;
      assert forall i: nat | i < plan.N() ::
        VerdictOf(s.verdicts, if plan.groupOf[i] <= k then g.runCounter else g.runCounter as int - 1, i) ==
        VerdictOf(s.verdicts, g.runCounter, i);
    }
  }

  // ----- snapshots -----

  /** However a read of finished results interleaves with running scripts, counters grow from script to task to probe,
      and each record carries what was returned in the run whose number it bears. */
  lemma SnapshotOrder(plan: Plan, acts: seq<Action>, r: nat, i: nat)
    requires Schedule(plan, acts) && r < |Reached(plan, acts).observers|
    requires i < |Reached(plan, acts).observers[r].probes|
    ensures var s := Reached(plan, acts);
      var v := s.observers[r];
      && i < |v.tasks| && i < plan.N()
      && v.script.runCounter <= v.tasks[i].runCounter <= v.probes[i].0.runCounter <= RunNo(s)
      && Carries(v.tasks[i], v.tasks[i].runCounter, VerdictOf(s.verdicts, v.tasks[i].runCounter, i))
      && Carries(v.probes[i].0, v.probes[i].0.runCounter, VerdictOf(s.verdicts, v.probes[i].0.runCounter, i))
      && (v.probes[i].0.runCounter > 0 ==>
            v.probes[i].1 == VerdictOf(s.verdicts, v.probes[i].0.runCounter, i).value.data)
  {
    ReachedInv(plan, acts);
    var s := Reached(plan, acts);
    assert SnapshotOk(plan, s, s.observers[r]);
    CountersDescend(plan, s, i);
  }

  /** A complete snapshot whose probe counters all equal the script's is the result of one run. */
  lemma EvenSnapshotIsOneRun(plan: Plan, acts: seq<Action>, r: nat)
    requires Schedule(plan, acts) && r < |Reached(plan, acts).observers|
    requires var v := Reached(plan, acts).observers[r];
      && |v.probes| == plan.N() && v.script.runCounter > 0
      && forall i | 0 <= i < |v.probes| :: v.probes[i].0.runCounter == v.script.runCounter
    ensures var v := Reached(plan, acts).observers[r];
      && |v.tasks| == plan.N()
      && (forall i | 0 <= i < plan.N() ::
            v.tasks[i].runCounter == v.script.runCounter && v.tasks[i].success == v.probes[i].0.success)
      && (v.script.success <==> forall i | 0 <= i < plan.N() :: v.tasks[i].success)
  {
    ReachedInv(plan, acts);
    var s := Reached(plan, acts);
    var v := s.observers[r];
    var n := v.script.runCounter;
    assert SnapshotOk(plan, s, v);
    forall i: nat | i < plan.N()
      ensures v.tasks[i].runCounter == n && v.tasks[i].success == v.probes[i].0.success
      ensures VerdictOf(s.verdicts, n, i).Some? && VerdictOf(s.verdicts, n, i).value.succ == v.tasks[i].success
    {
      SnapshotOrder(plan, acts, r, i);
    }
  }
}
