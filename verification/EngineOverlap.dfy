/** What an earlier run that is not quite over does to the next one: when exactly a runner can find its slot taken.
    Calls may overlap in any way; the condition is read when the new run is accepted. */
module EngineOverlap {
  import opened Records
  import opened Probe
  import opened Engine
  import opened EngineInvariant
  import opened EngineDriver
  import EngineSteps
  import EngineEnds

  /** Call c is accepted in s, and t is a state that may follow, whatever else happens. */
  ghost predicate Follows(plan: Plan, s: State, c: nat, t: State)
    requires Shape(plan, s)
  {
    exists now: int :: Enabled(plan, s, CallStep(c, now)) && Continues(plan, Apply(plan, s, CallStep(c, now)), t)
  }

  lemma FollowsBy(plan: Plan, s: State, c: nat, now: int, t: State, u: State)
    requires Shape(plan, s) && Enabled(plan, s, CallStep(c, now)) && t == ApplyCall(plan, s, c, now)
    requires Leads(plan, t, u)
    ensures Follows(plan, s, c, u)
  {
    assert Continues(plan, Apply(plan, s, CallStep(c, now)), u);
  }

  lemma FollowsFrom(plan: Plan, s: State, c: nat, u: State) returns (t: State, more: seq<Action>, now: int)
    requires Shape(plan, s) && Follows(plan, s, c, u)
    ensures Enabled(plan, s, CallStep(c, now)) && t == ApplyCall(plan, s, c, now)
    ensures Shape(plan, t) && Runs(plan, t, more) && After(plan, t, more) == u
  {
    now :| Enabled(plan, s, CallStep(c, now)) && Continues(plan, Apply(plan, s, CallStep(c, now)), u);
    t := ApplyCall(plan, s, c, now);
    more :| Runs(plan, t, more) && After(plan, t, more) == u;
  }

  // ----- a taken slot -----

  /** A goroutine that has gone is gone for good. */
  lemma GoneStays(plan: Plan, s: State, a: Action, c: nat, i: nat)
    requires Inv(plan, s) && Enabled(plan, s, a) && c < |s.calls| && i < plan.N() && s.calls[c].tasks[i] == Gone
    ensures c < |Apply(plan, s, a).calls| && Apply(plan, s, a).calls[c].tasks[i] == Gone
  {
    match a
    case CallStep(d, now) =>
      if d == c {
        GoneInCall(plan, s, c, now, i);
      } else {
        EngineEnds.CallPcFalls(plan, s, d, now);
      }
    case TaskStep(d, j, e, now) =>
      EngineEnds.TaskAdds(plan, s, d, j, e, now);
    case _ =>
  }

  lemma GoneInCall(plan: Plan, s: State, c: nat, now: int, i: nat)
    requires Inv(plan, s) && Enabled(plan, s, CallStep(c, now)) && i < plan.N() && s.calls[c].tasks[i] == Gone
    ensures ApplyCall(plan, s, c, now).calls[c].tasks[i] == Gone
  {
    if s.calls[c].pc.Entering? {
      assert Staged(plan, s.calls[c].pc, i, s.calls[c].tasks[i]);
    }
  }

  /** As long as the goroutine has not come to its runner the slot stays empty. */
  predicate Free(t: TaskPc, p: ProbeState) {
    t != Probing(true) && (Ahead(t) ==> p.slot.None?)
  }

  ghost predicate StaysFree(plan: Plan, s: State, c: nat, i: nat)
    requires Shape(plan, s)
  {
    c < |s.calls| && i < plan.N() &&
    (s.calls[c].tasks[i] == Gone || (Owner(s) == Some(c) && Free(s.calls[c].tasks[i], s.probes[i])))
  }

  /** The call itself moves: it gives up the run only when all its goroutines are gone. */
  lemma FreeOwner(plan: Plan, s: State, c: nat, i: nat, now: int)
    requires Inv(plan, s) && Owner(s) == Some(c) && i < plan.N() && s.calls[c].tasks[i] != Gone
    requires Enabled(plan, s, CallStep(c, now)) && Free(s.calls[c].tasks[i], s.probes[i])
    ensures StaysFree(plan, ApplyCall(plan, s, c, now), c, i)
  {
    assert Staged(plan, s.calls[c].pc, i, s.calls[c].tasks[i]);
  }

  /** Meanwhile another call is not accepted; it can empty slots, but fills none. */
  lemma OtherCall(plan: Plan, s: State, c: nat, d: nat, now: int)
    requires Inv(plan, s) && Owner(s) == Some(c) && d != c && Enabled(plan, s, CallStep(d, now))
    ensures var t := ApplyCall(plan, s, d, now);
      && Owner(t) == Some(c) && RunNo(t) == RunNo(s) && t.readers == s.readers
      && |t.calls| == |s.calls| && t.calls[c] == s.calls[c]
      && forall i | 0 <= i < plan.N() ::
           t.probes[i].slot == (if s.calls[d].pc == Finishing(i) then None else s.probes[i].slot)
  {
  }

  lemma FreeTask(plan: Plan, s: State, c: nat, i: nat, j: nat, e: Exit, now: int)
    requires Shape(plan, s) && Owner(s) == Some(c) && i < plan.N() && Free(s.calls[c].tasks[i], s.probes[i])
    requires Enabled(plan, s, TaskStep(c, j, e, now))
    ensures StaysFree(plan, ApplyTask(plan, s, c, j, e, now), c, i)
  {
    EngineSteps.TaskFrame(plan, s, c, j, e, now, i);
    assert CellOf(s, c, i) == Cell(s.calls[c].tasks[i], s.tasks[i], s.probes[i]);
  }

  lemma FreeStep(plan: Plan, s: State, a: Action, c: nat, i: nat)
    requires Inv(plan, s) && StaysFree(plan, s, c, i) && Enabled(plan, s, a)
    ensures StaysFree(plan, Apply(plan, s, a), c, i)
  {
    if s.calls[c].tasks[i] == Gone {
      GoneStays(plan, s, a, c, i);
    } else {
      match a {
        case CallStep(d, now) =>
          if d == c {
            FreeOwner(plan, s, c, i, now);
          } else {
            OtherCall(plan, s, c, d, now);
          }
        case TaskStep(d, j, e, now) =>
          EngineSteps.TaskIsOwned(plan, s, d, j);
          FreeTask(plan, s, c, i, j, e, now);
        case _ => assert Owner(Apply(plan, s, a)) == Owner(s);
      }
    }
  }

  lemma {:induction false} FreeRuns(plan: Plan, s: State, acts: seq<Action>, c: nat, i: nat)
    requires Inv(plan, s) && StaysFree(plan, s, c, i) && Runs(plan, s, acts)
    ensures StaysFree(plan, After(plan, s, acts), c, i)
    decreases |acts|
  {
    if acts != [] {
      FreeStep(plan, s, acts[0], c, i);
      EngineSteps.StepInv(plan, s, acts[0]);
      FreeRuns(plan, Apply(plan, s, acts[0]), acts[1..], c, i);
    }
  }

  lemma LaunchTaken(plan: Plan, s: State, c: nat, i: nat) returns (t: State)
    requires Coming(plan, s, c, i) && s.calls[c].tasks[i] == Launching && Busy(plan.opts[i], s.probes[i])
    ensures Shape(plan, t) && Leads(plan, s, t) && c < |t.calls| && t.calls[c].tasks[i] == Probing(true)
  {
    t := OwnStep(plan, s, c, i, Panicked);
    assert CellOf(s, c, i) == Cell(Launching, s.tasks[i], s.probes[i]);
    assert CellOf(t, c, i) == Cell(t.calls[c].tasks[i], t.tasks[i], t.probes[i]);
  }

  lemma CanFindTaken(plan: Plan, s: State, c: nat, i: nat) returns (t: State)
    requires Inv(plan, s) && c < |s.calls| && s.calls[c].pc == Arrived && s.script.status != Running && i < plan.N()
    requires Slotted(plan.opts[i]) && s.probes[i].slot.Some?
    ensures Shape(plan, t) && Follows(plan, s, c, t) && c < |t.calls| && t.calls[c].tasks[i] == Probing(true)
  {
    AdmitComing(plan, s, c, i, 0);
    var u := Accepted(plan, s, c, i, 0);
    var v := Drive(plan, u, c, i);
    t := LaunchTaken(plan, v, c, i);
    LeadsOn(plan, u, v, t);
    FollowsBy(plan, s, c, 0, u, t);
  }

  /** A caller can tell when the run is accepted: its runner can find the slot taken if and only if a process is in the
      slot at that moment. */
  lemma TakenExactly(plan: Plan, acts: seq<Action>, c: nat, i: nat)
    requires Schedule(plan, acts) && c < |Reached(plan, acts).calls| && i < plan.N() && Slotted(plan.opts[i])
    requires Reached(plan, acts).calls[c].pc == Arrived && Reached(plan, acts).script.status != Running
    ensures var s := Reached(plan, acts);
      (exists t :: Follows(plan, s, c, t) && Shape(plan, t) && c < |t.calls| && t.calls[c].tasks[i] == Probing(true))
      <==> s.probes[i].slot.Some?
  {
    EngineSteps.ReachedInv(plan, acts);
    var s := Reached(plan, acts);
    if s.probes[i].slot.Some? {
      var t := CanFindTaken(plan, s, c, i);
    } else {
      forall t | Follows(plan, s, c, t) && Shape(plan, t)
        ensures c < |t.calls| && t.calls[c].tasks[i] != Probing(true)
      {
        var u, more, now := FollowsFrom(plan, s, c, t);
        AdmitComing(plan, s, c, i, now);
        EngineSteps.CallStepInv(plan, s, c, now);
        FreeRuns(plan, u, more, c, i);
      }
    }
  }
}
