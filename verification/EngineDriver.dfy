/** Continuations: how a call can be brought forward, step by step, while the others stand still. */
module EngineDriver {
  import opened Records
  import opened Probe
  import opened Engine
  import opened EngineInvariant
  import EngineSteps
  import EngineEnds

  ghost predicate NoNewcomer(acts: seq<Action>) {
    forall a | a in acts :: !EngineEnds.Newcomer(a)
  }

  /** Some continuation of s comes to t. */
  ghost predicate Continues(plan: Plan, s: State, t: State)
    requires Shape(plan, s)
  {
    exists acts: seq<Action> :: Runs(plan, s, acts) && After(plan, s, acts) == t
  }

  /** Some continuation without a further arrival does. */
  ghost predicate Leads(plan: Plan, s: State, t: State)
    requires Shape(plan, s)
  {
    exists acts: seq<Action> :: Runs(plan, s, acts) && NoNewcomer(acts) && After(plan, s, acts) == t
  }

  lemma Front(plan: Plan, s: State, a: Action, u: State, rest: seq<Action>)
    requires Shape(plan, s) && Enabled(plan, s, a) && u == Apply(plan, s, a) && Runs(plan, u, rest)
    ensures Runs(plan, s, [a] + rest) && After(plan, s, [a] + rest) == After(plan, u, rest)
  {
    assert ([a] + rest)[1..] == rest;
  }

  lemma LeadsFront(plan: Plan, s: State, a: Action, t: State, u: State)
    requires Shape(plan, s) && Enabled(plan, s, a) && !EngineEnds.Newcomer(a) && t == Apply(plan, s, a)
    requires Leads(plan, t, u)
    ensures Leads(plan, s, u)
  {
    var rest: seq<Action> :| Runs(plan, t, rest) && NoNewcomer(rest) && After(plan, t, rest) == u;
    Front(plan, s, a, t, rest);
    assert NoNewcomer([a] + rest);
  }

  /** The first step and the rest. */
  lemma Opened(plan: Plan, s: State, acts: seq<Action>) returns (t: State)
    requires Shape(plan, s) && Runs(plan, s, acts) && NoNewcomer(acts) && acts != []
    ensures Shape(plan, t) && Runs(plan, t, acts[1..]) && NoNewcomer(acts[1..])
    ensures After(plan, s, acts) == After(plan, t, acts[1..])
    ensures forall u | Leads(plan, t, u) :: Leads(plan, s, u)
  {
    t := Apply(plan, s, acts[0]);
    forall u | Leads(plan, t, u)
      ensures Leads(plan, s, u)
    {
      LeadsFront(plan, s, acts[0], t, u);
    }
  }

  lemma {:induction false} Joined(plan: Plan, s: State, acts: seq<Action>, u: State)
    requires Shape(plan, s) && Runs(plan, s, acts) && NoNewcomer(acts) && Leads(plan, After(plan, s, acts), u)
    ensures Leads(plan, s, u)
    decreases |acts|
  {
    if acts != [] {
      var t := Opened(plan, s, acts);
      Joined(plan, t, acts[1..], u);
    }
  }

  lemma LeadsHere(plan: Plan, s: State)
    requires Shape(plan, s)
    ensures Leads(plan, s, s)
  {
    assert Runs(plan, s, []) && After(plan, s, []) == s && NoNewcomer([]);
  }

  lemma LeadsOn(plan: Plan, s: State, t: State, u: State)
    requires Shape(plan, s) && Shape(plan, t) && Leads(plan, s, t) && Leads(plan, t, u)
    ensures Leads(plan, s, u)
  {
    var acts: seq<Action> :| Runs(plan, s, acts) && NoNewcomer(acts) && After(plan, s, acts) == t;
    Joined(plan, s, acts, u);
  }

  lemma LeadsByStep(plan: Plan, s: State, a: Action, t: State)
    requires Shape(plan, s) && Enabled(plan, s, a) && !EngineEnds.Newcomer(a) && t == Apply(plan, s, a)
    ensures Leads(plan, s, t)
  {
    LeadsHere(plan, t);
    LeadsFront(plan, s, a, t, t);
  }

  /** One step. */
  lemma Stepped(plan: Plan, s: State, a: Action) returns (t: State)
    requires Inv(plan, s) && Enabled(plan, s, a) && !EngineEnds.Newcomer(a)
    ensures t == Apply(plan, s, a) && Inv(plan, t) && Leads(plan, s, t)
    ensures EngineEnds.Measure(plan, t) < EngineEnds.Measure(plan, s)
  {
    t := Apply(plan, s, a);
    LeadsByStep(plan, s, a, t);
    EngineSteps.StepInv(plan, s, a);
    EngineEnds.StepFalls(plan, s, a);
  }

  // ----- bringing one goroutine to its runner -----

  /** The goroutine has yet to come to its runner. */
  predicate Ahead(t: TaskPc) {
    t.NotSpawned? || t.Spawned? || t.Admitted? || t.Preparing? || t.Launching?
  }

  ghost predicate Coming(plan: Plan, s: State, c: nat, i: nat) {
    && Inv(plan, s) && Owner(s) == Some(c) && i < plan.N()
    && Ahead(s.calls[c].tasks[i])
    && (s.calls[c].tasks[i].Preparing? || s.calls[c].tasks[i].Launching? ==> s.probes[i].worker.status == Running)
  }

  /** From s to t only call c and its goroutines have moved, and slot and error of probe i are as they were. */
  ghost predicate Beside(s: State, t: State, c: nat, i: nat) {
    && RunNo(t) == RunNo(s) && t.readers == s.readers && t.made == s.made && t.dropped == s.dropped
    && |t.calls| == |s.calls| && (forall d | 0 <= d < |s.calls| && d != c :: t.calls[d] == s.calls[d])
    && i < |s.probes| == |t.probes|
    && t.probes[i].slot == s.probes[i].slot && t.probes[i].error == s.probes[i].error
  }

  lemma DriveCall(plan: Plan, s: State, c: nat, i: nat)
    requires Coming(plan, s, c, i) && Enabled(plan, s, CallStep(c, 0))
    ensures var t := ApplyCall(plan, s, c, 0);
      && Owner(t) == Some(c) && t.probes == s.probes && Beside(s, t, c, i)
      && (t.calls[c].tasks[i] == s.calls[c].tasks[i]
          || (s.calls[c].tasks[i] == NotSpawned && t.calls[c].tasks[i] == Spawned))
  {
    assert Staged(plan, s.calls[c].pc, i, s.calls[c].tasks[i]);
  }

  /** A goroutine beside moves, and its runner, if it comes back, panics. */
  lemma DriveOther(plan: Plan, s: State, c: nat, i: nat, j: nat)
    requires Coming(plan, s, c, i) && j < plan.N() && j != i && Live(s.calls[c].tasks[j])
    ensures var t := ApplyTask(plan, s, c, j, Panicked, 0);
      && Owner(t) == Some(c) && t.probes[i] == s.probes[i] && Beside(s, t, c, i)
      && t.calls[c].tasks[i] == s.calls[c].tasks[i]
  {
  }

  lemma DriveOwn(plan: Plan, s: State, c: nat, i: nat)
    requires Coming(plan, s, c, i) && Live(s.calls[c].tasks[i]) && !s.calls[c].tasks[i].Launching?
    ensures var t := ApplyTask(plan, s, c, i, Panicked, 0);
      && Owner(t) == Some(c) && Beside(s, t, c, i) && Ahead(t.calls[c].tasks[i])
      && (t.calls[c].tasks[i].Preparing? || t.calls[c].tasks[i].Launching? ==> t.probes[i].worker.status == Running)
  {
    EngineSteps.CellHere(plan, s, c, i);
    assert CellOf(s, c, i).pc == s.calls[c].tasks[i];
  }

  lemma DriveStep(plan: Plan, s: State, c: nat, i: nat) returns (t: State)
    requires Coming(plan, s, c, i) && !s.calls[c].tasks[i].Launching?
    ensures Coming(plan, t, c, i) && Leads(plan, s, t) && Beside(s, t, c, i)
    ensures EngineEnds.Measure(plan, t) < EngineEnds.Measure(plan, s)
  {
    EngineEnds.BarrierSpawned(plan, s, c);
    var a := EngineEnds.NextStep(plan, s, c);
    if a.CallStep? {
      DriveCall(plan, s, c, i);
    } else {
      a := TaskStep(c, a.i, Panicked, 0);
      if a.i == i {
        DriveOwn(plan, s, c, i);
      } else {
        DriveOther(plan, s, c, i, a.i);
      }
    }
    t := Stepped(plan, s, a);
  }

  /** An accepted call can bring each of its goroutines to its runner. */
  lemma {:induction false} Drive(plan: Plan, s: State, c: nat, i: nat) returns (t: State)
    requires Coming(plan, s, c, i)
    ensures Coming(plan, t, c, i) && t.calls[c].tasks[i] == Launching
    ensures Leads(plan, s, t) && Beside(s, t, c, i)
    decreases EngineEnds.Measure(plan, s)
  {
    if s.calls[c].tasks[i] == Launching {
      t := s;
      LeadsHere(plan, s);
    } else {
      var u := DriveStep(plan, s, c, i);
      t := Drive(plan, u, c, i);
      LeadsOn(plan, s, u, t);
    }
  }

  lemma AdmitComing(plan: Plan, s: State, c: nat, i: nat, now: int)
    requires Shape(plan, s) && CallsOk(plan, s) && c < |s.calls| && s.calls[c].pc == Arrived
    requires s.script.status != Running && i < plan.N()
    ensures var t := ApplyCall(plan, s, c, now);
      && Owner(t) == Some(c) && t.calls[c].tasks[i] == NotSpawned && RunNo(t) == RunNo(s) + 1
      && t == s.(script := t.script, calls := t.calls, verdicts := t.verdicts,
                 current := t.current, found := t.found, queued := t.queued, drained := t.drained)
      && |t.calls| == |s.calls| && forall d | 0 <= d < |s.calls| && d != c :: t.calls[d] == s.calls[d]
  {
  }

  /** The call is accepted, and all its goroutines are still to come. */
  lemma Accepted(plan: Plan, s: State, c: nat, i: nat, now: int) returns (t: State)
    requires Inv(plan, s) && c < |s.calls| && s.calls[c].pc == Arrived && s.script.status != Running && i < plan.N()
    ensures Enabled(plan, s, CallStep(c, now)) && t == ApplyCall(plan, s, c, now)
    ensures Leads(plan, s, t) && Coming(plan, t, c, i)
  {
    AdmitComing(plan, s, c, i, now);
    t := Stepped(plan, s, CallStep(c, now));
  }

  lemma OwnFrame(plan: Plan, s: State, c: nat, i: nat, e: Exit)
    requires Shape(plan, s) && Owner(s) == Some(c) && i < plan.N() && Live(s.calls[c].tasks[i])
    ensures var t := ApplyTask(plan, s, c, i, e, 0);
      && RunNo(t) == RunNo(s) && |t.calls| == |s.calls| && t.calls[c].pc == s.calls[c].pc
      && (forall d | 0 <= d < |s.calls| && d != c :: t.calls[d] == s.calls[d])
      && t.made == s.made && t.dropped == s.dropped
  {
  }

  /** One step of goroutine i. */
  lemma OwnStep(plan: Plan, s: State, c: nat, i: nat, e: Exit) returns (t: State)
    requires Inv(plan, s) && Owner(s) == Some(c) && i < plan.N()
    requires Live(s.calls[c].tasks[i]) && Allowed(plan.opts[i], e)
    ensures t == ApplyTask(plan, s, c, i, e, 0) && Inv(plan, t) && Leads(plan, s, t)
    ensures Owner(t) == Some(c) && CellOf(t, c, i) == CellStep(plan.opts[i], CellOf(s, c, i), e, 0)
  {
    EngineSteps.TaskFrame(plan, s, c, i, e, 0, i);
    t := Stepped(plan, s, TaskStep(c, i, e, 0));
  }
}
