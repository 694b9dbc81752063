/** Why the slot results need their two assumptions, shown on one script with one task and a cmd probe that stays.
    The script is recorded as finished before its drain, so an overlapping call can be accepted while a process is
    still kept; and a background reader that is late brings down the process of a later run. */
module EngineWitness {
  import opened Records
  import opened Probe
  import opened Engine

  const PLAN := Plan(1, [0], [Options(Cmd, true, true)])
  const STAY := StaysAlive(None)

  /** What the next step of call c depends on, in a state of this script with two calls; `late` says that the reader
      of the first run's process is pending. */
  datatype Mark = Mark(
    script: EStatus, group: EStatus, task: EStatus, succ: bool, starts: nat, slot: Option<nat>, queue: nat, late: bool,
    pc: CallPc, t: TaskPc)

  ghost predicate At(s: State, c: nat, m: Mark) {
    && c < 2 && |s.calls| == 2 && |s.calls[c].tasks| == 1 && |s.groups| == |s.tasks| == |s.probes| == 1
    && s.script.status == m.script && s.groups[0].status == m.group && s.tasks[0].status == m.task
    && s.tasks[0].cur.success == m.succ
    && s.probes[0].cur.runCounter == m.starts && s.probes[0].slot == m.slot
    && |s.queue| == m.queue && ((0, 1) in s.readers) == m.late
    && s.calls[c].pc == m.pc && s.calls[c].tasks[0] == m.t
  }

  predicate TaskCan(m: Mark) {
    match m.t
    case NotSpawned => false
    case Gone => false
    case Spawned => m.task != Running
    case Probing(busy) => !busy
    case Ending(_) => m.task == Running
    case Checking => m.slot.Some?
    case _ => true
  }

  function TaskNext(m: Mark): Mark
    requires TaskCan(m)
  {
    match m.t
    case Spawned => m.(t := Admitted, task := Running, succ := false)
    case Admitted => m.(t := Preparing)
    case Preparing => m.(t := Launching, starts := m.starts + 1)
    case Launching => if m.slot.Some? then m.(t := Probing(true)) else m.(t := Probing(false), slot := Some(m.starts))
    case Probing(_) => m.(t := Settling(true, None, false), late := m.late || m.starts == 1)
    case Settling(succ, data, _) => m.(t := Recording(succ, data))
    case Recording(succ, _) => m.(t := Ending(succ))
    case Ending(succ) => m.(t := Checking, task := Finished, succ := succ)
    case Checking => m.(t := Queueing)
    case Queueing => m.(t := Gone, queue := m.queue + 1)
  }

  predicate CallCan(m: Mark) {
    match m.pc
    case Creating => true
    case Arrived => m.script != Running
    case Entering(k) => k == 1 || (k == 0 && m.group != Running)
    case Waiting(k) => k == 0 && m.t == Gone
    case Folding(k, j, _) => k == 0 && j <= 1 && m.group == Running
    case Judging(j, _) => j <= 1 && m.script == Running
    case Draining => true
    case Finishing(_) => true
    case _ => false
  }

  function CallNext(m: Mark): Mark
    requires CallCan(m)
  {
    match m.pc
    case Creating => m.(pc := Arrived, queue := 0)
    case Arrived => m.(pc := Entering(0), script := Running)
    case Entering(k) =>
      if k == 1 then m.(pc := Judging(0, true)) else m.(pc := Waiting(0), t := Spawned, group := Running)
    case Waiting(_) => m.(pc := Folding(0, 0, true))
    case Folding(_, j, acc) =>
      if j == 0 then m.(pc := Folding(0, 1, acc && m.succ)) else m.(pc := Entering(1), group := Finished)
    case Judging(j, acc) =>
      if j == 0 then m.(pc := Judging(1, acc && m.succ)) else m.(pc := Draining, script := Finished)
    case Draining => if m.queue == 0 then m.(pc := Left) else m.(pc := Finishing(0), queue := m.queue - 1)
    case Finishing(_) => m.(pc := Draining, slot := None)
  }

  lemma FollowStart(s: State, c: nat, m: Mark)
    requires Shape(PLAN, s) && At(s, c, m) && TaskCan(m)
    requires m.t.Spawned? || m.t.Admitted? || m.t.Preparing? || m.t.Launching?
    ensures Enabled(PLAN, s, TaskStep(c, 0, STAY, 0))
    ensures var s' := ApplyTask(PLAN, s, c, 0, STAY, 0); At(s', c, TaskNext(m)) && s'.calls[1 - c] == s.calls[1 - c]
  {
  }

  lemma FollowRunner(s: State, c: nat, m: Mark)
    requires Shape(PLAN, s) && At(s, c, m) && TaskCan(m) && (m.t.Probing? || m.t.Settling? || m.t.Recording?)
    ensures Enabled(PLAN, s, TaskStep(c, 0, STAY, 0))
    ensures var s' := ApplyTask(PLAN, s, c, 0, STAY, 0); At(s', c, TaskNext(m)) && s'.calls[1 - c] == s.calls[1 - c]
  {
  }

  lemma FollowEnd(s: State, c: nat, m: Mark)
    requires Shape(PLAN, s) && At(s, c, m) && TaskCan(m) && (m.t.Ending? || m.t.Checking? || m.t.Queueing?)
    ensures Enabled(PLAN, s, TaskStep(c, 0, STAY, 0))
    ensures var s' := ApplyTask(PLAN, s, c, 0, STAY, 0); At(s', c, TaskNext(m)) && s'.calls[1 - c] == s.calls[1 - c]
  {
  }

  lemma FollowTask(s: State, c: nat, m: Mark) returns (s': State)
    requires Shape(PLAN, s) && At(s, c, m) && TaskCan(m)
    ensures Enabled(PLAN, s, TaskStep(c, 0, STAY, 0)) && s' == ApplyTask(PLAN, s, c, 0, STAY, 0)
    ensures At(s', c, TaskNext(m)) && s'.calls[1 - c] == s.calls[1 - c]
  {
    s' := ApplyTask(PLAN, s, c, 0, STAY, 0);
    if m.t.Probing? || m.t.Settling? || m.t.Recording? {
      FollowRunner(s, c, m);
    } else if m.t.Ending? || m.t.Checking? || m.t.Queueing? {
      FollowEnd(s, c, m);
    } else {
      FollowStart(s, c, m);
    }
  }

  lemma FollowEnter(s: State, c: nat, m: Mark)
    requires Shape(PLAN, s) && At(s, c, m) && CallCan(m) && m.pc.Entering?
    ensures Enabled(PLAN, s, CallStep(c, 0))
    ensures var s' := ApplyCall(PLAN, s, c, 0); At(s', c, CallNext(m)) && s'.calls[1 - c] == s.calls[1 - c]
  {
  }

  lemma FollowBarrier(s: State, c: nat, m: Mark)
    requires Shape(PLAN, s) && At(s, c, m) && CallCan(m) && m.pc.Waiting?
    ensures Enabled(PLAN, s, CallStep(c, 0))
    ensures var s' := ApplyCall(PLAN, s, c, 0); At(s', c, CallNext(m)) && s'.calls[1 - c] == s.calls[1 - c]
  {
  }

  lemma FollowFold(s: State, c: nat, m: Mark)
    requires Shape(PLAN, s) && At(s, c, m) && CallCan(m) && m.pc.Folding? && m.pc.j == 0
    ensures Enabled(PLAN, s, CallStep(c, 0))
    ensures var s' := ApplyCall(PLAN, s, c, 0); At(s', c, CallNext(m)) && s'.calls[1 - c] == s.calls[1 - c]
  {
  }

  lemma FollowGroupEnd(s: State, c: nat, m: Mark)
    requires Shape(PLAN, s) && At(s, c, m) && CallCan(m) && m.pc.Folding? && m.pc.j == 1
    ensures Enabled(PLAN, s, CallStep(c, 0))
    ensures var s' := ApplyCall(PLAN, s, c, 0); At(s', c, CallNext(m)) && s'.calls[1 - c] == s.calls[1 - c]
  {
  }

  lemma FollowCreate(s: State, c: nat, m: Mark)
    requires Shape(PLAN, s) && At(s, c, m) && CallCan(m) && m.pc.Creating?
    ensures Enabled(PLAN, s, CallStep(c, 0))
    ensures var s' := ApplyCall(PLAN, s, c, 0); At(s', c, CallNext(m)) && s'.calls[1 - c] == s.calls[1 - c]
  {
  }

  lemma FollowAdmit(s: State, c: nat, m: Mark)
    requires Shape(PLAN, s) && At(s, c, m) && CallCan(m) && m.pc.Arrived?
    ensures Enabled(PLAN, s, CallStep(c, 0))
    ensures var s' := ApplyCall(PLAN, s, c, 0); At(s', c, CallNext(m)) && s'.calls[1 - c] == s.calls[1 - c]
  {
  }

  lemma FollowJudge(s: State, c: nat, m: Mark)
    requires Shape(PLAN, s) && At(s, c, m) && CallCan(m) && m.pc.Judging? && m.pc.j == 0
    ensures Enabled(PLAN, s, CallStep(c, 0))
    ensures var s' := ApplyCall(PLAN, s, c, 0); At(s', c, CallNext(m)) && s'.calls[1 - c] == s.calls[1 - c]
  {
  }

  lemma FollowVerdict(s: State, c: nat, m: Mark)
    requires Shape(PLAN, s) && At(s, c, m) && CallCan(m) && m.pc.Judging? && m.pc.j == 1
    ensures Enabled(PLAN, s, CallStep(c, 0))
    ensures var s' := ApplyCall(PLAN, s, c, 0); At(s', c, CallNext(m)) && s'.calls[1 - c] == s.calls[1 - c]
  {
  }

  lemma FollowDrain(s: State, c: nat, m: Mark)
    requires Shape(PLAN, s) && At(s, c, m) && (m.pc.Draining? || m.pc.Finishing?)
    ensures Enabled(PLAN, s, CallStep(c, 0))
    ensures var s' := ApplyCall(PLAN, s, c, 0); At(s', c, CallNext(m)) && s'.calls[1 - c] == s.calls[1 - c]
  {
  }

  lemma FollowCall(s: State, c: nat, m: Mark) returns (s': State)
    requires Shape(PLAN, s) && At(s, c, m) && CallCan(m)
    ensures Enabled(PLAN, s, CallStep(c, 0)) && s' == ApplyCall(PLAN, s, c, 0)
    ensures At(s', c, CallNext(m)) && s'.calls[1 - c] == s.calls[1 - c]
  {
    s' := ApplyCall(PLAN, s, c, 0);
    if m.pc.Creating? {
      FollowCreate(s, c, m);
    } else if m.pc.Arrived? {
      FollowAdmit(s, c, m);
    } else if m.pc.Entering? {
      FollowEnter(s, c, m);
    } else if m.pc.Waiting? {
      FollowBarrier(s, c, m);
    } else if m.pc.Folding? {
      if m.pc.j == 0 {
        FollowFold(s, c, m);
      } else {
        FollowGroupEnd(s, c, m);
      }
    } else if m.pc.Judging? {
      if m.pc.j == 0 {
        FollowJudge(s, c, m);
      } else {
        FollowVerdict(s, c, m);
      }
    } else {
      FollowDrain(s, c, m);
    }
  }

  // ----- from marks back to schedules -----

  lemma {:induction false} Extend(plan: Plan, s: State, acts: seq<Action>, a: Action)
    requires Shape(plan, s) && Runs(plan, s, acts) && Enabled(plan, After(plan, s, acts), a)
    ensures Runs(plan, s, acts + [a])
    ensures After(plan, s, acts + [a]) == Apply(plan, After(plan, s, acts), a)
    decreases |acts|
  {
    if acts == [] {
      assert acts + [a] == [a];
      assert [a][1..] == [];
    } else {
      assert (acts + [a])[1..] == acts[1..] + [a];
      Extend(plan, Apply(plan, s, acts[0]), acts[1..], a);
    }
  }

  lemma ExtendSchedule(plan: Plan, acts: seq<Action>, a: Action, s: State, s': State)
    requires Schedule(plan, acts) && Reached(plan, acts) == s && Enabled(plan, s, a) && Apply(plan, s, a) == s'
    ensures Schedule(plan, acts + [a]) && Reached(plan, acts + [a]) == s'
  {
    Extend(plan, Init(plan), acts, a);
  }

  lemma ExtendTask(plan: Plan, acts: seq<Action>, s: State, c: nat, i: nat, e: Exit, s': State)
    requires Schedule(plan, acts) && Reached(plan, acts) == s && Enabled(plan, s, TaskStep(c, i, e, 0))
    requires ApplyTask(plan, s, c, i, e, 0) == s'
    ensures Schedule(plan, acts + [TaskStep(c, i, e, 0)]) && Reached(plan, acts + [TaskStep(c, i, e, 0)]) == s'
  {
    ExtendSchedule(plan, acts, TaskStep(c, i, e, 0), s, s');
  }

  lemma ExtendCall(plan: Plan, acts: seq<Action>, s: State, c: nat, s': State)
    requires Schedule(plan, acts) && Reached(plan, acts) == s && Enabled(plan, s, CallStep(c, 0))
    requires ApplyCall(plan, s, c, 0) == s'
    ensures Schedule(plan, acts + [CallStep(c, 0)]) && Reached(plan, acts + [CallStep(c, 0)]) == s'
  {
    ExtendSchedule(plan, acts, CallStep(c, 0), s, s');
  }

  /** Call c has this mark and the other call is as given. */
  datatype Focus = Focus(c: nat, m: Mark, other: Call)

  ghost predicate Shows(acts: seq<Action>, f: Focus) {
    Schedule(PLAN, acts) && At(Reached(PLAN, acts), f.c, f.m) && Reached(PLAN, acts).calls[1 - f.c] == f.other
  }

  lemma Lands(acts: seq<Action>, f: Focus, s: State, m: Mark)
    requires Schedule(PLAN, acts) && Reached(PLAN, acts) == s && At(s, f.c, m) && s.calls[1 - f.c] == f.other
    ensures Shows(acts, f.(m := m))
  {
  }

  lemma TaskMove(acts: seq<Action>, f: Focus)
    requires Shows(acts, f) && TaskCan(f.m)
    ensures Shows(acts + [TaskStep(f.c, 0, STAY, 0)], f.(m := TaskNext(f.m)))
  {
    var s := Reached(PLAN, acts);
    var s' := FollowTask(s, f.c, f.m);
    ExtendTask(PLAN, acts, s, f.c, 0, STAY, s');
    Lands(acts + [TaskStep(f.c, 0, STAY, 0)], f, s', TaskNext(f.m));
  }

  lemma CallMove(acts: seq<Action>, f: Focus)
    requires Shows(acts, f) && CallCan(f.m)
    ensures Shows(acts + [CallStep(f.c, 0)], f.(m := CallNext(f.m)))
  {
    var s := Reached(PLAN, acts);
    var s' := FollowCall(s, f.c, f.m);
    ExtendCall(PLAN, acts, s, f.c, s');
    Lands(acts + [CallStep(f.c, 0)], f, s', CallNext(f.m));
  }

  function TaskAfter(m: Mark, n: nat): Mark
    decreases n
  {
    if n == 0 || !TaskCan(m) then m else TaskAfter(TaskNext(m), n - 1)
  }

  function CallAfter(m: Mark, n: nat): Mark
    decreases n
  {
    if n == 0 || !CallCan(m) then m else CallAfter(CallNext(m), n - 1)
  }

  lemma {:induction false} TaskMoves(acts: seq<Action>, f: Focus, n: nat) returns (more: seq<Action>)
    requires Shows(acts, f)
    ensures Shows(more, f.(m := TaskAfter(f.m, n)))
    decreases n
  {
    if n == 0 || !TaskCan(f.m) {
      more := acts;
    } else {
      TaskMove(acts, f);
      more := TaskMoves(acts + [TaskStep(f.c, 0, STAY, 0)], f.(m := TaskNext(f.m)), n - 1);
    }
  }

  lemma {:induction false} CallMoves(acts: seq<Action>, f: Focus, n: nat) returns (more: seq<Action>)
    requires Shows(acts, f)
    ensures Shows(more, f.(m := CallAfter(f.m, n)))
    decreases n
  {
    if n == 0 || !CallCan(f.m) {
      more := acts;
    } else {
      CallMove(acts, f);
      more := CallMoves(acts + [CallStep(f.c, 0)], f.(m := CallNext(f.m)), n - 1);
    }
  }

  function Switched(f: Focus): Focus {
    if f.c <= 1 && |f.other.tasks| == 1
    then Focus(1 - f.c, f.m.(pc := f.other.pc, t := f.other.tasks[0]), Call(f.m.pc, [f.m.t]))
    else f
  }

  lemma Switch(acts: seq<Action>, f: Focus)
    requires Shows(acts, f)
    ensures Shows(acts, Switched(f))
  {
  }

  /** Who moves, and how often. */
  datatype Moves = End | Goroutine(n: nat, rest: Moves) | Run(n: nat, rest: Moves) | OtherCall(rest: Moves)

  function Play(f: Focus, moves: Moves): Focus
    decreases moves
  {
    match moves
    case End => f
    case Goroutine(n, rest) => Play(f.(m := TaskAfter(f.m, n)), rest)
    case Run(n, rest) => Play(f.(m := CallAfter(f.m, n)), rest)
    case OtherCall(rest) => Play(Switched(f), rest)
  }

  lemma {:induction false} Played(acts: seq<Action>, f: Focus, moves: Moves) returns (more: seq<Action>)
    requires Shows(acts, f)
    ensures Shows(more, Play(f, moves))
    decreases moves
  {
    more := acts;
    match moves
    case End =>
    case Goroutine(n, rest) =>
      more := TaskMoves(acts, f, n);
      more := Played(more, f.(m := TaskAfter(f.m, n)), rest);
    case Run(n, rest) =>
      more := CallMoves(acts, f, n);
      more := Played(more, f.(m := CallAfter(f.m, n)), rest);
    case OtherCall(rest) =>
      Switch(acts, f);
      more := Played(acts, Switched(f), rest);
  }

  // ----- two schedules -----

  const BEGIN :=
    Focus(0, Mark(New, New, New, false, 0, None, 0, false, Arrived, NotSpawned), Call(Arrived, [NotSpawned]))

  /** The first call creates the queue before the second arrives. */
  const BEGINNING := [Arrive, CallStep(0, 0), Arrive]

  lemma Begun()
    ensures Shows(BEGINNING, BEGIN)
  {
    var s := Init(PLAN);
    var s1 := Apply(PLAN, s, Arrive);
    var s2 := Apply(PLAN, s1, CallStep(0, 0));
    assert Fill(1, NotSpawned) == [NotSpawned];
    assert BEGINNING[1..] == [CallStep(0, 0), Arrive];
    assert [CallStep(0, 0), Arrive][1..] == [Arrive] && [Arrive][1..] == [];
    assert Reached(PLAN, BEGINNING) == Apply(PLAN, s2, Arrive);
  }

  /** The first call runs its group and records its end, with the process kept; it has not drained yet. */
  const AFTER_FIRST :=
    Focus(0, Mark(Finished, Finished, Finished, true, 1, Some(1), 1, true, Draining, Gone), Call(Arrived, [NotSpawned]))

  lemma PlayRun(f: Focus, n: nat, rest: Moves, m: Mark)
    requires CallAfter(f.m, n) == m
    ensures Play(f, Run(n, rest)) == Play(f.(m := m), rest)
  {
  }

  lemma PlayGoroutine(f: Focus, n: nat, rest: Moves, m: Mark)
    requires TaskAfter(f.m, n) == m
    ensures Play(f, Goroutine(n, rest)) == Play(f.(m := m), rest)
  {
  }

  /** The moves of the first call up to the end it records. */
  function FirstMoves(rest: Moves): Moves {
    Run(2, Goroutine(3, Goroutine(4, Goroutine(3, Run(3, Run(3, rest))))))
  }

  lemma FirstEnd(other: Call, ending: Mark, rest: Moves)
    requires ending == Mark(Running, Running, Running, false, 1, Some(1), 0, true, Waiting(0), Ending(true))
    ensures Play(Focus(0, ending, other), Goroutine(3, Run(3, Run(3, rest))))
            == Play(AFTER_FIRST.(other := other), rest)
  {
    var gone := ending.(task := Finished, succ := true, queue := 1, t := Gone);
    assert TaskAfter(ending, 3) == gone;
    var left := gone.(group := Finished, pc := Entering(1));
    assert CallAfter(gone, 3) == left;
    assert CallAfter(left, 3) == AFTER_FIRST.m;
    PlayGoroutine(Focus(0, ending, other), 3, Run(3, Run(3, rest)), gone);
    PlayRun(Focus(0, gone, other), 3, Run(3, rest), left);
    PlayRun(Focus(0, left, other), 3, rest, AFTER_FIRST.m);
  }

  /** The first call's moves do not depend on where the other call stands. */
  lemma FirstRun(other: Call, rest: Moves)
    ensures Play(BEGIN.(other := other), FirstMoves(rest)) == Play(AFTER_FIRST.(other := other), rest)
  {
    var spawned := Mark(Running, Running, New, false, 0, None, 0, false, Waiting(0), Spawned);
    assert CallAfter(BEGIN.m, 2) == spawned;
    var launching := spawned.(task := Running, starts := 1, t := Launching);
    assert TaskAfter(spawned, 3) == launching;
    var ending := launching.(slot := Some(1), late := true, t := Ending(true));
    assert TaskAfter(launching, 4) == ending;
    var b := BEGIN.(other := other);
    FirstEnd(other, ending, rest);
    PlayRun(b, 2, Goroutine(3, Goroutine(4, Goroutine(3, Run(3, Run(3, rest))))), spawned);
    PlayGoroutine(b.(m := spawned), 3, Goroutine(4, Goroutine(3, Run(3, Run(3, rest)))), launching);
    PlayGoroutine(b.(m := launching), 4, Goroutine(3, Run(3, Run(3, rest))), ending);
  }

  /** Four steps of a goroutine that has just been spawned, with a process still kept or not. */
  lemma FourSteps(slot: Option<nat>, queue: nat)
    ensures var m := Mark(Running, Running, Finished, true, 1, slot, queue, true, Waiting(0), Spawned);
      TaskAfter(m, 4) ==
      Mark(Running, Running, Running, false, 2, if slot.Some? then slot else Some(2), queue, true, Waiting(0),
           Probing(slot.Some?))
  {
  }

  lemma SecondCall(f: Focus, slot: Option<nat>, queue: nat)
    requires f.m == Mark(Finished, Finished, Finished, true, 1, slot, queue, true, Arrived, NotSpawned)
    ensures Play(f, Run(2, Goroutine(4, End))) ==
            f.(m := Mark(Running, Running, Running, false, 2, if slot.Some? then slot else Some(2), queue, true,
                         Waiting(0), Probing(slot.Some?)))
  {
    var m1 := Mark(Running, Running, Finished, true, 1, slot, queue, true, Waiting(0), Spawned);
    assert CallAfter(f.m, 2) == m1;
    PlayRun(f, 2, Goroutine(4, End), m1);
    FourSteps(slot, queue);
    PlayGoroutine(f.(m := m1), 4, End, TaskAfter(m1, 4));
  }

  lemma OverlappingRun()
    ensures Play(AFTER_FIRST, OtherCall(Run(2, Goroutine(4, End)))) ==
            Focus(1, Mark(Running, Running, Running, false, 2, Some(1), 1, true, Waiting(0), Probing(true)),
                  Call(Draining, [Gone]))
  {
  }

  lemma LaterRun()
    ensures Play(AFTER_FIRST, Run(3, OtherCall(Run(2, Goroutine(4, End))))) ==
            Focus(1, Mark(Running, Running, Running, false, 2, Some(2), 0, true, Waiting(0), Probing(false)),
                  Call(Left, [Gone]))
  {
    var m := Mark(Finished, Finished, Finished, true, 1, None, 0, true, Left, Gone);
    assert CallAfter(AFTER_FIRST.m, 3) == m;
    PlayRun(AFTER_FIRST, 3, OtherCall(Run(2, Goroutine(4, End))), m);
    SecondCall(Switched(AFTER_FIRST.(m := m)), None, 0);
  }

  /** Two calls overlap: the second is accepted while the first has yet to drain, and its runner finds the
      slot taken. */
  lemma OverlapFindsSlotTaken()
    ensures exists acts: seq<Action> ::
              (Schedule(PLAN, acts) && var s := Reached(PLAN, acts);
                 |s.calls| == 2 && s.calls[0].pc == Draining && s.calls[1].tasks[0] == Probing(true))
  {
    Begun();
    var rest := OtherCall(Run(2, Goroutine(4, End)));
    FirstRun(Call(Arrived, [NotSpawned]), rest);
    OverlappingRun();
    var acts := Played(BEGINNING, BEGIN, FirstMoves(rest));
  }

  /** Calls do not overlap, but the first run's background reader is late: it brings down the process of the second. */
  lemma LateReaderStopsTheNextProcess()
    ensures exists acts: seq<Action> ::
              (Schedule(PLAN, acts) && var s := Reached(PLAN, acts);
                 && |s.calls| == 2 && s.calls[0].pc == Left && s.calls[1].tasks[0] == Probing(false)
                 && s.probes[0].slot == Some(2) && Enabled(PLAN, s, ReaderEnds(0, 1, 0))
                 && Apply(PLAN, s, ReaderEnds(0, 1, 0)).probes[0].slot == None)
  {
    Begun();
    var rest := Run(3, OtherCall(Run(2, Goroutine(4, End))));
    FirstRun(Call(Arrived, [NotSpawned]), rest);
    LaterRun();
    var acts := Played(BEGINNING, BEGIN, FirstMoves(rest));
    ReaderHits(Reached(PLAN, acts));
  }

  lemma ReaderHits(s: State)
    requires Shape(PLAN, s) && (0, 1) in s.readers
    ensures Enabled(PLAN, s, ReaderEnds(0, 1, 0)) && Apply(PLAN, s, ReaderEnds(0, 1, 0)).probes[0].slot == None
  {
  }

  // ----- a lost queue -----

  /** Two first calls find no queue; the first creates one and goes on, the second is about to replace it. */
  const BOTH_FIRST := [Arrive, Arrive, CallStep(0, 0)]

  const RACE := BEGIN.(other := Call(Creating, [NotSpawned]))

  lemma Raced()
    ensures Shows(BOTH_FIRST, RACE)
  {
    var s := Init(PLAN);
    var s1 := Apply(PLAN, s, Arrive);
    var s2 := Apply(PLAN, s1, Arrive);
    assert Fill(1, NotSpawned) == [NotSpawned];
    assert BOTH_FIRST[1..] == [Arrive, CallStep(0, 0)] && [Arrive, CallStep(0, 0)][1..] == [CallStep(0, 0)];
    assert [CallStep(0, 0)][1..] == [];
    assert Reached(PLAN, BOTH_FIRST) == Apply(PLAN, s2, CallStep(0, 0));
  }

  lemma PlayOther(f: Focus, rest: Moves)
    ensures Play(f, OtherCall(rest)) == Play(Switched(f), rest)
  {
  }

  const DRAINED := AFTER_FIRST.m.(queue := 0, pc := Left)

  lemma LosingMoves()
    ensures Play(AFTER_FIRST.(other := Call(Creating, [NotSpawned])), OtherCall(Run(1, OtherCall(Run(1, End))))) ==
            AFTER_FIRST.(m := DRAINED)
  {
    var f := AFTER_FIRST.(other := Call(Creating, [NotSpawned]));
    var g := Focus(1, f.m.(pc := Creating, t := NotSpawned), Call(Draining, [Gone]));
    assert Switched(f) == g;
    PlayOther(f, Run(1, OtherCall(Run(1, End))));
    var created := g.m.(pc := Arrived, queue := 0);
    assert CallAfter(g.m, 1) == created;
    PlayRun(g, 1, OtherCall(Run(1, End)), created);
    var h := Focus(0, f.m.(queue := 0), Call(Arrived, [NotSpawned]));
    assert Switched(g.(m := created)) == h;
    PlayOther(g.(m := created), Run(1, End));
    assert CallAfter(h.m, 1) == DRAINED;
    PlayRun(h, 1, End, DRAINED);
  }

  /** The second call replaces the queue before the first drains it: the first then finds nothing to drain, returns, and
      the process that it has kept is in no queue any more. */
  lemma ReplacedQueueLosesProbe()
    ensures exists acts: seq<Action> ::
              (Schedule(PLAN, acts) && var s := Reached(PLAN, acts);
                 && |s.calls| == 2 && s.calls[0].pc == Left && s.calls[1].pc == Arrived
                 && s.queue == [] && s.probes[0].slot == Some(1) && IsAlive(PLAN.opts[0], s.probes[0]))
  {
    Raced();
    var rest := OtherCall(Run(1, OtherCall(Run(1, End))));
    FirstRun(Call(Creating, [NotSpawned]), rest);
    LosingMoves();
    var acts := Played(BOTH_FIRST, RACE, FirstMoves(rest));
    assert Shows(acts, AFTER_FIRST.(m := DRAINED));
  }
}
