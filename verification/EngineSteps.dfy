/** Every step of the run engine keeps the invariant. */
module EngineSteps {
  import opened Records
  import opened Probe
  import opened Engine
  import opened EngineInvariant

  // ----- goroutine steps -----

  /** The verdict history after a goroutine step. */
  lemma TaskHistory(plan: Plan, s: State, c: nat, i: nat, e: Exit, now: int, m: int, j: nat)
    requires Shape(plan, s) && |s.verdicts| == RunNo(s) >= 1 && c < |s.calls| && i < plan.N() && j < plan.N()
    requires Live(s.calls[c].tasks[i])
    ensures var s' := ApplyTask(plan, s, c, i, e, now);
      VerdictOf(s'.verdicts, m, j) ==
        if m == RunNo(s) && j == i then NewVerdict(plan.opts[i], CellOf(s, c, i), e, VerdictOf(s.verdicts, m, j))
        else VerdictOf(s.verdicts, m, j)
  {
  }

  lemma TaskIsOwned(plan: Plan, s: State, c: nat, i: nat)
    requires Inv(plan, s) && c < |s.calls| && i < plan.N() && Live(s.calls[c].tasks[i])
    ensures Owner(s) == Some(c)
  {
  }

  /** The cells of the other tasks are untouched; the own cell makes one cell step. */
  lemma TaskFrame(plan: Plan, s: State, c: nat, i: nat, e: Exit, now: int, j: nat)
    requires Shape(plan, s) && Owner(s) == Some(c) && i < plan.N() && j < plan.N() && Live(s.calls[c].tasks[i])
    ensures var s' := ApplyTask(plan, s, c, i, e, now);
      && Owner(s') == Some(c) && RunNo(s') == RunNo(s)
      && CellOf(s', c, j) == if j == i then CellStep(plan.opts[i], CellOf(s, c, i), e, now) else CellOf(s, c, j)
  {
  }

  lemma OwnCell(plan: Plan, s: State, c: nat, i: nat, e: Exit, now: int)
    requires Shape(plan, s) && |s.verdicts| == RunNo(s) >= 1 && CellsOk(plan, s) && Owner(s) == Some(c)
    requires i < plan.N() && Live(s.calls[c].tasks[i])
    ensures var s' := ApplyTask(plan, s, c, i, e, now);
      CellOk(CellOf(s', c, i), RunNo(s), VerdictOf(s.verdicts, RunNo(s) - 1, i),
             NewVerdict(plan.opts[i], CellOf(s, c, i), e, VerdictOf(s.verdicts, RunNo(s), i)))
  {
    var n: int := RunNo(s);
    CellHere(plan, s, c, i);
    CellStepOk(plan.opts[i], CellOf(s, c, i), e, now, n, VerdictOf(s.verdicts, n - 1, i), VerdictOf(s.verdicts, n, i));
    TaskFrame(plan, s, c, i, e, now, i);
  }

  lemma TaskCell(plan: Plan, s: State, c: nat, i: nat, e: Exit, now: int, j: nat)
    requires Shape(plan, s) && |s.verdicts| == RunNo(s) >= 1 && CellsOk(plan, s) && Owner(s) == Some(c)
    requires i < plan.N() && j < plan.N() && Live(s.calls[c].tasks[i])
    ensures var s' := ApplyTask(plan, s, c, i, e, now);
      CellOk(CellOf(s', c, j), RunNo(s), VerdictOf(s'.verdicts, RunNo(s) - 1, j), VerdictOf(s'.verdicts, RunNo(s), j))
  {
    var n: int := RunNo(s);
    TaskHistory(plan, s, c, i, e, now, n, j);
    TaskHistory(plan, s, c, i, e, now, n - 1, j);
    if j == i {
      OwnCell(plan, s, c, i, e, now);
    } else {
      TaskFrame(plan, s, c, i, e, now, j);
      CellHere(plan, s, c, j);
    }
  }

  lemma TaskCells(plan: Plan, s: State, c: nat, i: nat, e: Exit, now: int)
    requires Shape(plan, s) && |s.verdicts| == RunNo(s) >= 1 && CellsOk(plan, s) && Owner(s) == Some(c)
    requires i < plan.N() && Live(s.calls[c].tasks[i])
    ensures CellsOk(plan, ApplyTask(plan, s, c, i, e, now))
  {
    var s' := ApplyTask(plan, s, c, i, e, now);
    forall j | 0 <= j < plan.N()
      ensures CellOk(CellOf(s', c, j), RunNo(s),
                     VerdictOf(s'.verdicts, RunNo(s) - 1, j), VerdictOf(s'.verdicts, RunNo(s), j))
    {
      TaskCell(plan, s, c, i, e, now, j);
    }
    TaskFrame(plan, s, c, i, e, now, i);
    CellsThere(plan, s', c);
  }

  lemma CellHere(plan: Plan, s: State, c: nat, j: nat)
    requires Shape(plan, s) && CellsOk(plan, s) && Owner(s) == Some(c) && j < plan.N()
    ensures CellOk(CellOf(s, c, j), RunNo(s),
                   VerdictOf(s.verdicts, RunNo(s) - 1, j), VerdictOf(s.verdicts, RunNo(s), j))
  {
  }

  lemma CellsThere(plan: Plan, s: State, c: nat)
    requires Shape(plan, s) && Owner(s) == Some(c)
    requires forall j | 0 <= j < plan.N() ::
      CellOk(CellOf(s, c, j), RunNo(s), VerdictOf(s.verdicts, RunNo(s) - 1, j), VerdictOf(s.verdicts, RunNo(s), j))
    ensures CellsOk(plan, s)
  {
  }

  lemma CellOnward(o: Options, c: Cell, e: Exit, now: int, n: nat, before: Option<Verdict>, after: Option<Verdict>)
    requires Live(c.pc) && CellOk(c, n, before, after)
    ensures c.task.prev.runCounter <= CellStep(o, c, e, now).task.prev.runCounter
    ensures c.probe.last.runCounter <= CellStep(o, c, e, now).probe.last.runCounter
    ensures after.Some? ==> NewVerdict(o, c, e, after) == after
  {
  }

  lemma HistoryOnward(plan: Plan, s: State, s': State)
    requires Shape(plan, s) && Shape(plan, s') && s'.script.prev == s.script.prev
    requires forall i | 0 <= i < plan.N() ::
      && s.tasks[i].prev.runCounter <= s'.tasks[i].prev.runCounter
      && s.probes[i].last.runCounter <= s'.probes[i].last.runCounter
    requires forall n: nat, i: nat | i < plan.N() ::
      && (n <= s.script.prev.runCounter ==> VerdictOf(s'.verdicts, n, i) == VerdictOf(s.verdicts, n, i))
      && (VerdictOf(s.verdicts, n, i).Some? ==> VerdictOf(s'.verdicts, n, i) == VerdictOf(s.verdicts, n, i))
    ensures Onward(plan, s, s')
  {
  }

  lemma TaskOnward(plan: Plan, s: State, c: nat, i: nat, e: Exit, now: int)
    requires Inv(plan, s) && Owner(s) == Some(c) && i < plan.N() && Live(s.calls[c].tasks[i])
    ensures Onward(plan, s, ApplyTask(plan, s, c, i, e, now))
  {
    var s' := ApplyTask(plan, s, c, i, e, now);
    var n: int := RunNo(s);
    CellHere(plan, s, c, i);
    CellOnward(plan.opts[i], CellOf(s, c, i), e, now, n, VerdictOf(s.verdicts, n - 1, i), VerdictOf(s.verdicts, n, i));
    forall m: nat, j: nat | j < plan.N()
      ensures m <= s.script.prev.runCounter ==> VerdictOf(s'.verdicts, m, j) == VerdictOf(s.verdicts, m, j)
      ensures VerdictOf(s.verdicts, m, j).Some? ==> VerdictOf(s'.verdicts, m, j) == VerdictOf(s.verdicts, m, j)
    {
      TaskHistory(plan, s, c, i, e, now, m, j);
    }
    forall j | 0 <= j < plan.N()
      ensures s.tasks[j].prev.runCounter <= s'.tasks[j].prev.runCounter
      ensures s.probes[j].last.runCounter <= s'.probes[j].last.runCounter
    {
      TaskFrame(plan, s, c, i, e, now, j);
    }
    HistoryOnward(plan, s, s');
  }

  lemma TaskCalls(plan: Plan, s: State, c: nat, i: nat, e: Exit, now: int)
    requires Shape(plan, s) && CallsOk(plan, s) && RowsOk(plan, s)
    requires Owner(s) == Some(c) && i < plan.N() && Live(s.calls[c].tasks[i])
    ensures CallsOk(plan, ApplyTask(plan, s, c, i, e, now))
    ensures RowsOk(plan, ApplyTask(plan, s, c, i, e, now))
  {
    var s' := ApplyTask(plan, s, c, i, e, now);
    assert Owner(s') == Some(c) && RunNo(s') == RunNo(s);
    forall m, j | 1 <= m < RunNo(s) && 0 <= j < plan.N()
      ensures VerdictOf(s'.verdicts, m, j).Some?
    {
      TaskHistory(plan, s, c, i, e, now, m, j);
    }
  }

  /** A task whose goroutine is alive lies in the group at the barrier, so no fold is under way. */
  lemma TaskAtBarrier(plan: Plan, s: State, c: nat, i: nat)
    requires Inv(plan, s) && Owner(s) == Some(c) && i < plan.N() && Live(s.calls[c].tasks[i])
    ensures s.calls[c].pc.Waiting? && plan.groupOf[i] == s.calls[c].pc.k
  {
  }

  lemma TaskScript(plan: Plan, s: State, c: nat, i: nat, e: Exit, now: int)
    requires Inv(plan, s) && Owner(s) == Some(c) && i < plan.N() && Live(s.calls[c].tasks[i])
    ensures ScriptOk(plan, ApplyTask(plan, s, c, i, e, now))
  {
    TaskAtBarrier(plan, s, c, i);
    TaskOnward(plan, s, c, i, e, now);
  }

  lemma TaskGroupVerdict(plan: Plan, s: State, c: nat, i: nat, e: Exit, now: int, k: nat)
    requires Inv(plan, s) && Owner(s) == Some(c) && i < plan.N() && Live(s.calls[c].tasks[i])
    requires k < plan.groups && s.groups[k].prev.runCounter > 0
    ensures var s' := ApplyTask(plan, s, c, i, e, now);
      GroupVerdict(plan, s'.verdicts, s.groups[k].prev.runCounter, k) <==>
      GroupVerdict(plan, s.verdicts, s.groups[k].prev.runCounter, k)
  {
    var s' := ApplyTask(plan, s, c, i, e, now);
    var m: int := s.groups[k].prev.runCounter;
    TaskAtBarrier(plan, s, c, i);
    assert m == GroupRuns(s, k).1;
    forall j: nat | j < plan.N()
      ensures var r := if plan.groupOf[j] <= k then m else m - 1;
        VerdictOf(s'.verdicts, r, j) == VerdictOf(s.verdicts, r, j)
    {
      TaskHistory(plan, s, c, i, e, now, if plan.groupOf[j] <= k then m else m - 1, j);
    }
  }

  lemma TaskGroups(plan: Plan, s: State, c: nat, i: nat, e: Exit, now: int)
    requires Inv(plan, s) && Owner(s) == Some(c) && i < plan.N() && Live(s.calls[c].tasks[i])
    ensures GroupsOk(plan, ApplyTask(plan, s, c, i, e, now))
  {
    var s' := ApplyTask(plan, s, c, i, e, now);
    TaskFrame(plan, s, c, i, e, now, i);
    assert s'.calls[c].pc == s.calls[c].pc && s'.groups == s.groups;
    forall k | 0 <= k < plan.groups
      ensures GroupRuns(s', k) == GroupRuns(s, k)
      ensures s.groups[k].prev.runCounter > 0 ==>
        (GroupVerdict(plan, s'.verdicts, s.groups[k].prev.runCounter, k) <==>
         GroupVerdict(plan, s.verdicts, s.groups[k].prev.runCounter, k))
    {
      if s.groups[k].prev.runCounter > 0 {
        TaskGroupVerdict(plan, s, c, i, e, now, k);
      }
    }
  }

  lemma TaskReaders(plan: Plan, s: State, c: nat, i: nat, e: Exit, now: int)
    requires Shape(plan, s) && ReadersOk(plan, s) && Owner(s) == Some(c) && i < plan.N() && Live(s.calls[c].tasks[i])
    ensures ReadersOk(plan, ApplyTask(plan, s, c, i, e, now))
  {
  }

  lemma TaskKeepsWork(plan: Plan, s: State, c: nat, i: nat, e: Exit, now: int)
    requires Inv(plan, s) && Owner(s) == Some(c) && i < plan.N() && Live(s.calls[c].tasks[i])
    ensures var s' := ApplyTask(plan, s, c, i, e, now);
      CellsOk(plan, s') && CallsOk(plan, s') && RowsOk(plan, s') && ReadersOk(plan, s')
  {
    TaskCells(plan, s, c, i, e, now);
    TaskCalls(plan, s, c, i, e, now);
    TaskReaders(plan, s, c, i, e, now);
  }

  lemma TaskKeepsRecords(plan: Plan, s: State, c: nat, i: nat, e: Exit, now: int)
    requires Inv(plan, s) && Owner(s) == Some(c) && i < plan.N() && Live(s.calls[c].tasks[i])
    ensures var s' := ApplyTask(plan, s, c, i, e, now);
      ScriptOk(plan, s') && GroupsOk(plan, s') && ObserversOk(plan, s')
  {
    TaskOnward(plan, s, c, i, e, now);
    TaskScript(plan, s, c, i, e, now);
    TaskGroups(plan, s, c, i, e, now);
    SnapshotsStay(plan, s, ApplyTask(plan, s, c, i, e, now));
  }

  lemma TaskStepInv(plan: Plan, s: State, c: nat, i: nat, e: Exit, now: int)
    requires Inv(plan, s) && Enabled(plan, s, TaskStep(c, i, e, now))
    ensures Inv(plan, ApplyTask(plan, s, c, i, e, now))
  {
    TaskIsOwned(plan, s, c, i);
    TaskKeepsWork(plan, s, c, i, e, now);
    TaskKeepsRecords(plan, s, c, i, e, now);
  }

  // ----- steps of a call of Run -----

  lemma AdmitCells(plan: Plan, s: State, c: nat, now: int)
    requires Inv(plan, s) && c < |s.calls| && s.calls[c].pc == Arrived && s.script.status != Running
    ensures CellsOk(plan, ApplyCall(plan, s, c, now))
  {
  }

  /** The rows of earlier runs are kept, and that of the last run is complete. */
  lemma AdmitHistory(plan: Plan, s: State, c: nat, now: int)
    requires Inv(plan, s) && c < |s.calls| && s.calls[c].pc == Arrived && s.script.status != Running
    ensures var s' := ApplyCall(plan, s, c, now);
      && Owner(s') == Some(c) && RunNo(s') == RunNo(s) + 1 && Owner(s) == None
      && (forall j | 0 <= j < plan.N() :: Phase(s', j) == NotSpawned)
      && forall m: int, j: nat | j < plan.N() && m <= RunNo(s) ::
           && VerdictOf(s'.verdicts, m, j) == VerdictOf(s.verdicts, m, j)
           && (1 <= m ==> VerdictOf(s.verdicts, m, j).Some?)
  {
  }

  lemma AdmitGroups(plan: Plan, s: State, c: nat, now: int)
    requires Inv(plan, s) && c < |s.calls| && s.calls[c].pc == Arrived && s.script.status != Running
    ensures GroupsOk(plan, ApplyCall(plan, s, c, now))
  {
    var s' := ApplyCall(plan, s, c, now);
    AdmitHistory(plan, s, c, now);
    forall k | 0 <= k < plan.groups
      ensures GroupRuns(s', k) == (RunNo(s), RunNo(s)) == GroupRuns(s, k)
      ensures GroupVerdict(plan, s'.verdicts, RunNo(s), k) <==> GroupVerdict(plan, s.verdicts, RunNo(s), k)
    {
      assert forall i: nat | i < plan.N() ::
          VerdictOf(s'.verdicts, if plan.groupOf[i] <= k then RunNo(s) else RunNo(s) as int - 1, i) ==
          VerdictOf(s.verdicts, if plan.groupOf[i] <= k then RunNo(s) else RunNo(s) as int - 1, i);
    }
  }

  lemma AdmitRest(plan: Plan, s: State, c: nat, now: int)
    requires Inv(plan, s) && c < |s.calls| && s.calls[c].pc == Arrived && s.script.status != Running
    ensures var s' := ApplyCall(plan, s, c, now);
      CallsOk(plan, s') && RowsOk(plan, s') && ScriptOk(plan, s') && ReadersOk(plan, s') && Onward(plan, s, s')
  {
    AdmitHistory(plan, s, c, now);
    HistoryOnward(plan, s, ApplyCall(plan, s, c, now));
  }

  /** Nothing that the invariant looks at has changed, except where the owner stands. */
  ghost predicate SameWork(s: State, s': State) {
    && s'.tasks == s.tasks && s'.script == s.script && s'.groups == s.groups
    && s'.verdicts == s.verdicts && s'.readers <= s.readers && s'.current == s.current
    && |s'.probes| == |s.probes|
    && (forall i | 0 <= i < |s.probes| ::
          && s'.probes[i].cur == s.probes[i].cur && s'.probes[i].last == s.probes[i].last
          && s'.probes[i].data == s.probes[i].data)
  }

  lemma CellKept(c: Cell, c': Cell, n: nat, before: Option<Verdict>, after: Option<Verdict>)
    requires CellOk(c, n, before, after)
    requires c'.pc == c.pc && c'.task == c.task
    requires c'.probe.cur == c.probe.cur && c'.probe.last == c.probe.last && c'.probe.data == c.probe.data
    ensures CellOk(c', n, before, after)
  {
  }

  lemma KeptCells(plan: Plan, s: State, s': State)
    requires Inv(plan, s) && Shape(plan, s') && SameWork(s, s')
    requires forall i | 0 <= i < plan.N() :: Phase(s', i) == Phase(s, i)
    ensures CellsOk(plan, s')
  {
    var n: int := RunNo(s);
    forall j | 0 <= j < plan.N()
      ensures CellOk(Cell(Phase(s', j), s'.tasks[j], s'.probes[j]), RunNo(s'),
                     VerdictOf(s'.verdicts, RunNo(s') - 1, j), VerdictOf(s'.verdicts, RunNo(s'), j))
    {
      CellKept(Cell(Phase(s, j), s.tasks[j], s.probes[j]), Cell(Phase(s', j), s'.tasks[j], s'.probes[j]),
               n, VerdictOf(s.verdicts, n - 1, j), VerdictOf(s.verdicts, n, j));
    }
  }

  lemma KeptGroups(plan: Plan, s: State, s': State)
    requires Inv(plan, s) && Shape(plan, s') && SameWork(s, s') && Owner(s') == Owner(s)
    requires Owner(s).Some? ==> Owner(s).value < |s'.calls| && s'.calls[Owner(s).value] == s.calls[Owner(s).value]
    ensures GroupsOk(plan, s') && ScriptOk(plan, s') && RowsOk(plan, s')
  {
  }

  /** A step that changes neither work nor the owner keeps all that the invariant says about them. */
  lemma Kept(plan: Plan, s: State, s': State)
    requires Inv(plan, s) && Shape(plan, s') && SameWork(s, s') && Owner(s') == Owner(s)
    requires Owner(s).Some? ==> Owner(s).value < |s'.calls| && s'.calls[Owner(s).value] == s.calls[Owner(s).value]
    ensures CellsOk(plan, s') && GroupsOk(plan, s') && ScriptOk(plan, s') && RowsOk(plan, s')
    ensures Onward(plan, s, s')
    ensures forall b | b in s'.readers ::
      b.1 <= s'.probes[b.0].cur.runCounter
      && ((Phase(s', b.0).Launching? || Phase(s', b.0).Probing?) ==> b.1 < s'.probes[b.0].cur.runCounter)
  {
    assert forall i | 0 <= i < plan.N() :: Phase(s', i) == Phase(s, i);
    KeptCells(plan, s, s');
    KeptGroups(plan, s, s');
  }

  /** A step of a call that is not active, before and after. */
  lemma OutsideInv(plan: Plan, s: State, s': State, c: nat)
    requires Inv(plan, s) && Shape(plan, s') && SameWork(s, s') && s'.observers == s.observers
    requires c < |s.calls| && |s'.calls| == |s.calls|
    requires s'.calls == s.calls[c := s'.calls[c]] && s'.calls[c].tasks == s.calls[c].tasks
    requires !Active(s.calls[c].pc) && !Active(s'.calls[c].pc)
    requires s'.calls[c].pc != Creating && (s'.calls[c].pc == Arrived ==> s.calls[c].pc == Creating)
    ensures Inv(plan, s')
  {
    assert Owner(s') == Owner(s);
    Kept(plan, s, s');
    assert CallsOk(plan, s');
    SnapshotsStay(plan, s, s');
  }

  /** The goroutines of call c are as they should be when it stands at pc. */
  ghost predicate AllStaged(plan: Plan, s: State, c: nat, pc: CallPc)
    requires Shape(plan, s) && c < |s.calls|
  {
    forall i | 0 <= i < plan.N() :: Staged(plan, pc, i, s.calls[c].tasks[i])
  }

  /** For call c to stand at pc means the same number of runs for every group. */
  ghost predicate SameRuns(plan: Plan, s: State, c: nat, pc: CallPc)
    requires Shape(plan, s) && c < |s.calls|
  {
    forall k | 0 <= k < plan.groups :: GroupRuns(Moved(s, c, pc), k) == GroupRuns(s, k)
  }

  lemma MovedCalls(plan: Plan, s: State, c: nat, pc: CallPc)
    requires Shape(plan, s) && CallsOk(plan, s) && Owner(s) == Some(c) && Active(pc) && PcOk(plan, pc)
    requires AllStaged(plan, s, c, pc)
    ensures CallsOk(plan, Moved(s, c, pc)) && Owner(Moved(s, c, pc)) == Some(c)
  {
  }

  lemma MovedCells(plan: Plan, s: State, c: nat, pc: CallPc)
    requires Shape(plan, s) && CellsOk(plan, s) && ReadersOk(plan, s) && RowsOk(plan, s) && ObserversOk(plan, s)
    requires Owner(s) == Some(c) && Active(pc) && PcOk(plan, pc)
    ensures var s' := Moved(s, c, pc);
      CellsOk(plan, s') && ReadersOk(plan, s') && RowsOk(plan, s') && ObserversOk(plan, s')
  {
    var s' := Moved(s, c, pc);
    assert forall i | 0 <= i < plan.N() :: Phase(s', i) == Phase(s, i);
  }

  lemma MovedGroups(plan: Plan, s: State, c: nat, pc: CallPc)
    requires Shape(plan, s) && GroupsOk(plan, s) && Owner(s) == Some(c) && PcOk(plan, pc)
    requires SameRuns(plan, s, c, pc)
    ensures GroupsOk(plan, Moved(s, c, pc))
  {
  }

  ghost predicate FoldsSoFar(s: State, pc: CallPc) {
    match pc
    case Folding(_, j, acc) => j <= |s.tasks| && FoldSoFar(s, j, acc)
    case Judging(j, acc) => j <= |s.tasks| && FoldSoFar(s, j, acc)
    case _ => true
  }

  /** A step of the owner that leaves tasks, goroutines, probes, groups and script alone. */
  lemma OwnerMoves(plan: Plan, s: State, c: nat, pc: CallPc)
    requires Inv(plan, s) && Owner(s) == Some(c) && Active(pc) && PcOk(plan, pc)
    requires AllStaged(plan, s, c, pc) && SameRuns(plan, s, c, pc) && FoldsSoFar(s, pc)
    ensures Inv(plan, Moved(s, c, pc))
  {
    MovedCalls(plan, s, c, pc);
    MovedCells(plan, s, c, pc);
    MovedGroups(plan, s, c, pc);
  }

  /** The group worker asked before a group is never running: the inner guard does not reject. */
  lemma GroupAdmitted(plan: Plan, s: State, c: nat)
    requires Inv(plan, s) && Owner(s) == Some(c) && s.calls[c].pc.Entering? && s.calls[c].pc.k < plan.groups
    ensures s.groups[s.calls[c].pc.k].status != Running
  {
  }

  lemma EnterCells(plan: Plan, s: State, c: nat, now: int)
    requires Inv(plan, s) && Owner(s) == Some(c) && s.calls[c].pc.Entering? && s.calls[c].pc.k < plan.groups
    requires s.groups[s.calls[c].pc.k].status != Running
    ensures var s' := ApplyCall(plan, s, c, now);
      && Owner(s') == Some(c) && RunNo(s') == RunNo(s)
      && CellsOk(plan, s') && ReadersOk(plan, s')
  {
    var s' := ApplyCall(plan, s, c, now);
    var n: int := RunNo(s);
    forall j | 0 <= j < plan.N()
      ensures CellOk(CellOf(s', c, j), n, VerdictOf(s'.verdicts, n - 1, j), VerdictOf(s'.verdicts, n, j))
      ensures Phase(s', j) == Phase(s, j) || Phase(s', j) == Spawned
    {
      CellHere(plan, s, c, j);
      assert Staged(plan, s.calls[c].pc, j, s.calls[c].tasks[j]);
    }
    CellsThere(plan, s', c);
  }

  lemma EnterCalls(plan: Plan, s: State, c: nat, now: int)
    requires Shape(plan, s) && CallsOk(plan, s) && Owner(s) == Some(c)
    requires s.calls[c].pc.Entering? && s.calls[c].pc.k < plan.groups
    requires s.groups[s.calls[c].pc.k].status != Running
    ensures CallsOk(plan, ApplyCall(plan, s, c, now))
  {
  }

  lemma EnterGroups(plan: Plan, s: State, c: nat, now: int)
    requires Shape(plan, s) && GroupsOk(plan, s) && Owner(s) == Some(c) && RunNo(s) >= 1
    requires s.calls[c].pc.Entering? && s.calls[c].pc.k < plan.groups
    requires s.groups[s.calls[c].pc.k].status != Running
    ensures GroupsOk(plan, ApplyCall(plan, s, c, now))
  {
  }

  lemma EnterInv(plan: Plan, s: State, c: nat, now: int)
    requires Inv(plan, s) && Owner(s) == Some(c) && s.calls[c].pc.Entering? && s.calls[c].pc.k < plan.groups
    ensures Inv(plan, ApplyCall(plan, s, c, now))
  {
    GroupAdmitted(plan, s, c);
    EnterCells(plan, s, c, now);
    EnterCalls(plan, s, c, now);
    EnterGroups(plan, s, c, now);
    SnapshotsStay(plan, s, ApplyCall(plan, s, c, now));
  }

  /** When every task of the groups up to k has gone, the fold over all tasks is the group's recorded verdict. */
  lemma FoldIsGroupVerdict(plan: Plan, s: State, c: nat, k: nat)
    requires Inv(plan, s) && Owner(s) == Some(c) && s.calls[c].pc.Folding? && s.calls[c].pc.k == k
    ensures (forall t | 0 <= t < plan.N() :: s.tasks[t].cur.success) <==> GroupVerdict(plan, s.verdicts, RunNo(s), k)
  {
    var n: int := RunNo(s);
    forall t: nat | t < plan.N()
      ensures var v := VerdictOf(s.verdicts, if plan.groupOf[t] <= k then n else n - 1, t);
        s.tasks[t].cur.success <==> v.Some? && v.value.succ
    {
      assert CellOk(Cell(Phase(s, t), s.tasks[t], s.probes[t]), n,
                    VerdictOf(s.verdicts, n - 1, t), VerdictOf(s.verdicts, n, t));
      assert Staged(plan, s.calls[c].pc, t, s.calls[c].tasks[t]);
    }
  }

  /** Only group k has one more finished run. */
  lemma CloseGroupRuns(plan: Plan, s: State, c: nat, now: int)
    requires Shape(plan, s) && Owner(s) == Some(c) && RunNo(s) >= 1
    requires s.calls[c].pc.Folding? && s.calls[c].pc.j == plan.N()
    ensures var s' := ApplyCall(plan, s, c, now); var k := s.calls[c].pc.k;
      && Owner(s') == Some(c) && RunNo(s') == RunNo(s) && s'.verdicts == s.verdicts
      && s'.groups == s.groups[k := s.groups[k].Finish(s.calls[c].pc.acc, now)]
      && GroupRuns(s, k) == (RunNo(s), RunNo(s) - 1) && GroupRuns(s', k) == (RunNo(s), RunNo(s))
      && forall m: nat | m < plan.groups && m != k :: GroupRuns(s', m) == GroupRuns(s, m)
  {
  }

  lemma CloseGroupGroups(plan: Plan, s: State, c: nat, now: int)
    requires Inv(plan, s) && Owner(s) == Some(c) && s.calls[c].pc.Folding? && s.calls[c].pc.j == plan.N()
    ensures GroupsOk(plan, ApplyCall(plan, s, c, now))
  {
    FoldIsGroupVerdict(plan, s, c, s.calls[c].pc.k);
    CloseGroupRuns(plan, s, c, now);
  }

  lemma CloseGroupInv(plan: Plan, s: State, c: nat, now: int)
    requires Inv(plan, s) && Owner(s) == Some(c) && s.calls[c].pc.Folding? && s.calls[c].pc.j == plan.N()
    ensures Inv(plan, ApplyCall(plan, s, c, now))
  {
    var s' := ApplyCall(plan, s, c, now);
    assert Owner(s') == Some(c) && RunNo(s') == RunNo(s);
    forall j | 0 <= j < plan.N()
      ensures CellOk(CellOf(s', c, j), RunNo(s'),
                     VerdictOf(s'.verdicts, RunNo(s') - 1, j), VerdictOf(s'.verdicts, RunNo(s'), j))
      ensures Staged(plan, s'.calls[c].pc, j, s'.calls[c].tasks[j])
      ensures Phase(s', j) == Phase(s, j)
    {
      CellHere(plan, s, c, j);
      assert Staged(plan, s.calls[c].pc, j, s.calls[c].tasks[j]);
    }
    CellsThere(plan, s', c);
    CloseGroupGroups(plan, s, c, now);
    SnapshotsStay(plan, s, s');
  }

  /** When every task has gone, the fold over all tasks is the conjunction of this run's verdicts. */
  lemma FoldIsScriptVerdict(plan: Plan, s: State, c: nat)
    requires Inv(plan, s) && Owner(s) == Some(c) && s.calls[c].pc.Judging?
    ensures (forall t | 0 <= t < plan.N() :: s.tasks[t].cur.success) <==> AllSucceeded(plan, s.verdicts, RunNo(s))
    ensures forall t: nat | t < plan.N() :: VerdictOf(s.verdicts, RunNo(s), t).Some?
  {
  }

  lemma CloseScriptCells(plan: Plan, s: State, c: nat, now: int)
    requires Inv(plan, s) && Owner(s) == Some(c) && s.calls[c].pc.Judging? && s.calls[c].pc.j == plan.N()
    ensures var s' := ApplyCall(plan, s, c, now); CellsOk(plan, s') && CallsOk(plan, s') && ReadersOk(plan, s')
  {
  }

  lemma CloseScriptInv(plan: Plan, s: State, c: nat, now: int)
    requires Inv(plan, s) && Owner(s) == Some(c) && s.calls[c].pc.Judging? && s.calls[c].pc.j == plan.N()
    ensures Inv(plan, ApplyCall(plan, s, c, now))
  {
    var s' := ApplyCall(plan, s, c, now);
    assert Owner(s') == None && RunNo(s') == RunNo(s);
    FoldIsScriptVerdict(plan, s, c);
    CloseScriptCells(plan, s, c, now);
    assert ScriptOk(plan, s');
    assert GroupsOk(plan, s') by {
      assert forall m | 0 <= m < plan.groups :: GroupRuns(s', m) == GroupRuns(s, m) && s'.groups[m] == s.groups[m];
    }
    SnapshotsStay(plan, s, s');
  }

  /** Both outcomes of the first step of a call. */
  lemma ArrivedInv(plan: Plan, s: State, c: nat, now: int)
    requires Inv(plan, s) && c < |s.calls| && s.calls[c].pc == Arrived
    ensures Inv(plan, ApplyCall(plan, s, c, now))
  {
    var s' := ApplyCall(plan, s, c, now);
    if s.script.status == Running {
      OutsideInv(plan, s, s', c);
    } else {
      AdmitCells(plan, s, c, now);
      AdmitRest(plan, s, c, now);
      AdmitGroups(plan, s, c, now);
      SnapshotsStay(plan, s, s');
    }
  }

  lemma BarrierInv(plan: Plan, s: State, c: nat, now: int)
    requires Inv(plan, s) && Owner(s) == Some(c) && s.calls[c].pc.Waiting? && Enabled(plan, s, CallStep(c, now))
    ensures Inv(plan, ApplyCall(plan, s, c, now))
  {
    var pc := s.calls[c].pc;
    forall i | 0 <= i < plan.N()
      ensures Staged(plan, Folding(pc.k, 0, true), i, s.calls[c].tasks[i])
    {
      assert Staged(plan, pc, i, s.calls[c].tasks[i]);
    }
    OwnerMoves(plan, s, c, Folding(pc.k, 0, true));
  }

  lemma FoldOn(s: State, j: nat, acc: bool)
    requires j < |s.tasks| && FoldSoFar(s, j, acc)
    ensures FoldSoFar(s, j + 1, acc && s.tasks[j].cur.success)
  {
  }

  /** Moving on within one fold changes no stage. */
  lemma SameStage(plan: Plan, s: State, c: nat, pc: CallPc, pc': CallPc)
    requires Shape(plan, s) && Owner(s) == Some(c) && s.calls[c].pc == pc
    requires AllStaged(plan, s, c, pc)
    requires (pc.Folding? && pc'.Folding? && pc'.k == pc.k) || (pc.Judging? && pc'.Judging?)
    ensures AllStaged(plan, s, c, pc') && SameRuns(plan, s, c, pc')
  {
  }

  lemma FoldGroupInv(plan: Plan, s: State, c: nat, now: int)
    requires Inv(plan, s) && Owner(s) == Some(c) && s.calls[c].pc.Folding? && s.calls[c].pc.j < plan.N()
    ensures Inv(plan, ApplyCall(plan, s, c, now))
  {
    var pc := s.calls[c].pc;
    var acc := pc.acc && s.tasks[pc.j].cur.success;
    FoldOn(s, pc.j, pc.acc);
    SameStage(plan, s, c, pc, Folding(pc.k, pc.j + 1, acc));
    assert ApplyCall(plan, s, c, now) == Moved(s, c, Folding(pc.k, pc.j + 1, acc));
    OwnerMoves(plan, s, c, Folding(pc.k, pc.j + 1, acc));
  }

  lemma FoldScriptInv(plan: Plan, s: State, c: nat, now: int)
    requires Inv(plan, s) && Owner(s) == Some(c) && s.calls[c].pc.Judging? && s.calls[c].pc.j < plan.N()
    ensures Inv(plan, ApplyCall(plan, s, c, now))
  {
    var pc := s.calls[c].pc;
    var acc := pc.acc && s.tasks[pc.j].cur.success;
    FoldOn(s, pc.j, pc.acc);
    SameStage(plan, s, c, pc, Judging(pc.j + 1, acc));
    assert ApplyCall(plan, s, c, now) == Moved(s, c, Judging(pc.j + 1, acc));
    OwnerMoves(plan, s, c, Judging(pc.j + 1, acc));
  }

  lemma LastGroupInv(plan: Plan, s: State, c: nat, now: int)
    requires Inv(plan, s) && Owner(s) == Some(c) && s.calls[c].pc == Entering(plan.groups)
    ensures Inv(plan, ApplyCall(plan, s, c, now))
  {
    forall i | 0 <= i < plan.N()
      ensures Staged(plan, Judging(0, true), i, s.calls[c].tasks[i])
    {
      assert Staged(plan, s.calls[c].pc, i, s.calls[c].tasks[i]);
    }
    OwnerMoves(plan, s, c, Judging(0, true));
  }

  lemma FirstStepInv(plan: Plan, s: State, c: nat, now: int)
    requires Inv(plan, s) && c < |s.calls| && (s.calls[c].pc.Creating? || s.calls[c].pc.Arrived?)
    ensures Inv(plan, ApplyCall(plan, s, c, now))
  {
    if s.calls[c].pc.Creating? {
      OutsideInv(plan, s, ApplyCall(plan, s, c, now), c);
    } else {
      ArrivedInv(plan, s, c, now);
    }
  }

  lemma GroupStepInv(plan: Plan, s: State, c: nat, now: int)
    requires Inv(plan, s) && Owner(s) == Some(c) && Enabled(plan, s, CallStep(c, now))
    requires s.calls[c].pc.Entering? || s.calls[c].pc.Waiting? || s.calls[c].pc.Folding?
    ensures Inv(plan, ApplyCall(plan, s, c, now))
  {
    var pc := s.calls[c].pc;
    if pc.Waiting? {
      BarrierInv(plan, s, c, now);
    } else if pc.Entering? {
      if pc.k == plan.groups {
        LastGroupInv(plan, s, c, now);
      } else {
        EnterInv(plan, s, c, now);
      }
    } else if pc.j < plan.N() {
      FoldGroupInv(plan, s, c, now);
    } else {
      CloseGroupInv(plan, s, c, now);
    }
  }

  lemma JudgingInv(plan: Plan, s: State, c: nat, now: int)
    requires Inv(plan, s) && Owner(s) == Some(c) && s.calls[c].pc.Judging?
    ensures Inv(plan, ApplyCall(plan, s, c, now))
  {
    if s.calls[c].pc.j < plan.N() {
      FoldScriptInv(plan, s, c, now);
    } else {
      CloseScriptInv(plan, s, c, now);
    }
  }

  lemma CallStepInv(plan: Plan, s: State, c: nat, now: int)
    requires Inv(plan, s) && Enabled(plan, s, CallStep(c, now))
    ensures Inv(plan, ApplyCall(plan, s, c, now))
  {
    var pc := s.calls[c].pc;
    if pc.Creating? || pc.Arrived? {
      FirstStepInv(plan, s, c, now);
    } else if pc.Draining? || pc.Finishing? {
      OutsideInv(plan, s, ApplyCall(plan, s, c, now), c);
    } else {
      ActiveOwns(plan, s, c);
      if pc.Judging? {
        JudgingInv(plan, s, c, now);
      } else {
        GroupStepInv(plan, s, c, now);
      }
    }
  }

  lemma ActiveOwns(plan: Plan, s: State, c: nat)
    requires Inv(plan, s) && c < |s.calls| && Active(s.calls[c].pc)
    ensures Owner(s) == Some(c)
  {
  }

  // ----- goroutines while calls step -----

  lemma OwnerPhases(plan: Plan, s: State, c: nat, now: int)
    requires Shape(plan, s) && CallsOk(plan, s) && Enabled(plan, s, CallStep(c, now)) && Owner(s) == Some(c)
    ensures var s' := ApplyCall(plan, s, c, now);
      forall i | 0 <= i < plan.N() ::
        Phase(s', i) == Phase(s, i) || (Phase(s, i) == NotSpawned && Phase(s', i) == Spawned)
  {
  }

  lemma OtherPhases(plan: Plan, s: State, c: nat, now: int)
    requires Shape(plan, s) && CallsOk(plan, s) && Enabled(plan, s, CallStep(c, now)) && Owner(s) != Some(c)
    ensures var s' := ApplyCall(plan, s, c, now);
      forall i | 0 <= i < plan.N() ::
        Phase(s', i) == Phase(s, i) || (Phase(s, i) == Gone && Phase(s', i) == NotSpawned)
  {
  }

  // ----- the other steps -----

  lemma ArriveInv(plan: Plan, s: State)
    requires Inv(plan, s)
    ensures Inv(plan, Apply(plan, s, Arrive))
  {
    var s' := Apply(plan, s, Arrive);
    assert Owner(s') == Owner(s);
    Kept(plan, s, s');
    assert CallsOk(plan, s');
    SnapshotsStay(plan, s, s');
  }

  lemma ReaderInv(plan: Plan, s: State, i: nat, proc: nat, now: int)
    requires Inv(plan, s) && (i, proc) in s.readers
    ensures Inv(plan, ApplyReader(s, i, proc, now))
  {
    var s' := ApplyReader(s, i, proc, now);
    assert Owner(s') == Owner(s);
    Kept(plan, s, s');
    assert CallsOk(plan, s');
    SnapshotsStay(plan, s, s');
  }

  /** Finished counters never fall from script to task to probe: what makes a non-atomic read ordered. */
  lemma CountersDescend(plan: Plan, s: State, i: nat)
    requires Inv(plan, s) && i < plan.N()
    ensures s.script.prev.runCounter <= s.tasks[i].prev.runCounter <= s.probes[i].last.runCounter <= RunNo(s)
    ensures Carries(s.tasks[i].prev, s.tasks[i].prev.runCounter, VerdictOf(s.verdicts, s.tasks[i].prev.runCounter, i))
    ensures LastIs(s.probes[i], s.probes[i].last.runCounter, VerdictOf(s.verdicts, s.probes[i].last.runCounter, i))
  {
  }

  /** One more read extends a good snapshot to a good snapshot. */
  lemma TaskRead(plan: Plan, s: State, v: Snapshot)
    requires Shape(plan, s) && SnapshotOk(plan, s, v) && |v.probes| == |v.tasks| < plan.N()
    requires s.script.prev.runCounter <= s.tasks[|v.tasks|].prev.runCounter
    requires var r := s.tasks[|v.tasks|].prev; Carries(r, r.runCounter, VerdictOf(s.verdicts, r.runCounter, |v.tasks|))
    ensures SnapshotOk(plan, s, v.(tasks := v.tasks + [s.tasks[|v.tasks|].prev]))
  {
  }

  lemma ProbeRead(plan: Plan, s: State, v: Snapshot)
    requires Shape(plan, s) && SnapshotOk(plan, s, v) && |v.probes| + 1 == |v.tasks| <= plan.N()
    requires s.tasks[|v.probes|].prev.runCounter <= s.probes[|v.probes|].last.runCounter
    requires var p := s.probes[|v.probes|];
      LastIs(p, p.last.runCounter, VerdictOf(s.verdicts, p.last.runCounter, |v.probes|))
    ensures SnapshotOk(plan, s, v.(probes := v.probes + [(s.probes[|v.probes|].last, s.probes[|v.probes|].data)]))
  {
  }

  lemma ObserveGrows(plan: Plan, s: State, r: nat)
    requires Inv(plan, s) && Enabled(plan, s, ObserveMore(r))
    ensures SnapshotOk(plan, s, ApplyObserveMore(s, r).observers[r])
  {
    var v := s.observers[r];
    assert SnapshotOk(plan, s, v);
    CountersDescend(plan, s, |v.probes|);
    if |v.probes| < |v.tasks| {
      ProbeRead(plan, s, v);
    } else {
      TaskRead(plan, s, v);
    }
  }

  /** Whether a snapshot is good depends only on finished records and history. */
  lemma SnapshotLocal(plan: Plan, s: State, s': State, v: Snapshot)
    requires Shape(plan, s) && Shape(plan, s') && SnapshotOk(plan, s, v)
    requires s'.script == s.script && s'.tasks == s.tasks && s'.probes == s.probes && s'.verdicts == s.verdicts
    ensures SnapshotOk(plan, s', v)
  {
  }

  /** A step of an observer changes nothing but the observers. */
  lemma QuietInv(plan: Plan, s: State, s': State)
    requires Inv(plan, s) && Shape(plan, s') && s' == s.(observers := s'.observers)
    requires forall r | 0 <= r < |s'.observers| :: SnapshotOk(plan, s, s'.observers[r])
    ensures Inv(plan, s')
  {
    Kept(plan, s, s');
    assert CallsOk(plan, s');
    forall r | 0 <= r < |s'.observers|
      ensures SnapshotOk(plan, s', s'.observers[r])
    {
      SnapshotLocal(plan, s, s', s'.observers[r]);
    }
  }

  lemma ObserveInv(plan: Plan, s: State)
    requires Inv(plan, s)
    ensures Inv(plan, Apply(plan, s, Observe))
  {
    QuietInv(plan, s, Apply(plan, s, Observe));
  }

  lemma ObserveMoreInv(plan: Plan, s: State, r: nat)
    requires Inv(plan, s) && Enabled(plan, s, ObserveMore(r))
    ensures Inv(plan, Apply(plan, s, ObserveMore(r)))
  {
    ObserveGrows(plan, s, r);
    QuietInv(plan, s, Apply(plan, s, ObserveMore(r)));
  }

  /** Every enabled step keeps the invariant. */
  lemma StepInv(plan: Plan, s: State, a: Action)
    requires Inv(plan, s) && Enabled(plan, s, a)
    ensures Inv(plan, Apply(plan, s, a))
  {
    match a
    case Arrive => ArriveInv(plan, s);
    case CallStep(c, now) => CallStepInv(plan, s, c, now);
    case TaskStep(c, i, e, now) => TaskStepInv(plan, s, c, i, e, now);
    case ReaderEnds(i, proc, now) => ReaderInv(plan, s, i, proc, now);
    case Observe => ObserveInv(plan, s);
    case ObserveMore(r) => ObserveMoreInv(plan, s, r);
  }

  lemma {:induction false} RunsInv(plan: Plan, s: State, acts: seq<Action>)
    requires Inv(plan, s) && Runs(plan, s, acts)
    ensures Inv(plan, After(plan, s, acts))
    decreases |acts|
  {
    if acts != [] {
      StepInv(plan, s, acts[0]);
      RunsInv(plan, Apply(plan, s, acts[0]), acts[1..]);
    }
  }

  /** Every state that any schedule reaches satisfies the invariant. */
  lemma ReachedInv(plan: Plan, acts: seq<Action>)
    requires Schedule(plan, acts)
    ensures Inv(plan, Reached(plan, acts))
  {
    InitInv(plan);
    RunsInv(plan, Init(plan), acts);
  }
}
