/** The invariant of every interleaving of the run engine, and its preservation by every step. */
module EngineInvariant {
  import opened Records
  import opened Probe
  import opened Engine

  /** The call between its accepted start and its recorded end, if there is one. */
  function Owner(s: State): Option<nat>
    requires s.current.Some? ==> s.current.value < |s.calls|
  {
    if s.current.Some? && Active(s.calls[s.current.value].pc) then s.current else None
  }

  /** The number of accepted runs. */
  function RunNo(s: State): nat {
    s.script.cur.runCounter
  }

  /** What the runner of probe i returned in run n, if it has. */
  function VerdictOf(rows: seq<seq<Option<Verdict>>>, n: int, i: nat): Option<Verdict> {
    if 1 <= n <= |rows| && i < |rows[n - 1]| then rows[n - 1][i] else None
  }

  /** The goroutine position of task i in the run in progress; without one every task has gone. */
  function Phase(s: State, i: nat): TaskPc
    requires s.current.Some? ==> s.current.value < |s.calls|
    requires forall c | 0 <= c < |s.calls| :: i < |s.calls[c].tasks|
  {
    if Owner(s).Some? then s.calls[Owner(s).value].tasks[i] else Gone
  }

  // ----- one task -----

  /** A finished record with counter n that carries the verdict v (none for n == 0). */
  predicate Carries(r: Result, n: nat, v: Option<Verdict>) {
    && r.runCounter == n
    && (n > 0 ==> v.Some? && r.success == v.value.succ)
    && (n == 0 ==> !r.success)
  }

  predicate LastIs(p: ProbeState, n: nat, v: Option<Verdict>) {
    && Carries(p.last, n, v)
    && (n > 0 ==> p.data == v.value.data)
  }

  /** Task and probe are at rest after n runs, the last of which returned v. */
  predicate Settled(w: WorkerState, p: ProbeState, n: nat, v: Option<Verdict>) {
    && w.status == (if n == 0 then New else Finished)
    && w.cur == w.prev
    && Carries(w.prev, n, v)
    && p.cur.runCounter == n
    && LastIs(p, n, v)
  }

  predicate InProgress(w: WorkerState, n: nat, before: Option<Verdict>) {
    && n >= 1
    && w.status == Running
    && w.cur.runCounter == n
    && Carries(w.prev, n - 1, before)
  }

  /** The state of one task in run n at each goroutine position; `before` and `after` are the verdicts returned in
      runs n - 1 and n. */
  predicate CellOk(c: Cell, n: nat, before: Option<Verdict>, after: Option<Verdict>) {
    match c.pc
    case NotSpawned => n >= 1 && Settled(c.task, c.probe, n - 1, before) && after == None
    case Spawned => n >= 1 && Settled(c.task, c.probe, n - 1, before) && after == None
    case Admitted =>
      InProgress(c.task, n, before) && c.probe.cur.runCounter == n - 1
      && LastIs(c.probe, n - 1, before) && after == None
    case Preparing =>
      InProgress(c.task, n, before) && c.probe.cur.runCounter == n - 1
      && LastIs(c.probe, n - 1, before) && after == None
    case Launching =>
      InProgress(c.task, n, before) && c.probe.cur.runCounter == n
      && LastIs(c.probe, n - 1, before) && after == None
    case Probing(_) =>
      InProgress(c.task, n, before) && c.probe.cur.runCounter == n
      && LastIs(c.probe, n - 1, before) && after == None
    case Settling(succ, data, _) =>
      InProgress(c.task, n, before) && c.probe.cur.runCounter == n
      && LastIs(c.probe, n - 1, before) && after == Some(Verdict(succ, data))
    case Recording(succ, data) =>
      InProgress(c.task, n, before) && c.probe.cur.runCounter == n
      && LastIs(c.probe, n - 1, before) && after == Some(Verdict(succ, data))
    case Ending(succ) =>
      InProgress(c.task, n, before) && c.probe.cur.runCounter == n
      && LastIs(c.probe, n, after) && succ == after.value.succ
    case Checking => Settled(c.task, c.probe, n, after)
    case Queueing => Settled(c.task, c.probe, n, after)
    case Gone => Settled(c.task, c.probe, n, after)
  }

  /** The verdict of run n after one more step of the goroutine. */
  function NewVerdict(o: Options, c: Cell, e: Exit, v: Option<Verdict>): Option<Verdict> {
    match c.pc
    case Probing(busy) => var eff := ExitEffect(o, busy, e); Some(Verdict(eff.succ, eff.data))
    case _ => v
  }

  lemma CellStepOk(o: Options, c: Cell, e: Exit, now: int, n: nat, before: Option<Verdict>, after: Option<Verdict>)
    requires Live(c.pc) && CellOk(c, n, before, after)
    ensures CellOk(CellStep(o, c, e, now), n, before, NewVerdict(o, c, e, after))
  {
  }

  // ----- the whole state -----

  /** Which goroutines have been started and which have gone, group by group. */
  predicate Staged(plan: Plan, pc: CallPc, i: nat, t: TaskPc)
    requires i < plan.N()
  {
    match pc
    case Entering(k) => t == if plan.groupOf[i] < k then Gone else NotSpawned
    case Waiting(k) =>
      (plan.groupOf[i] < k ==> t == Gone) && (plan.groupOf[i] == k ==> t != NotSpawned)
      && (plan.groupOf[i] > k ==> t == NotSpawned)
    case Folding(k, _, _) => t == if plan.groupOf[i] <= k then Gone else NotSpawned
    case Judging(_, _) => t == Gone
    case _ => true
  }

  ghost predicate CallsOk(plan: Plan, s: State)
    requires Shape(plan, s)
  {
    && |s.verdicts| == RunNo(s)
    && (s.script.status == Running <==> Owner(s).Some?)
    && (Owner(s).Some? ==> RunNo(s) >= 1)
    && (forall c | 0 <= c < |s.calls| :: Active(s.calls[c].pc) ==> s.current == Some(c))
    && (forall c, i | 0 <= c < |s.calls| && 0 <= i < plan.N() :: Owner(s) != Some(c) ==> !Live(s.calls[c].tasks[i]))
    && (forall c, i | 0 <= c < |s.calls| && 0 <= i < plan.N() ::
          s.calls[c].pc == Arrived || s.calls[c].pc == Creating ==> s.calls[c].tasks[i] == NotSpawned)
    && (Owner(s).Some? ==> forall i | 0 <= i < plan.N() ::
          Staged(plan, s.calls[Owner(s).value].pc, i, s.calls[Owner(s).value].tasks[i]))
  }

  ghost predicate CellsOk(plan: Plan, s: State)
    requires Shape(plan, s)
  {
    forall i | 0 <= i < plan.N() ::
      CellOk(Cell(Phase(s, i), s.tasks[i], s.probes[i]), RunNo(s),
             VerdictOf(s.verdicts, RunNo(s) - 1, i), VerdictOf(s.verdicts, RunNo(s), i))
  }

  /** Every row but the one of the run in progress is complete. */
  ghost predicate RowsOk(plan: Plan, s: State)
    requires Shape(plan, s)
  {
    forall n, i | 1 <= n < RunNo(s) && 0 <= i < plan.N() :: VerdictOf(s.verdicts, n, i).Some?
  }

  /** The conjunction of the verdicts returned in run n. */
  ghost predicate AllSucceeded(plan: Plan, rows: seq<seq<Option<Verdict>>>, n: nat) {
    forall i: nat | i < plan.N() :: VerdictOf(rows, n, i).Some? && VerdictOf(rows, n, i).value.succ
  }

  ghost predicate FoldSoFar(s: State, j: nat, acc: bool)
    requires j <= |s.tasks|
  {
    acc <==> forall t | 0 <= t < j :: s.tasks[t].cur.success
  }

  ghost predicate ScriptOk(plan: Plan, s: State)
    requires Shape(plan, s)
  {
    && (s.script.status == New <==> RunNo(s) == 0)
    && s.script.prev.runCounter == (if Owner(s).Some? then RunNo(s) - 1 else RunNo(s))
    && (s.script.prev.runCounter > 0 ==>
          (s.script.prev.success <==> AllSucceeded(plan, s.verdicts, s.script.prev.runCounter)))
    && (s.script.status == Finished ==> s.script.cur == s.script.prev)
    && (Owner(s).Some? ==>
          match s.calls[Owner(s).value].pc
          case Folding(_, j, acc) => FoldSoFar(s, j, acc)
          case Judging(j, acc) => FoldSoFar(s, j, acc)
          case _ => true)
  }

  /** What group k records in run n: the verdicts of run n for the groups up to k, and whatever run n - 1 left for
      the later ones. */
  ghost predicate GroupVerdict(plan: Plan, rows: seq<seq<Option<Verdict>>>, n: nat, k: nat)
    requires plan.Valid()
  {
    forall i: nat | i < plan.N() ::
      var v := VerdictOf(rows, if plan.groupOf[i] <= k then n else n - 1, i); v.Some? && v.value.succ
  }

  /** How often group k has been started and finished. */
  function GroupRuns(s: State, k: nat): (nat, nat)
    requires s.current.Some? ==> s.current.value < |s.calls|
  {
    var n := RunNo(s);
    if Owner(s).None? || n == 0 then (n, n)
    else
      match s.calls[Owner(s).value].pc
      case Entering(m) => if k < m then (n, n) else (n - 1, n - 1)
      case Waiting(m) => if k < m then (n, n) else if k == m then (n, n - 1) else (n - 1, n - 1)
      case Folding(m, _, _) => if k < m then (n, n) else if k == m then (n, n - 1) else (n - 1, n - 1)
      case _ => (n, n)
  }

  ghost predicate GroupsOk(plan: Plan, s: State)
    requires Shape(plan, s)
  {
    forall k | 0 <= k < plan.groups ::
      && s.groups[k].cur.runCounter == GroupRuns(s, k).0
      && s.groups[k].prev.runCounter == GroupRuns(s, k).1
      && (s.groups[k].status == Running <==> GroupRuns(s, k).0 != GroupRuns(s, k).1)
      && (s.groups[k].prev.runCounter > 0 ==>
            (s.groups[k].prev.success <==> GroupVerdict(plan, s.verdicts, s.groups[k].prev.runCounter, k)))
  }

  /** A snapshot never runs ahead of the state, its counters grow from script to task to probe, and every record
      in it carries exactly what was returned in the run whose number it bears. */
  ghost predicate SnapshotOk(plan: Plan, s: State, v: Snapshot)
    requires Shape(plan, s)
  {
    && v.script.runCounter <= s.script.prev.runCounter
    && (v.script.runCounter > 0 ==> (v.script.success <==> AllSucceeded(plan, s.verdicts, v.script.runCounter)))
    && (forall i | 0 <= i < |v.tasks| && i < plan.N() ::
          && v.script.runCounter <= v.tasks[i].runCounter <= s.tasks[i].prev.runCounter
          && Carries(v.tasks[i], v.tasks[i].runCounter, VerdictOf(s.verdicts, v.tasks[i].runCounter, i)))
    && (forall i | 0 <= i < |v.probes| && i < |v.tasks| && i < plan.N() ::
          && v.tasks[i].runCounter <= v.probes[i].0.runCounter <= s.probes[i].last.runCounter
          && Carries(v.probes[i].0, v.probes[i].0.runCounter, VerdictOf(s.verdicts, v.probes[i].0.runCounter, i))
          && (v.probes[i].0.runCounter > 0 ==>
                v.probes[i].1 == VerdictOf(s.verdicts, v.probes[i].0.runCounter, i).value.data))
  }

  ghost predicate ObserversOk(plan: Plan, s: State)
    requires Shape(plan, s)
  {
    forall r | 0 <= r < |s.observers| :: SnapshotOk(plan, s, s.observers[r])
  }

  /** A background reader belongs to a run whose runner has returned, so no two of them can be confused. */
  ghost predicate ReadersOk(plan: Plan, s: State)
    requires Shape(plan, s)
  {
    forall b | b in s.readers ::
      b.1 <= s.probes[b.0].cur.runCounter
      && ((Phase(s, b.0).Launching? || Phase(s, b.0).Probing?) ==> b.1 < s.probes[b.0].cur.runCounter)
  }

  ghost predicate Inv(plan: Plan, s: State) {
    && Shape(plan, s)
    && CallsOk(plan, s)
    && CellsOk(plan, s)
    && RowsOk(plan, s)
    && ScriptOk(plan, s)
    && GroupsOk(plan, s)
    && ObserversOk(plan, s)
    && ReadersOk(plan, s)
  }

  lemma InitInv(plan: Plan)
    requires plan.Valid()
    ensures Inv(plan, Init(plan))
  {
  }

  // ----- finished records only move forward -----

  /** History grows and finished counters do not fall: all a snapshot taken earlier depends on. */
  ghost predicate Onward(plan: Plan, s: State, s': State)
    requires Shape(plan, s) && Shape(plan, s')
  {
    && s.script.prev.runCounter <= s'.script.prev.runCounter
    && (forall i | 0 <= i < plan.N() ::
          && s.tasks[i].prev.runCounter <= s'.tasks[i].prev.runCounter
          && s.probes[i].last.runCounter <= s'.probes[i].last.runCounter)
    && (forall n: nat, i: nat | i < plan.N() ::
          VerdictOf(s.verdicts, n, i).Some? ==> VerdictOf(s'.verdicts, n, i) == VerdictOf(s.verdicts, n, i))
    && (forall n | 1 <= n <= s.script.prev.runCounter ::
          AllSucceeded(plan, s'.verdicts, n) <==> AllSucceeded(plan, s.verdicts, n))
  }

  lemma SnapshotsStay(plan: Plan, s: State, s': State)
    requires Shape(plan, s) && ObserversOk(plan, s) && Shape(plan, s') && Onward(plan, s, s')
    requires s'.observers == s.observers
    ensures ObserversOk(plan, s')
  {
  }
}
