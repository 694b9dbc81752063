/** The concurrent run engine as a step system: any number of calls of `Run` on one script, one goroutine per
    task and call, background readers of kept processes, and observers that read finished results without a
    global lock. Every section that the program executes under one mutex, and every other shared access,
    is a step of its own. */
module Engine {
  import opened Records
  import opened Probe

  /** The static part: task i belongs to group groupOf[i]; `opts[i]` are the options of its probe. */
  datatype Plan = Plan(groups: nat, groupOf: seq<nat>, opts: seq<Options>) {
    ghost predicate Valid() {
      && |opts| == |groupOf|
      && forall i | 0 <= i < |groupOf| :: groupOf[i] < groups
    }

    function N(): nat {
      |groupOf|
    }
  }

  datatype Verdict = Verdict(succ: bool, data: Data)

  /** Where one goroutine of one call stands. */
  datatype TaskPc =
    | NotSpawned
    | Spawned                                            // before the task asks for the running status
    | Admitted                                           // before the probe asks for the running status
    | Preparing                                          // before the handler's own record is prepared
    | Launching                                          // before the runner looks at its slot
    | Probing(busy: bool)                                // inside the runner
    | Settling(succ: bool, data: Data, panicked: bool)   // the runner is back
    | Recording(succ: bool, data: Data)                  // before the deferred result update
    | Ending(succ: bool)                                 // before the task reports its end
    | Checking                                           // before the liveness test
    | Queueing                                           // found alive, not queued yet
    | Gone                                               // the wait group has been released

  predicate Live(t: TaskPc) {
    t != NotSpawned && t != Gone
  }

  /** Where one call of `Run` stands. */
  datatype CallPc =
    | Creating                                           // has found no queue and is about to create one
    | Arrived                                            // before the script is asked for the running status
    | Rejected
    | Entering(k: nat)                                   // before group k; after the last group: before the verdict
    | Waiting(k: nat)                                    // at the barrier of group k
    | Folding(k: nat, j: nat, acc: bool)                 // reading the task results for group k
    | Judging(j: nat, acc: bool)                         // reading the task results for the script
    | Draining                                           // before the next dequeue
    | Finishing(p: nat)                                  // holding a dequeued probe
    | Left

  /** Between the accepted start and the recorded end of the script. */
  predicate Active(pc: CallPc) {
    pc.Entering? || pc.Waiting? || pc.Folding? || pc.Judging?
  }

  /** From the accepted start to the end of the drain. */
  predicate Serving(pc: CallPc) {
    Active(pc) || pc.Draining? || pc.Finishing?
  }

  predicate Final(pc: CallPc) {
    pc.Rejected? || pc.Left?
  }

  datatype Call = Call(pc: CallPc, tasks: seq<TaskPc>)

  /** A non-atomic `ResultFinished`: the script, then task 0, its probe, task 1, its probe, ... */
  datatype Snapshot = Snapshot(script: Result, tasks: seq<Result>, probes: seq<(Result, Data)>)

  /** `made` says whether a queue has been created. `verdicts`, `current`, `found`, `queued`, `drained` and `dropped`
      are history: they record what the runners returned in each accepted run, the last accepted call, since that call
      was accepted the probes found alive, the probes put into the queue and the probes finished by a drain, and the
      probes in queues that were replaced. */
  datatype State = State(
    script: WorkerState,
    groups: seq<WorkerState>,
    tasks: seq<WorkerState>,
    probes: seq<ProbeState>,
    queue: seq<nat>,
    readers: set<(nat, nat)>,
    calls: seq<Call>,
    observers: seq<Snapshot>,
    verdicts: seq<seq<Option<Verdict>>>,
    current: Option<nat>,
    found: set<nat>,
    queued: seq<nat>,
    drained: seq<nat>,
    made: bool,
    dropped: set<nat>)

  datatype Action =
    | Arrive
    | CallStep(c: nat, now: int)
    | TaskStep(c: nat, i: nat, exit: Exit, now: int)
    | ReaderEnds(i: nat, proc: nat, now: int)
    | Observe
    | ObserveMore(r: nat)

  // ----- shape -----

  ghost predicate PcOk(plan: Plan, pc: CallPc) {
    match pc
    case Entering(k) => k <= plan.groups
    case Waiting(k) => k < plan.groups
    case Folding(k, j, _) => k < plan.groups && j <= plan.N()
    case Judging(j, _) => j <= plan.N()
    case Finishing(p) => p < plan.N()
    case _ => true
  }

  ghost predicate Shape(plan: Plan, s: State) {
    && plan.Valid()
    && |s.tasks| == |s.probes| == plan.N()
    && |s.groups| == plan.groups
    && (forall c | 0 <= c < |s.calls| :: PcOk(plan, s.calls[c].pc) && |s.calls[c].tasks| == plan.N())
    && (forall q | 0 <= q < |s.queue| :: s.queue[q] < plan.N())
    && (forall n | 0 <= n < |s.verdicts| :: |s.verdicts[n]| == plan.N())
    && (forall r | 0 <= r < |s.observers| ::
          |s.observers[r].probes| <= |s.observers[r].tasks| <= plan.N()
          && |s.observers[r].tasks| <= |s.observers[r].probes| + 1)
    && (forall b | b in s.readers :: b.0 < plan.N())
    && (s.current.Some? ==> s.current.value < |s.calls|)
  }

  function Fill<T>(n: nat, x: T): (r: seq<T>)
    ensures |r| == n && forall i | 0 <= i < n :: r[i] == x
  {
    seq(n, i => x)
  }

  ghost function Init(plan: Plan): (s: State)
    requires plan.Valid()
    ensures Shape(plan, s)
  {
    State(FRESH, Fill(plan.groups, FRESH), Fill(plan.N(), FRESH), Fill(plan.N(), UNUSED),
          [], {}, [], [], [], None, {}, [], [], false, {})
  }

  // ----- one goroutine -----

  /** What one goroutine works on. */
  datatype Cell = Cell(pc: TaskPc, task: WorkerState, probe: ProbeState)

  function ExitEffect(o: Options, busy: bool, e: Exit): Effect {
    if busy then BusyEffect(o) else EffectOf(o, e)
  }

  function CellStep(o: Options, c: Cell, e: Exit, now: int): Cell
    requires Live(c.pc)
  {
    match c.pc
    case Spawned =>
      if c.task.status == Running then c.(pc := Checking) else c.(pc := Admitted, task := c.task.Run(now))
    case Admitted => c.(pc := Preparing, probe := Begin(c.probe, now))
    case Preparing => c.(pc := Launching, probe := Prepare(c.probe, now))
    case Launching => c.(pc := Probing(Busy(o, c.probe)), probe := Launch(o, c.probe))
    case Probing(busy) =>
      var eff := ExitEffect(o, busy, e);
      c.(pc := Settling(eff.succ, eff.data, !busy && e.Panicked?), probe := Leave(c.probe, eff, now))
    case Settling(succ, data, panicked) =>
      c.(pc := Recording(succ, data), probe := Settle(o, c.probe, succ, panicked, now))
    case Recording(succ, data) => c.(pc := Ending(succ), probe := Record(c.probe, succ, data, now))
    case Ending(succ) => c.(pc := Checking, task := c.task.Finish(succ, now))
    case Checking => c.(pc := if IsAlive(o, c.probe) then Queueing else Gone)
    case Queueing => c.(pc := Gone)
  }

  function CellOf(s: State, c: nat, i: nat): Cell
    requires c < |s.calls| && i < |s.calls[c].tasks| && i < |s.tasks| && i < |s.probes|
  {
    Cell(s.calls[c].tasks[i], s.tasks[i], s.probes[i])
  }

  /** The history entry for what a runner returned, in the row of the last accepted run. */
  function Noted(rows: seq<seq<Option<Verdict>>>, i: nat, v: Verdict): (r: seq<seq<Option<Verdict>>>)
    ensures |r| == |rows|
    ensures forall n | 0 <= n < |rows| :: |r[n]| == |rows[n]|
  {
    if |rows| == 0 || i >= |rows[|rows| - 1]| then rows
    else rows[|rows| - 1 := rows[|rows| - 1][i := Some(v)]]
  }

  ghost function ApplyTask(plan: Plan, s: State, c: nat, i: nat, e: Exit, now: int): (s': State)
    requires Shape(plan, s) && c < |s.calls| && i < plan.N() && Live(s.calls[c].tasks[i])
    ensures Shape(plan, s')
  {
    var o := plan.opts[i];
    var cell := CellOf(s, c, i);
    var cell' := CellStep(o, cell, e, now);
    var s1 := s.(calls := s.calls[c := s.calls[c].(tasks := s.calls[c].tasks[i := cell'.pc])],
                 tasks := s.tasks[i := cell'.task],
                 probes := s.probes[i := cell'.probe]);
    match cell.pc
    case Probing(busy) =>
      var eff := ExitEffect(o, busy, e);
      s1.(verdicts := Noted(s.verdicts, i, Verdict(eff.succ, eff.data)),
          readers := if eff.reader then s.readers + {(i, cell.probe.cur.runCounter)} else s.readers)
    case Checking =>
      s1.(found := if cell'.pc == Queueing then s.found + {i} else s.found)
    case Queueing =>
      s1.(queue := s.queue + [i], queued := s.queued + [i])
    case _ => s1
  }

  // ----- one call of Run -----

  function Spawn(plan: Plan, k: nat, tasks: seq<TaskPc>): (r: seq<TaskPc>)
    requires |tasks| == plan.N()
    ensures |r| == |tasks|
    ensures forall i | 0 <= i < |r| :: r[i] == if plan.groupOf[i] == k then Spawned else tasks[i]
  {
    seq(|tasks|, i requires 0 <= i < |tasks| && |tasks| == plan.N() =>
      if plan.groupOf[i] == k then Spawned else tasks[i])
  }

  ghost predicate Released(plan: Plan, k: nat, tasks: seq<TaskPc>)
    requires |tasks| == plan.N()
  {
    forall i | 0 <= i < |tasks| :: plan.groupOf[i] == k ==> tasks[i] == Gone
  }

  function Moved(s: State, c: nat, pc: CallPc): State
    requires c < |s.calls|
  {
    s.(calls := s.calls[c := s.calls[c].(pc := pc)])
  }

  /** The script accepts the call: a new run begins, and with it a new row of history. */
  ghost function Admit(plan: Plan, s: State, c: nat, now: int): (s': State)
    requires Shape(plan, s) && c < |s.calls|
    ensures Shape(plan, s')
  {
    Moved(s, c, Entering(0)).(
      script := s.script.Run(now),
      verdicts := s.verdicts + [Fill(plan.N(), None)],
      current := Some(c), found := {}, queued := [], drained := [])
  }

  /** The group accepts: its goroutines are created. */
  ghost function Enter(plan: Plan, s: State, c: nat, k: nat, now: int): (s': State)
    requires Shape(plan, s) && c < |s.calls| && k < plan.groups
    ensures Shape(plan, s')
  {
    s.(groups := s.groups[k := s.groups[k].Run(now)],
       calls := s.calls[c := Call(Waiting(k), Spawn(plan, k, s.calls[c].tasks))])
  }

  /** Before the script is running. */
  ghost function ApplyFirst(plan: Plan, s: State, c: nat, now: int): (s': State)
    requires Shape(plan, s) && c < |s.calls| && (s.calls[c].pc.Creating? || s.calls[c].pc.Arrived?)
    ensures Shape(plan, s')
  {
    if s.calls[c].pc.Creating? then
      Moved(s, c, Arrived).(queue := [], made := true, dropped := s.dropped + (set p | p in s.queue))
    else if s.script.status == Running then Moved(s, c, Rejected)
    else Admit(plan, s, c, now)
  }

  /** One group after the other. */
  ghost function ApplyGroup(plan: Plan, s: State, c: nat, now: int): (s': State)
    requires Shape(plan, s) && c < |s.calls|
    requires s.calls[c].pc.Entering? || s.calls[c].pc.Waiting? || s.calls[c].pc.Folding?
    ensures Shape(plan, s')
  {
    match s.calls[c].pc
    case Entering(k) =>
      if k == plan.groups then Moved(s, c, Judging(0, true))
      else if s.groups[k].status == Running then Moved(s, c, Entering(k + 1))
      else Enter(plan, s, c, k, now)
    case Waiting(k) => Moved(s, c, Folding(k, 0, true))
    case Folding(k, j, acc) =>
      if j < plan.N() then Moved(s, c, Folding(k, j + 1, acc && s.tasks[j].cur.success))
      else Moved(s, c, Entering(k + 1)).(groups := s.groups[k := s.groups[k].Finish(acc, now)])
  }

  /** The verdict, and the drain. */
  ghost function ApplyLast(plan: Plan, s: State, c: nat, now: int): (s': State)
    requires Shape(plan, s) && c < |s.calls|
    requires s.calls[c].pc.Judging? || s.calls[c].pc.Draining? || s.calls[c].pc.Finishing?
    ensures Shape(plan, s')
  {
    match s.calls[c].pc
    case Judging(j, acc) =>
      if j < plan.N() then Moved(s, c, Judging(j + 1, acc && s.tasks[j].cur.success))
      else Moved(s, c, Draining).(script := s.script.Finish(acc, now))
    case Draining =>
      if s.queue == [] then Moved(s, c, Left)
      else Moved(s, c, Finishing(s.queue[0])).(queue := s.queue[1..])
    case Finishing(p) =>
      Moved(s, c, Draining).(probes := s.probes[p := Finish(s.probes[p], now)], drained := s.drained + [p])
  }

  ghost function ApplyCall(plan: Plan, s: State, c: nat, now: int): (s': State)
    requires Shape(plan, s) && c < |s.calls| && !Final(s.calls[c].pc)
    ensures Shape(plan, s')
  {
    var pc := s.calls[c].pc;
    if pc.Creating? || pc.Arrived? then ApplyFirst(plan, s, c, now)
    else if pc.Entering? || pc.Waiting? || pc.Folding? then ApplyGroup(plan, s, c, now)
    else ApplyLast(plan, s, c, now)
  }

  // ----- background readers and observers -----

  function ApplyReader(s: State, i: nat, proc: nat, now: int): State
    requires i < |s.probes|
  {
    s.(readers := s.readers - {(i, proc)}, probes := s.probes[i := Finish(s.probes[i], now)])
  }

  function ApplyObserve(s: State): State {
    s.(observers := s.observers + [Snapshot(s.script.prev, [], [])])
  }

  function ApplyObserveMore(s: State, r: nat): State
    requires r < |s.observers|
    requires |s.observers[r].probes| < |s.observers[r].tasks| ==> |s.observers[r].probes| < |s.probes|
    requires |s.observers[r].probes| >= |s.observers[r].tasks| ==> |s.observers[r].tasks| < |s.tasks|
  {
    var v := s.observers[r];
    var v' :=
      if |v.probes| < |v.tasks| then
        var p := s.probes[|v.probes|]; v.(probes := v.probes + [(p.last, p.data)])
      else v.(tasks := v.tasks + [s.tasks[|v.tasks|].prev]);
    s.(observers := s.observers[r := v'])
  }

  // ----- steps and runs -----

  ghost predicate Enabled(plan: Plan, s: State, a: Action)
    requires Shape(plan, s)
  {
    match a
    case Arrive => true
    case CallStep(c, _) =>
      && c < |s.calls| && !Final(s.calls[c].pc)
      && (s.calls[c].pc.Waiting? ==> Released(plan, s.calls[c].pc.k, s.calls[c].tasks))
    case TaskStep(c, i, e, _) =>
      c < |s.calls| && i < plan.N() && Live(s.calls[c].tasks[i]) && Allowed(plan.opts[i], e)
    case ReaderEnds(i, proc, _) => (i, proc) in s.readers
    case Observe => true
    case ObserveMore(r) => r < |s.observers| && |s.observers[r].probes| < plan.N()
  }

  ghost function Apply(plan: Plan, s: State, a: Action): (s': State)
    requires Shape(plan, s) && Enabled(plan, s, a)
    ensures Shape(plan, s')
  {
    match a
    case Arrive => s.(calls := s.calls + [Call(if s.made then Arrived else Creating, Fill(plan.N(), NotSpawned))])
    case CallStep(c, now) => ApplyCall(plan, s, c, now)
    case TaskStep(c, i, e, now) => ApplyTask(plan, s, c, i, e, now)
    case ReaderEnds(i, proc, now) => ApplyReader(s, i, proc, now)
    case Observe => ApplyObserve(s)
    case ObserveMore(r) => ApplyObserveMore(s, r)
  }

  /** The actions can be taken one after the other from s. */
  ghost predicate Runs(plan: Plan, s: State, acts: seq<Action>)
    requires Shape(plan, s)
    decreases |acts|
  {
    acts == [] || (Enabled(plan, s, acts[0]) && Runs(plan, Apply(plan, s, acts[0]), acts[1..]))
  }

  ghost function After(plan: Plan, s: State, acts: seq<Action>): (s': State)
    requires Shape(plan, s) && Runs(plan, s, acts)
    ensures Shape(plan, s')
    decreases |acts|
  {
    if acts == [] then s else After(plan, Apply(plan, s, acts[0]), acts[1..])
  }

  /** A schedule: a plan and actions that can be taken from the initial state. */
  ghost predicate Schedule(plan: Plan, acts: seq<Action>) {
    plan.Valid() && Runs(plan, Init(plan), acts)
  }

  ghost function Reached(plan: Plan, acts: seq<Action>): (s: State)
    requires Schedule(plan, acts)
    ensures Shape(plan, s)
  {
    After(plan, Init(plan), acts)
  }
}
