/** Probe handlers and tasks as the objects they are: fields updated in place, one method per operation. Each method
    is tied to the transition functions of module `Probe`, and the last lemma ties a whole `Task.Start` to the
    goroutine steps of module `Engine`. */
module Handler {
  import opened Records
  import opened Probe
  import Engine

  class ProbeHandler {
    const opts: Options
    const hasRunner: bool
    const worker: Worker      // the embedded worker, with records of its own
    var curResult: Result     // the handler's record: hides the worker's record of the same name
    var lastResult: Result
    var probingData: Data
    var error: bool
    var slot: Option<nat>     // the process field of the cmd and openvpn probes

    constructor (opts: Options, hasRunner: bool)
      ensures this.opts == opts && this.hasRunner == hasRunner && fresh(worker)
      ensures State() == UNUSED
    {
      this.opts, this.hasRunner := opts, hasRunner;
      worker := new Worker();
      curResult, lastResult, probingData, error, slot := BLANK, BLANK, None, false, None;
    }

    function State(): ProbeState
      reads this, worker
    {
      ProbeState(worker.State(), curResult, lastResult, probingData, error, slot)
    }

    /** The runner of the probe, reduced to what it does to the handler on the exit path `exit`. */
    method Runner(exit: Exit, now: int) returns (succ: bool, data: Data, panicked: bool)
      modifies this, worker
      ensures var busy := Busy(opts, old(State()));
        var eff := if busy then BusyEffect(opts) else EffectOf(opts, exit);
        && succ == eff.succ && data == eff.data && panicked == (!busy && exit.Panicked?)
        && State() == Leave(Launch(opts, old(State())), eff, now)
    {
      if opts.kind != Plain && slot.Some? {
        error := true;
        return false, if opts.kind == Cmd then Some(0) else None, false;
      }
      if opts.kind == Cmd {
        slot := Some(curResult.runCounter);
      }
      var eff := EffectOf(opts, exit);
      if eff.fill {
        slot := Some(curResult.runCounter);
      }
      if eff.finish {
        Finish(now);
      }
      if eff.err {
        error := true;
      }
      return eff.succ, eff.data, exit.Panicked?;
    }

    method Start(exit: Exit, begin: int, end: int) returns (succ: bool)
      modifies this, worker
      ensures !hasRunner ==> !succ && State() == old(State())
      ensures hasRunner ==>
        && State() == Started(opts, old(State()), exit, begin, end)
        && succ == StartVerdict(opts, old(State()), exit)
    {
      if !hasRunner {
        return false;
      }
      var accepted := worker.EStatusRun(begin); // a refusal is only logged
      curResult := curResult.PrepareToStart(begin);
      var data, panicked;
      succ, data, panicked := Runner(exit, end);
      Settle(succ, panicked, end);
      Record(succ, data, end);
    }

    /** Only a probe that succeeds and may stay, in the background, keeps its running status. */
    method Settle(succ: bool, panicked: bool, now: int)
      modifies worker
      ensures State() == Probe.Settle(opts, old(State()), succ, panicked, now)
    {
      if panicked || !opts.canStayBackground || !succ || error || !opts.stayBackground {
        var accepted := worker.EStatusFinish(succ, now);
      }
    }

    /** The deferred part: the record is closed and becomes the finished one, with its data. */
    method Record(succ: bool, data: Data, now: int)
      modifies this
      ensures State() == Probe.Record(old(State()), succ, data, now)
    {
      curResult := curResult.End(succ, now);
      lastResult := curResult;
      probingData := data;
    }

    method Finish(now: int)
      modifies this, worker
      ensures State() == Probe.Finish(old(State()), now)
      ensures worker.status != Running && slot == None
    {
      slot := None;
      var accepted := worker.EStatusFinish(true, now);
    }

    method IsAlive() returns (alive: bool)
      ensures alive == Probe.IsAlive(opts, State())
    {
      alive := if opts.kind == Plain then worker.status == Running else slot.Some?;
    }

    method ReadResult() returns (r: ProbeResult)
      ensures r == Shown(State())
    {
      if curResult.Completed() {
        r := ProbeResult(lastResult, probingData);
      } else {
        r := ProbeResult(curResult, None);
      }
    }

    method ReadResultFinished() returns (r: ProbeResult)
      ensures r == ProbeResult(State().last, State().data)
    {
      r := ProbeResult(lastResult, probingData);
    }
  }

  class Task {
    var cgroup: string
    const probe: ProbeHandler
    const worker: Worker

    constructor (cgroup: string, probe: ProbeHandler)
      ensures this.cgroup == cgroup && this.probe == probe && fresh(worker) && worker.State() == FRESH
    {
      this.cgroup := cgroup;
      this.probe := probe;
      worker := new Worker();
    }

    method Start(exit: Exit, begin: int, end: int) returns (succ: bool, accepted: bool)
      requires worker != probe.worker && probe.hasRunner
      modifies worker, probe, probe.worker
      ensures accepted <==> old(worker.status) != Running
      ensures !accepted ==> !succ && worker.State() == old(worker.State()) && probe.State() == old(probe.State())
      ensures accepted ==>
        && succ == StartVerdict(probe.opts, old(probe.State()), exit)
        && worker.State() == old(worker.State()).Run(begin).Finish(succ, end)
        && probe.State() == Started(probe.opts, old(probe.State()), exit, begin, end)
    {
      accepted := worker.EStatusRun(begin);
      if !accepted {
        return false, false;
      }
      succ := probe.Start(exit, begin, end);
      var ended := worker.EStatusFinish(succ, end);
    }
  }

  // ----- what one start does -----

  /** After a start that nothing interleaves with, all counters are one further and the finished record and data are
      those of the exit path, also when the runner panicked or found its slot taken; the sticky error stays set. The
      record bears both times, and a reader is shown it with that data exactly if they differ. */
  lemma StartOutcome(o: Options, p: ProbeState, e: Exit, begin: int, end: int)
    ensures var q := Started(o, p, e, begin, end);
      && q.last == q.cur == Result(begin, end - begin, StartVerdict(o, p, e), p.cur.runCounter + 1)
      && Delivers(o, Slotted(o) && p.slot.Some?, e, StartVerdict(o, p, e), q.data)
      && (e.Panicked? && !Busy(o, p) ==> !q.last.success && q.data == None && q.worker.status == Finished)
      && (Busy(o, p) ==> !q.last.success && q.error && q.slot == p.slot)
      && (p.error ==> q.error)
      && Shown(q) == ProbeResult(q.last, if end != begin then q.data else None)
  {
  }

  /** When a goroutine that nothing delays takes its next step: up to the runner at `begin`, from there on at `end`. */
  function Clock(pc: Engine.TaskPc, begin: int, end: int): int {
    if pc.Spawned? || pc.Admitted? || pc.Preparing? || pc.Launching? then begin else end
  }

  /** Goroutine steps without interference, until the task has reported its end. */
  function Alone(o: Options, c: Engine.Cell, e: Exit, begin: int, end: int, n: nat): Engine.Cell
    decreases n
  {
    if n == 0 || !Engine.Live(c.pc) || c.pc == Engine.Checking then c
    else Alone(o, Engine.CellStep(o, c, e, Clock(c.pc, begin, end)), e, begin, end, n - 1)
  }

  /** Four steps bring a task that was admitted to its runner. */
  lemma StepsToRunner(o: Options, w: WorkerState, p: ProbeState, e: Exit, begin: int, end: int)
    requires w.status != Running
    ensures var p1 := Prepare(Begin(p, begin), begin);
      Alone(o, Engine.Cell(Engine.Spawned, w, p), e, begin, end, 8) ==
      Alone(o, Engine.Cell(Engine.Probing(Busy(o, p)), w.Run(begin), Launch(o, p1)), e, begin, end, 4)
  {
    var c1 := Engine.CellStep(o, Engine.Cell(Engine.Spawned, w, p), e, begin);
    var c2 := Engine.CellStep(o, c1, e, begin);
    var c3 := Engine.CellStep(o, c2, e, begin);
    assert Alone(o, c3, e, begin, end, 5) == Alone(o, Engine.CellStep(o, c3, e, begin), e, begin, end, 4);
  }

  /** Four more bring it from the runner to the end it reports. */
  lemma StepsFromRunner(o: Options, busy: bool, w: WorkerState, p: ProbeState, e: Exit, begin: int, end: int)
    ensures var eff := Engine.ExitEffect(o, busy, e);
      Alone(o, Engine.Cell(Engine.Probing(busy), w, p), e, begin, end, 4) ==
      Engine.Cell(Engine.Checking, w.Finish(eff.succ, end),
                  Record(Settle(o, Leave(p, eff, end), eff.succ, !busy && e.Panicked?, end), eff.succ, eff.data, end))
  {
    var c1 := Engine.CellStep(o, Engine.Cell(Engine.Probing(busy), w, p), e, end);
    var c2 := Engine.CellStep(o, c1, e, end);
    var c3 := Engine.CellStep(o, c2, e, end);
    assert Alone(o, c2, e, begin, end, 2) == Engine.CellStep(o, c3, e, end);
  }

  /** Eight goroutine steps in a row are one `Task.Start`: the object and the step system do the same. */
  lemma StepsAreStart(o: Options, w: WorkerState, p: ProbeState, e: Exit, begin: int, end: int)
    requires w.status != Running
    ensures Alone(o, Engine.Cell(Engine.Spawned, w, p), e, begin, end, 8) ==
            Engine.Cell(Engine.Checking, w.Run(begin).Finish(StartVerdict(o, p, e), end),
                        Started(o, p, e, begin, end))
  {
    StepsToRunner(o, w, p, e, begin, end);
    StepsFromRunner(o, Busy(o, p), w.Run(begin), Launch(o, Prepare(Begin(p, begin), begin)), e, begin, end);
  }
}
