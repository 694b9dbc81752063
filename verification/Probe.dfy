/** The life of one probe: the handler around the runner, the exit paths of the runners that keep a process
    in a slot, and the class that performs these transitions in place. */
module Probe {
  import opened Records

  type Data = Option<int>

  /** `Plain` probes report their own status as liveness; the other two report a filled process slot. */
  datatype Kind = Plain | Cmd | OpenVpn

  datatype Options = Options(kind: Kind, canStayBackground: bool, stayBackground: bool)

  /** `error` is the sticky start-up error: no transition clears it. `slot` holds the process started in the run
      with that number. `cur` and `last` are the handler's own records, apart from those of its worker. */
  datatype ProbeState = ProbeState(
    worker: WorkerState, cur: Result, last: Result, data: Data, error: bool, slot: Option<nat>)

  const UNUSED := ProbeState(FRESH, BLANK, BLANK, None, false, None)

  predicate Slotted(o: Options) {
    o.kind != Plain
  }

  predicate IsAlive(o: Options, p: ProbeState) {
    if Slotted(o) then p.slot.Some? else p.worker.status == Running
  }

  /** The ways in which a runner can come back. */
  datatype Exit =
    | Panicked
    | Returned(succ: bool, data: Data, err: bool) // plain probes
    | ExitedEarly(data: Data)                     // cmd that should stay: the process ended by itself
    | Cancelled(data: Data)                       // cmd that should stay: the context ended first
    | StaysAlive(data: Data)                      // cmd that should stay: the start-up time is over
    | Interrupted(data: Data)                     // cmd that should end: timeout or context
    | Exited(succ: bool, data: Data, err: bool)   // cmd that should end: the process ended
    | NotStarted                                  // openvpn: no usable configuration
    | Connected                                   // openvpn: the tunnel is up
    | Failed                                      // openvpn: anything else

  predicate Allowed(o: Options, e: Exit) {
    match e
    case Panicked => true
    case Returned(_, _, _) => o.kind == Plain
    case ExitedEarly(_) => o.kind == Cmd && o.stayBackground
    case Cancelled(_) => o.kind == Cmd && o.stayBackground
    case StaysAlive(_) => o.kind == Cmd && o.stayBackground
    case Interrupted(_) => o.kind == Cmd && !o.stayBackground
    case Exited(_, _, _) => o.kind == Cmd && !o.stayBackground
    case NotStarted => o.kind == OpenVpn
    case Connected => o.kind == OpenVpn
    case Failed => o.kind == OpenVpn
  }

  /** What an exit path does: verdict, data, whether the error is set, whether the slot is filled on the way
      out, whether the runner itself calls `Finish`, whether it leaves a background reader. */
  datatype Effect = Effect(succ: bool, data: Data, err: bool, fill: bool, finish: bool, reader: bool)

  function EffectOf(o: Options, e: Exit): Effect {
    match e
    case Panicked => Effect(false, None, false, false, false, false)
    case Returned(succ, data, err) => Effect(succ, data, err, false, false, false)
    case ExitedEarly(data) => Effect(false, data, true, false, false, false)
    case Cancelled(data) => Effect(false, data, true, false, false, false)
    case StaysAlive(data) => Effect(true, data, false, false, false, true)
    case Interrupted(data) => Effect(false, data, true, false, true, false)
    case Exited(succ, data, err) => Effect(succ, data, err, false, false, false)
    case NotStarted => Effect(false, None, true, false, false, false)
    case Connected => Effect(true, None, false, true, !o.stayBackground, o.stayBackground)
    case Failed => Effect(false, None, true, true, !o.stayBackground, false)
  }

  /** The runner found its slot taken: only the cmd probe still delivers (empty) data. */
  function BusyEffect(o: Options): Effect {
    Effect(false, if o.kind == Cmd then Some(0) else None, true, false, false, false)
  }

  // ----- the transitions of one start, in program order -----

  function Begin(p: ProbeState, now: int): ProbeState {
    p.(worker := p.worker.Run(now))
  }

  function Prepare(p: ProbeState, now: int): ProbeState {
    p.(cur := p.cur.PrepareToStart(now))
  }

  predicate Busy(o: Options, p: ProbeState) {
    Slotted(o) && p.slot.Some?
  }

  /** The cmd runner fills its slot before it waits; openvpn fills it when its start-up wait is over. */
  function Launch(o: Options, p: ProbeState): ProbeState {
    if o.kind == Cmd && !Busy(o, p) then p.(slot := Some(p.cur.runCounter)) else p
  }

  function Finish(p: ProbeState, now: int): ProbeState {
    p.(slot := None, worker := p.worker.Finish(true, now))
  }

  function Leave(p: ProbeState, e: Effect, now: int): ProbeState {
    var p1 := if e.fill then p.(slot := Some(p.cur.runCounter)) else p;
    var p2 := if e.finish then Finish(p1, now) else p1;
    if e.err then p2.(error := true) else p2
  }

  function Settle(o: Options, p: ProbeState, succ: bool, panicked: bool, now: int): ProbeState {
    if panicked || !o.canStayBackground || !succ || p.error || !o.stayBackground
    then p.(worker := p.worker.Finish(succ, now))
    else p
  }

  function Record(p: ProbeState, succ: bool, data: Data, now: int): ProbeState {
    var r := p.cur.End(succ, now);
    p.(cur := r, last := r, data := data)
  }

  /** The whole of one start when nothing interleaves; the runner comes back at `end`. */
  function Started(o: Options, p: ProbeState, e: Exit, begin: int, end: int): ProbeState {
    var p1 := Prepare(Begin(p, begin), begin);
    var eff := if Busy(o, p1) then BusyEffect(o) else EffectOf(o, e);
    var panicked := !Busy(o, p1) && e.Panicked?;
    var p2 := Leave(Launch(o, p1), eff, end);
    Record(Settle(o, p2, eff.succ, panicked, end), eff.succ, eff.data, end)
  }

  function StartVerdict(o: Options, p: ProbeState, e: Exit): bool {
    if Busy(o, p) then false else EffectOf(o, e).succ
  }

  /** The verdict and the data that each way out must deliver; `taken` says that the slot was found taken. */
  predicate Delivers(o: Options, taken: bool, e: Exit, succ: bool, data: Data) {
    if taken then !succ && data == (if o.kind == Cmd then Some(0) else None)
    else
      match e
      case Returned(s, d, _) => succ == s && data == d
      case Exited(s, d, _) => succ == s && data == d
      case StaysAlive(d) => succ && data == d
      case ExitedEarly(d) => !succ && data == d
      case Cancelled(d) => !succ && data == d
      case Interrupted(d) => !succ && data == d
      case Connected => succ && data == None
      case Panicked => !succ && data == None
      case NotStarted => !succ && data == None
      case Failed => !succ && data == None
  }

  /** The ways out that must set the start-up error. */
  predicate Fails(taken: bool, e: Exit) {
    taken ||
    match e
    case Returned(_, _, err) => err
    case Exited(_, _, err) => err
    case StaysAlive(_) => false
    case Connected => false
    case Panicked => false
    case _ => true
  }

  /** What a reader of a probe's result gets. */
  datatype ProbeResult = ProbeResult(result: Result, data: Data)

  /** Until the current record is completed it is shown without data. */
  function Shown(p: ProbeState): ProbeResult {
    if p.cur.Completed() then ProbeResult(p.last, p.data) else ProbeResult(p.cur, None)
  }

  /** Finishing a probe twice is the same as finishing it once, and a finished probe is not alive; a worker that was
      still running records success. */
  lemma FinishTwice(o: Options, p: ProbeState, now: int, later: int)
    ensures Finish(Finish(p, now), later) == Finish(p, now)
    ensures !IsAlive(o, Finish(p, now))
    ensures Finish(p, now).last == p.last && Finish(p, now).data == p.data && Finish(p, now).cur == p.cur
    ensures p.worker.status == Running ==>
      var c := p.worker.cur; Finish(p, now).worker.prev == Result(c.startedAt, now - c.startedAt, true, c.runCounter)
  {
  }

  /** A probe that is not alive after a start keeps no process and no running status; one that is alive after
      it is brought down by a single `Finish`. The converse shows which exit paths leave the slot filled. */
  lemma SlotAfterStart(o: Options, p: ProbeState, e: Exit, begin: int, end: int)
    requires Allowed(o, e)
    requires Slotted(o) && p.slot.None? && p.worker.status != Running
    ensures var q := Started(o, p, e, begin, end);
      && (q.slot.Some? <==>
            if o.kind == Cmd then !e.Interrupted? else (o.stayBackground && (e.Connected? || e.Failed?)))
      && (q.slot.Some? ==> q.slot == Some(p.cur.runCounter + 1))
      && (q.worker.status == Running <==>
            o.canStayBackground && o.stayBackground && !p.error && (e.StaysAlive? || e.Connected?))
      && (q.worker.status == Running ==> IsAlive(o, q))
  {
  }

  /** After a start the record and the data are those that the way out must deliver, and the error is set if it was set
      before or the way out fails; a plain probe's verdict is the one its runner returned. */
  lemma StartDelivers(o: Options, p: ProbeState, e: Exit, begin: int, end: int)
    ensures var q, taken := Started(o, p, e, begin, end), Slotted(o) && p.slot.Some?;
      && Delivers(o, taken, e, q.last.success, q.data)
      && (q.error <==> p.error || Fails(taken, e))
      && (e.Returned? && !taken ==> q.last.success == e.succ && q.data == e.data && q.error == (p.error || e.err))
  {
  }

  /** What the probe's worker records of a start: nothing yet if the process stays, success if the runner itself has
      ended the process, and otherwise the verdict. */
  lemma WorkerAfterStart(o: Options, p: ProbeState, e: Exit, begin: int, end: int)
    requires Allowed(o, e) && p.worker.status != Running
    ensures var q, taken := Started(o, p, e, begin, end), Slotted(o) && p.slot.Some?;
      var n := p.worker.cur.runCounter + 1;
      var ended := !taken && (e.Interrupted? || (!o.stayBackground && (e.Connected? || e.Failed?)));
      if q.worker.status == Running then q.worker.cur == Result(begin, 0, false, n) && q.worker.prev == p.worker.prev
      else
        && q.worker.status == Finished && q.worker.cur == q.worker.prev
        && q.worker.prev == Result(begin, end - begin, ended || q.last.success, n)
  {
  }
}
