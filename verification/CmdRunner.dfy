/** The runner of the cmd probe: wait for the process, the time or the context to end, then choose the way out. */
module CmdRunner {
  import opened Records
  import opened Probe
  import Handler
  import opened TextChecks
  import opened Processes
  import Texts

  datatype Config = Config(wanted: bool, exitCode: int, checks: Checks)

  datatype ResultData = ResultData(
    exit: int, regex: Option<bool>, capture: Option<string>, captureMatches: Option<bool>)

  const EMPTY := ResultData(0, None, None, None)

  /** The handler carries result data as numbers; the empty result is number 0. */
  type Numbering = code: ResultData -> int | code(EMPTY) == 0 witness _ => 0

  datatype Interruption = NotYet | ByContext | ByTimeout

  datatype Wait = Wait(finished: Status, cause: Interruption)

  predicate Decides(e: Event) {
    match e
    case Ended(s) => s.runtime != 0
    case ContextOver => true
    case TimeOver => true
    case _ => false
  }

  /** What the first deciding event makes of the wait. A process that could not be started decides nothing. */
  function WaitOf(events: seq<Event>): Wait
    requires Decisive(Decides, events)
  {
    var d := First(Decides, events);
    match events[d]
    case Ended(s) => Wait(s, NotYet)
    case ContextOver => Wait(LastStatus(events[..d]), ByContext)
    case _ => Wait(LastStatus(events[..d]), ByTimeout)
  }

  function DataOf(c: Checks, exit: int, o: OutputCheck): ResultData {
    ResultData(exit,
               if c.regexp.Some? then Some(o.matched) else None,
               if c.group > 0 then Some(o.capture) else None,
               if c.capture.Some? then Some(o.captureMatched) else None)
  }

  const NO_CHECK := OutputCheck(false, false, "", false, false)

  /** What a process that ended by itself is reported with: its exit code and, as far as they are configured, whether
      its output matched, the text of the group, and whether that matched. */
  ghost function Report(c: Checks, s: Status): ResultData {
    var text := Texts.Join(s.stdout, '\n');
    ResultData(s.exit,
               if c.regexp.Some? then Some(Matches(c, text)) else None,
               if c.group > 0 then Some(Captured(c, text)) else None,
               if c.capture.Some? then Some(c.capture.value.find(Captured(c, text)) != []) else None)
  }

  ghost predicate Fits(c: Config, s: Status) {
    s.exit == c.exitCode && Holds(c.checks, Texts.Join(s.stdout, '\n'))
  }

  /** The way out, and with it the verdict: a process that should stay must have stayed until the time was over, one
      that should end must have ended by itself, with the expected code and output or, if failure is expected,
      without. */
  ghost function WayOut(c: Config, o: Options, code: Numbering, w: Wait): Exit
    requires Compiled(c.checks)
  {
    var plain := Some(code(ResultData(w.finished.exit, None, None, None)));
    if o.stayBackground then
      match w.cause
      case NotYet => ExitedEarly(plain)
      case ByContext => Cancelled(plain)
      case ByTimeout => StaysAlive(plain)
    else if w.cause != NotYet then Interrupted(Some(code(DataOf(c.checks, w.finished.exit, NO_CHECK))))
    else
      Exited(Fits(c, w.finished) == c.wanted,
             Some(code(Report(c.checks, w.finished))),
             !Fits(c, w.finished))
  }

  class CmdProbe {
    const handler: Handler.ProbeHandler
    const config: Config
    const code: Numbering

    ghost predicate Valid() {
      handler.opts.kind == Cmd && Compiled(config.checks)
    }

    constructor (handler: Handler.ProbeHandler, config: Config, code: Numbering)
      requires handler.opts.kind == Cmd && Compiled(config.checks)
      ensures Valid() && this.handler == handler && this.config == config && this.code == code
    {
      this.handler, this.config, this.code := handler, config, code;
    }

    /** The event loop. */
    method Await(events: seq<Event>) returns (finished: Status, cause: Interruption)
      requires Decisive(Decides, events)
      ensures Wait(finished, cause) == WaitOf(events)
    {
      ghost var d := First(Decides, events);
      finished, cause := NO_STATUS, NotYet;
      var n := 0;
      while finished.runtime == 0 && cause == NotYet
        invariant finished.runtime == 0 && cause == NotYet ==> n <= d && finished == LastStatus(events[..n])
        invariant finished.runtime != 0 || cause != NotYet ==> Wait(finished, cause) == WaitOf(events) && n == d + 1
        decreases d + 1 - n
      {
        assert n < d ==> !Decides(events[n]);
        assert events[..n + 1][..n] == events[..n];
        match events[n] {
          case Ended(status) => finished := status;
          case ContextOver => cause := ByContext;
          case TimeOver => cause := ByTimeout;
          case OutLine(_) =>
          case ErrLine(_) =>
        }
        n := n + 1;
      }
    }

    /** The verdict on a process that ended by itself. */
    method Judge(finished: Status) returns (succ: bool, data: ResultData, failed: bool)
      requires Valid()
      ensures succ <==> (Fits(config, finished) == config.wanted)
      ensures failed <==> !Fits(config, finished)
      ensures data == Report(config.checks, finished)
    {
      var c := config.checks;
      failed := finished.exit != config.exitCode;
      ChecksMean(c, Texts.Join(finished.stdout, '\n'));
      OutputMeans(c, Texts.Join(finished.stdout, '\n'));
      var o := CheckStdout(c, Texts.Join(finished.stdout, '\n'));
      if finished.exit == config.exitCode && c.regexp.Some? && !o.condition && Required(c) {
        failed := true;
      }
      if finished.exit == config.exitCode && c.capture.Some? && !o.captureCondition {
        failed := true;
      }
      var regexSuccess := c.regexp.None? || !Required(c) || o.condition;
      var captureSuccess := c.capture.None? || o.captureCondition;
      succ := (finished.exit == config.exitCode && regexSuccess && captureSuccess) == config.wanted;
      data := DataOf(c, finished.exit, o);
    }

    /** The runner takes exactly the way out that the events call for, with its effect on the handler. */
    method Runner(events: seq<Event>, now: int) returns (succ: bool, data: Option<int>, reader: bool)
      requires Valid() && (handler.slot.None? ==> Decisive(Decides, events))
      modifies handler, handler.worker
      ensures var before := old(handler.State());
        var eff := if Busy(handler.opts, before) then BusyEffect(handler.opts)
                   else EffectOf(handler.opts, WayOut(config, handler.opts, code, WaitOf(events)));
        && succ == eff.succ && data == eff.data && reader == eff.reader
        && handler.State() == Leave(Launch(handler.opts, before), eff, now)
        && (Busy(handler.opts, before) ==> data == Some(code(ResultData(0, None, None, None))))
    {
      reader := false;
      if handler.slot.Some? {
        handler.error := true;
        return false, Some(code(EMPTY)), false;
      }
      handler.slot := Some(handler.curResult.runCounter);
      var finished, cause := Await(events);
      var plain := Some(code(ResultData(finished.exit, None, None, None)));
      if handler.opts.stayBackground {
        if cause == NotYet {
          handler.error := true;
          return false, plain, false;
        }
        if cause != ByTimeout {
          handler.error := true;
          return false, plain, false;
        }
        return true, plain, true;
      }
      if cause != NotYet {
        handler.Finish(now);
        handler.error := true;
        return false, Some(code(DataOf(config.checks, finished.exit, NO_CHECK))), false;
      }
      var result, failed;
      succ, result, failed := Judge(finished);
      if failed {
        handler.error := true;
      }
      data := Some(code(result));
    }
  }

  /** Every way out is one of those that the engine allows for this probe, so its results on slots, queue and verdicts
      hold of the runner whatever the events are. */
  lemma WayOutAllowed(c: Config, o: Options, code: Numbering, events: seq<Event>)
    requires Compiled(c.checks) && o.kind == Cmd && Decisive(Decides, events)
    ensures Allowed(o, WayOut(c, o, code, WaitOf(events)))
  {
  }

  /** When the probe succeeds, in terms of the events alone. */
  lemma SuccessMeans(c: Config, o: Options, code: Numbering, events: seq<Event>)
    requires Compiled(c.checks) && o.kind == Cmd && Decisive(Decides, events)
    ensures var d := First(Decides, events);
      EffectOf(o, WayOut(c, o, code, WaitOf(events))).succ <==>
      if o.stayBackground then events[d].TimeOver?
      else events[d].Ended? && (Fits(c, events[d].status) == c.wanted)
  {
  }

  /** A process that ends, but with a zero runtime, decides nothing: whatever it reports, a probe that should stay
      in the background counts the elapsed time as success, and one that should end is interrupted. */
  lemma ZeroRuntimeExample(c: Config, o: Options, code: Numbering, exit: int, stdout: seq<string>)
    requires Compiled(c.checks) && o.kind == Cmd
    ensures var events := [Ended(Status(0, exit, stdout)), TimeOver];
      Decisive(Decides, events) && EffectOf(o, WayOut(c, o, code, WaitOf(events))).succ == o.stayBackground
  {
    var events := [Ended(Status(0, exit, stdout)), TimeOver];
    assert Decides(events[1]) && !Decides(events[0]);
    SuccessMeans(c, o, code, events);
  }

  /** What is delivered besides the verdict, in terms of the events alone. The exit code is that of the status heard
      last. A probe that should stay reports nothing else; one that was interrupted reports that nothing matched; one
      that ended by itself reports on its output. */
  lemma DataMeans(c: Config, o: Options, code: Numbering, events: seq<Event>)
    requires Compiled(c.checks) && o.kind == Cmd && Decisive(Decides, events)
    ensures var d := First(Decides, events);
      EffectOf(o, WayOut(c, o, code, WaitOf(events))).data == Some(code(
        if o.stayBackground then ResultData(LastStatus(events[..d + 1]).exit, None, None, None)
        else if events[d].Ended? then Report(c.checks, events[d].status)
        else ResultData(LastStatus(events[..d + 1]).exit,
                        if c.checks.regexp.Some? then Some(false) else None,
                        if c.checks.group > 0 then Some("") else None,
                        if c.checks.capture.Some? then Some(false) else None)))
  {
    var d := First(Decides, events);
    assert events[..d + 1][..d] == events[..d];
  }

  /** When the start-up error is set, when the runner itself ends the process, and when it leaves a reader behind. */
  lemma EffectsMean(c: Config, o: Options, code: Numbering, events: seq<Event>)
    requires Compiled(c.checks) && o.kind == Cmd && Decisive(Decides, events)
    ensures var e := events[First(Decides, events)];
      var eff := EffectOf(o, WayOut(c, o, code, WaitOf(events)));
      && (eff.err <==> if o.stayBackground then !e.TimeOver? else !(e.Ended? && Fits(c, e.status)))
      && (eff.finish <==> !o.stayBackground && !e.Ended?)
      && (eff.reader <==> o.stayBackground && e.TimeOver?)
  {
  }

  /** The output that is checked is all lines with line breaks between them. */
  lemma OutputIsLines(c: Config, s: Status, first: string, last: string)
    requires Compiled(c.checks)
    ensures s.stdout == [] ==> (Fits(c, s) <==> s.exit == c.exitCode && Holds(c.checks, ""))
    ensures s.stdout == [last] ==> (Fits(c, s) <==> s.exit == c.exitCode && Holds(c.checks, last))
    ensures s.stdout == [first, last] ==>
      (Fits(c, s) <==> s.exit == c.exitCode && Holds(c.checks, first + "\n" + last))
  {
    if s.stdout == [first, last] {
      assert s.stdout[1..] == [last];
      assert Texts.Join(s.stdout, '\n') == first + ['\n'] + last;
    }
  }
}
