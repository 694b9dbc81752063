/** The runner of the openvpn probe: start the client, wait until its log says that the connection is up. */
module OpenVpnRunner {
  import opened Records
  import opened Probe
  import Handler
  import opened Processes

  const COMPLETED := "Initialization Sequence Completed"
  const REFUSED := "Connection refused"

  predicate Decides(e: Event) {
    match e
    case Ended(s) => s.runtime != 0
    case ContextOver => true
    case TimeOver => true
    case OutLine(line) => Contains(line, COMPLETED) || Contains(line, REFUSED)
    case ErrLine(_) => false
  }

  /** The connection is up exactly if the first deciding event is the line that says so. */
  predicate Connects(events: seq<Event>)
    requires Decisive(Decides, events)
  {
    var e := events[First(Decides, events)];
    e.OutLine? && Contains(e.line, COMPLETED)
  }

  /** `configured` says that the configuration could be read and names a remote host. */
  function WayOut(configured: bool, events: seq<Event>): Exit
    requires configured ==> Decisive(Decides, events)
  {
    if !configured then NotStarted else if Connects(events) then Connected else Failed
  }

  class OpenVpnProbe {
    const handler: Handler.ProbeHandler

    constructor (handler: Handler.ProbeHandler)
      ensures this.handler == handler
    {
      this.handler := handler;
    }

    /** Wait for the client to come up. A client that ends by itself has failed, whatever its code. */
    method AwaitUp(events: seq<Event>) returns (failed: bool, stopped: bool)
      requires Decisive(Decides, events)
      ensures failed <==> !Connects(events)
      ensures stopped ==> failed
    {
      ghost var d := First(Decides, events);
      var finished, succ := NO_STATUS, false;
      failed := false;
      var n := 0;
      while finished.runtime == 0 && !failed && !succ
        invariant finished.runtime == 0 && !failed && !succ ==> n <= d
        invariant finished.runtime != 0 || failed || succ ==> n == d + 1 && succ == Connects(events)
        invariant succ ==> finished.runtime == 0 && !failed
        decreases d + 1 - n
      {
        assert n < d ==> !Decides(events[n]);
        match events[n] {
          case Ended(status) => finished := status;
          case ContextOver => failed := true;
          case TimeOver => failed := true;
          case OutLine(line) =>
            if Contains(line, COMPLETED) {
              succ := true;
            } else if Contains(line, REFUSED) {
              failed := true;
            }
          case ErrLine(_) =>
        }
        n := n + 1;
      }
      stopped := failed;
      if !failed && finished.runtime != 0 {
        failed := true;
      }
    }

    /** The client is kept in the slot however its start went; it is finished at once if it should not stay. */
    method Runner(configured: bool, events: seq<Event>, now: int) returns (succ: bool, data: Option<int>, reader: bool)
      requires handler.opts.kind == OpenVpn && (handler.slot.None? && configured ==> Decisive(Decides, events))
      modifies handler, handler.worker
      ensures var before := old(handler.State());
        var eff := if Busy(handler.opts, before) then BusyEffect(handler.opts)
                   else EffectOf(handler.opts, WayOut(configured, events));
        && succ == eff.succ && data == eff.data && reader == eff.reader
        && handler.State() == Leave(Launch(handler.opts, before), eff, now)
    {
      if handler.slot.Some? || !configured {
        handler.error := true;
        return false, None, false;
      }
      var failed, stopped := AwaitUp(events);
      handler.slot := Some(handler.curResult.runCounter);
      succ, data, reader := !failed, None, false;
      if !handler.opts.stayBackground {
        handler.Finish(now);
      } else if succ {
        reader := true;
      }
      if failed {
        handler.error := true;
      }
    }
  }

  lemma WayOutAllowed(o: Options, configured: bool, events: seq<Event>)
    requires o.kind == OpenVpn && (configured ==> Decisive(Decides, events))
    ensures Allowed(o, WayOut(configured, events))
  {
  }

  /** When the probe succeeds, whether it ends its client itself, and whether it leaves a reader behind: in terms of the
      first event that decides, which is the end of the client, of the time or of the context, or a line that reports
      the connection or its refusal. */
  lemma SuccessMeans(o: Options, configured: bool, events: seq<Event>)
    requires o.kind == OpenVpn && (configured ==> Decisive(Decides, events))
    ensures var eff := EffectOf(o, WayOut(configured, events));
      && (eff.succ <==> configured && var e := events[First(Decides, events)];
                        e.OutLine? && Contains(e.line, "Initialization Sequence Completed"))
      && (eff.err <==> !eff.succ) && eff.data == None
      && (eff.fill <==> configured) && (eff.finish <==> configured && !o.stayBackground)
      && (eff.reader <==> eff.succ && o.stayBackground)
  {
  }

  lemma DecidesMeans(e: Event)
    ensures Decides(e) <==>
      || e.ContextOver? || e.TimeOver? || (e.Ended? && e.status.runtime != 0)
      || (e.OutLine? && (Contains(e.line, "Initialization Sequence Completed")
                         || Contains(e.line, "Connection refused")))
  {
  }
}
