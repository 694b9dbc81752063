/** The ping probe: one pinger per host. What each pinger comes to is given. */
module Ping {
  import opened Records
  import opened FanOut

  /** No pinger could be made, or it failed, or it panicked; it timed out without a packet; or a packet came back. */
  datatype Pinged = Failed | Panicked | TimedOut | Answered(time: int)

  datatype Setup = Setup(wanted: bool, hosts: seq<string>, pinged: seq<Pinged>) {
    predicate Valid() {
      |pinged| == |hosts|
    }
  }

  /** Only an answer has its time recorded; of the failures only a timeout counts where failure is expected. */
  function Worker(wanted: bool, host: string, p: Pinged): Script {
    match p
    case Answered(time) => [Put(Key(Timings, host), Number(time))] + if wanted then [Count] else []
    case TimedOut => if wanted then [] else [Count]
    case Failed => []
    case Panicked => []
  }

  ghost function PlanOf(s: Setup): (p: Plan)
    requires s.Valid()
    ensures |p.scripts| == |s.hosts| && p.stop.None?
    ensures forall i | 0 <= i < |s.hosts| :: p.scripts[i] == Worker(s.wanted, s.hosts[i], s.pinged[i])
  {
    Plan(seq(|s.hosts|, i requires 0 <= i < |s.hosts| => Worker(s.wanted, s.hosts[i], s.pinged[i])), None)
  }

  /** Every ping probe comes back. */
  lemma PingReturns(s: Setup)
    requires s.Valid()
    ensures exists moves :: Complete(PlanOf(s), moves)
  {
    ComesBack(PlanOf(s));
  }

  /** The host did what was expected of it. */
  predicate AsWanted(wanted: bool, p: Pinged) {
    if wanted then p.Answered? else p.TimedOut?
  }

  lemma WorkerMeans(wanted: bool, host: string, p: Pinged, k: Key)
    ensures LastPut(Worker(wanted, host, p), k) ==
            if p.Answered? && k == Key(Timings, host) then Some(Number(p.time)) else None
    ensures Counts(Worker(wanted, host, p)) <==> AsWanted(wanted, p)
    ensures CountsOnce(Worker(wanted, host, p))
  {
    if p.Answered? {
      var put: Script, last: Script := [Put(Key(Timings, host), Number(p.time))], if wanted then [Count] else [];
      PutConcat(put, last, k);
      CountsConcat(put, last);
      assert wanted ==> last[0].Count?;
    } else if p.TimedOut? && !wanted {
      assert Worker(wanted, host, p)[0].Count?;
    }
  }

  /** In every interleaving: with success expected the probe succeeds exactly when every host answered, with failure
      expected exactly when every host timed out; the timings are those of the hosts that answered. */
  lemma VerdictAndTimings(s: Setup, moves: seq<Move>)
    requires s.Valid() && Complete(PlanOf(s), moves)
    ensures var r := Outcome(PlanOf(s), moves);
      && r.Returned?
      && (r.succ <==> forall i | 0 <= i < |s.hosts| :: AsWanted(s.wanted, s.pinged[i]))
      && (forall k :: k in r.table <==> exists i :: 0 <= i < |s.hosts| && Recorded(s, i, k))
  {
    var plan := PlanOf(s);
    EveryInterleaving(plan, moves);
    forall i, k | 0 <= i < |s.hosts|
      ensures LastPut(plan.scripts[i], k).Some? <==> Recorded(s, i, k)
    {
      WorkerMeans(s.wanted, s.hosts[i], s.pinged[i], k);
    }
    forall i | 0 <= i < |s.hosts|
      ensures Counts(plan.scripts[i]) <==> AsWanted(s.wanted, s.pinged[i])
    {
      WorkerMeans(s.wanted, s.hosts[i], s.pinged[i], Key(Timings, ""));
    }
    var r := Outcome(plan, moves);
    forall k
      ensures k in r.table <==> exists i :: 0 <= i < |s.hosts| && Recorded(s, i, k)
    {
      if k in r.table {
        var i :| 0 <= i < |plan.scripts| && LastPut(plan.scripts[i], k).Some?;
        assert Recorded(s, i, k);
      }
    }
  }

  ghost predicate Recorded(s: Setup, i: int, k: Key)
    requires s.Valid() && 0 <= i < |s.hosts|
  {
    s.pinged[i].Answered? && k == Key(Timings, s.hosts[i])
  }

  /** A host that failed in another way than by a timeout keeps the probe from succeeding, whatever is expected. */
  lemma OtherFailuresNeverSucceed(s: Setup, moves: seq<Move>, i: nat)
    requires s.Valid() && Complete(PlanOf(s), moves)
    requires i < |s.hosts| && (s.pinged[i].Failed? || s.pinged[i].Panicked?)
    ensures Outcome(PlanOf(s), moves).Returned? && !Outcome(PlanOf(s), moves).succ
  {
    VerdictAndTimings(s, moves);
  }

  ghost predicate DistinctHosts(s: Setup) {
    forall i, j | 0 <= i < j < |s.hosts| :: s.hosts[i] != s.hosts[j]
  }

  /** Where hosts are distinct, each timing is the one that the host's own answer took. */
  lemma OwnTimings(s: Setup, moves: seq<Move>, i: nat)
    requires s.Valid() && Complete(PlanOf(s), moves) && DistinctHosts(s) && i < |s.hosts|
    ensures Outcome(PlanOf(s), moves).Returned?
    ensures var r := Outcome(PlanOf(s), moves).table; var k := Key(Timings, s.hosts[i]);
      if s.pinged[i].Answered? then k in r && r[k] == Number(s.pinged[i].time) else k !in r
  {
    var plan, k := PlanOf(s), Key(Timings, s.hosts[i]);
    EveryInterleaving(plan, moves);
    forall j: nat | j < |s.hosts|
      ensures LastPut(plan.scripts[j], k) ==
              if j == i && s.pinged[i].Answered? then Some(Number(s.pinged[i].time)) else None
    {
      WorkerMeans(s.wanted, s.hosts[j], s.pinged[j], k);
    }
    if s.pinged[i].Answered? {
      assert Alone(plan, i, k);
    }
  }
}
