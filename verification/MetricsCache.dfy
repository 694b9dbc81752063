/** The descriptor cache over whole histories of requests: what always holds, and when every request gets the
    descriptor it means. */
module MetricsCache {
  import opened Metrics
  import opened MetricsKeys

  ghost predicate AllProper(h: seq<Ask>) {
    forall i | 0 <= i < |h| :: Proper(h[i])
  }

  /** What is cached under a key was meant by an earlier request with that key. */
  lemma {:induction false} CacheFromHistory(h: seq<Ask>, key: string) returns (i: nat)
    requires key in CacheAfter(h)
    ensures i < |h| && KeyOf(h[i]) == key && CacheAfter(h)[key] == Meant(h[i])
    decreases |h|
  {
    var n := |h| - 1;
    if key in CacheAfter(h[..n]) {
      i := CacheFromHistory(h[..n], key);
    } else {
      i := n;
    }
  }

  /** Whatever the names and labels, a request gets a descriptor that differs from the one it means in the constant
      labels at most; in particular it has as many label values as the descriptor has variable labels. */
  lemma RightButConsts(h: seq<Ask>, a: Ask)
    requires AllProper(h) && Proper(a)
    ensures var s := Emission(CacheAfter(h), a);
      && s.desc.(consts := ConstsOf(a)) == Meant(a)
      && |s.labels| == |s.desc.labels|
      && (s.desc.consts == map[] <==> ConstsOf(a) == map[])
  {
    if KeyOf(a) in CacheAfter(h) {
      var i := CacheFromHistory(h, KeyOf(a));
      KeysTell(h[i], a);
    }
  }

  /** Every request of the history got the descriptor it meant. */
  ghost predicate Coherent(h: seq<Ask>) {
    forall i | 0 <= i < |h| :: Emission(CacheAfter(h[..i]), h[i]).desc == Meant(h[i])
  }

  /** All labelled requests come from these tasks. */
  ghost predicate AskedBy(h: seq<Ask>, tasks: set<Who>) {
    forall i | 0 <= i < |h| && !h[i].OfScript? :: h[i].who in tasks
  }

  /** Two labelled tasks whose names join to one text, with different labels. */
  predicate Clash(w: Who, v: Who) {
    w.consts != map[] && v.consts != map[] && w.consts != v.consts && Identity(w) == Identity(v)
  }

  ghost predicate NoClash(tasks: set<Who>) {
    forall w, v | w in tasks && v in tasks :: !Clash(w, v)
  }

  lemma CoherentWithoutClash(h: seq<Ask>, tasks: set<Who>)
    requires AllProper(h) && AskedBy(h, tasks) && NoClash(tasks)
    ensures Coherent(h)
  {
    forall i | 0 <= i < |h|
      ensures Emission(CacheAfter(h[..i]), h[i]).desc == Meant(h[i])
    {
      var past := h[..i];
      if KeyOf(h[i]) in CacheAfter(past) {
        var j := CacheFromHistory(past, KeyOf(h[i]));
        assert past[j] == h[j];
        KeysTell(h[j], h[i]);
        if ConstsOf(h[i]) != map[] {
          assert !Clash(h[j].who, h[i].who);
        }
      }
    }
  }

  lemma ClashGoesWrong(tasks: set<Who>, w: Who, v: Who) returns (h: seq<Ask>)
    requires w in tasks && v in tasks && Clash(w, v)
    ensures AllProper(h) && AskedBy(h, tasks) && !Coherent(h)
  {
    var a, b := OfTask(ResultGauge, w, 1.0), OfTask(ResultGauge, v, 1.0);
    h := [a, b];
    KeyText(a);
    KeyText(b);
    assert h[..1] == [a] && [a][..0] == [];
    assert CacheAfter([a]) == map[KeyOf(a) := Meant(a)];
    assert Emission(CacheAfter(h[..1]), h[1]).desc == Meant(a) != Meant(b);
  }

  /** The cache serves every history of these tasks correctly exactly when no two of them clash. */
  lemma CoherentExactlyWithoutClash(tasks: set<Who>)
    ensures (forall h: seq<Ask> | AllProper(h) && AskedBy(h, tasks) :: Coherent(h)) <==> NoClash(tasks)
  {
    if NoClash(tasks) {
      forall h: seq<Ask> | AllProper(h) && AskedBy(h, tasks)
        ensures Coherent(h)
      {
        CoherentWithoutClash(h, tasks);
      }
    } else {
      var w, v :| w in tasks && v in tasks && Clash(w, v);
      var h := ClashGoesWrong(tasks, w, v);
    }
  }

  /** No bar in any name, and one set of labels for each (job, script, task): then nothing clashes. */
  lemma NoBarNoClash(tasks: set<Who>)
    requires forall w | w in tasks :: NoBar(w.job) && NoBar(w.script) && NoBar(w.task)
    requires forall w, v | w in tasks && v in tasks && Place(w) == Place(v) :: w.consts == v.consts
    ensures NoClash(tasks)
  {
    forall w, v | w in tasks && v in tasks && Identity(w) == Identity(v)
      ensures Place(w) == Place(v)
    {
      IdentityTold(w, v);
    }
  }

  lemma IdentityTold(w: Who, v: Who)
    requires NoBar(w.job) && NoBar(w.script) && NoBar(v.job) && NoBar(v.script)
    requires Identity(w) == Identity(v)
    ensures Place(w) == Place(v)
  {
    forall x | x == w || x == v
      ensures Identity(x) == x.job + "|" + x.script + "|" + x.task
    {
      assert Place(x) == [x.job] + ([x.script] + [x.task]);
      JoinMore(x.job, [x.script] + [x.task]);
      JoinMore(x.script, [x.task]);
    }
    CutTwice(w.job, w.script, w.task);
    CutTwice(v.job, v.script, v.task);
  }

  /** A bar in a job's name lets one task borrow the labels of another. */
  lemma BarClashes()
    ensures Clash(Who("a|b", "c", "t", map["env" := "x"]), Who("a", "b|c", "t", map["env" := "y"]))
  {
    var w, v := Who("a|b", "c", "t", map["env" := "x"]), Who("a", "b|c", "t", map["env" := "y"]);
    assert ["a|b", "c", "t"][1..] == ["c", "t"] && ["c", "t"][1..] == ["t"];
    assert ["a", "b|c", "t"][1..] == ["b|c", "t"] && ["b|c", "t"][1..] == ["t"];
    assert Identity(w) == "a|b|c|t" == Identity(v);
    assert w.consts["env"] != v.consts["env"];
  }
}
