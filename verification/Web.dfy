/** The web probe: one request per address, all answers checked. Addresses are parsed by a parameter; the answers are
    given. */
module Web {
  import opened Records
  import opened TextChecks
  import opened FanOut

  datatype Config = Config(wanted: bool, httpStatus: int, checks: Checks)

  /** A response with its time, status and body, which may turn out unreadable. */
  datatype Answer = NoAnswer | Answer(time: int, status: int, body: Option<string>)

  /** `scheme` gives the scheme of an address, "" if it has none, or nothing if the address cannot be parsed. */
  datatype Setup = Setup(config: Config, scheme: string -> Option<string>, urls: seq<string>, answers: seq<Answer>) {
    ghost predicate Valid() {
      |answers| == |urls| && Compiled(config.checks)
    }
  }

  function Normalized(scheme: string -> Option<string>, url: string): string {
    if scheme(url) == Some("") then "https://" + url else url
  }

  function One(b: bool, w: Write): Script {
    if b then [w] else []
  }

  /** The error that a worker ends with, if any. */
  predicate Errs(c: Config, a: Answer)
    requires Compiled(c.checks)
  {
    a.NoAnswer? || (c.httpStatus != 0 && a.status != c.httpStatus) || CheckBody(c.checks, a.body).err
  }

  function Puts(c: Config, url: string, a: Answer): Script
    requires Compiled(c.checks)
  {
    match a
    case NoAnswer =>
      One(c.checks.regexp.Some?, Put(Key(Regex, url), Flag(false)))
      + One(c.checks.group > 0, Put(Key(Captures, url), Text("")))
      + One(c.checks.capture.Some?, Put(Key(CaptureMatches, url), Flag(false)))
    case Answer(time, status, body) =>
      var b := CheckBody(c.checks, body);
      One(true, Put(Key(Timings, url), Number(time)))
      + One(true, Put(Key(HttpStatus, url), Number(status)))
      + One(c.checks.regexp.Some?, Put(Key(Regex, url), Flag(b.matched)))
      + One(c.checks.group > 0, Put(Key(Captures, url), Text(b.capture)))
      + One(b.captureMatched.Some?, Put(Key(CaptureMatches, url), Flag(b.captureMatched == Some(true))))
  }

  /** The counter comes last: an error counts when failure is expected, its absence when success is. */
  function Worker(c: Config, url: string, a: Answer): Script
    requires Compiled(c.checks)
  {
    Puts(c, url, a) + One(Errs(c, a) != c.wanted, Count)
  }

  /** The first address that cannot be parsed. */
  function FirstBad(scheme: string -> Option<string>, urls: seq<string>): (k: Option<nat>)
    ensures k.Some? ==> k.value < |urls| && scheme(urls[k.value]).None?
    ensures k.None? <==> forall i | 0 <= i < |urls| :: scheme(urls[i]).Some?
  {
    if urls == [] then None
    else if scheme(urls[0]).None? then Some(0)
    else
      var k := FirstBad(scheme, urls[1..]);
      assert forall i | 1 <= i < |urls| :: urls[i] == urls[1..][i - 1];
      if k.None? then None else Some(k.value + 1)
  }

  ghost function PlanOf(s: Setup): (p: Plan)
    requires s.Valid()
    ensures |p.scripts| == |s.urls|
    ensures forall i | 0 <= i < |s.urls| ::
              p.scripts[i] == Worker(s.config, Normalized(s.scheme, s.urls[i]), s.answers[i])
  {
    Plan(seq(|s.urls|, i requires 0 <= i < |s.urls| =>
               Worker(s.config, Normalized(s.scheme, s.urls[i]), s.answers[i])),
         FirstBad(s.scheme, s.urls))
  }

  // ----- what is asked for -----

  /** The address answered as it should. */
  ghost predicate Good(c: Config, a: Answer) {
    && a.Answer?
    && (c.httpStatus == 0 || a.status == c.httpStatus)
    && (c.checks.regexp.Some? ==> a.body.Some? && Holds(c.checks, a.body.value))
  }

  /** What one address contributes to the result. */
  ghost function Expected(c: Config, a: Answer, column: Column): Option<Value>
    requires Compiled(c.checks)
  {
    match column
    case Timings => if a.Answer? then Some(Number(a.time)) else None
    case HttpStatus => if a.Answer? then Some(Number(a.status)) else None
    case Regex =>
      if c.checks.regexp.None? then None
      else Some(Flag(a.Answer? && a.body.Some? && Matches(c.checks, a.body.value)))
    case Captures =>
      if c.checks.group <= 0 then None
      else Some(Text(if a.Answer? && a.body.Some? then Captured(c.checks, a.body.value) else ""))
    case CaptureMatches =>
      if c.checks.capture.None? || (a.Answer? && a.body.None?) then None
      else Some(Flag(a.Answer? && c.checks.capture.value.find(Captured(c.checks, a.body.value)) != []))
  }

  lemma OnePut(b: bool, w: Write, k: Key)
    ensures LastPut(One(b, w), k) == if b && w.Put? && w.key == k then Some(w.value) else None
    ensures Counts(One(b, w)) <==> b && w.Count?
  {
  }

  lemma FailurePuts(c: Config, url: string, k: Key)
    requires Compiled(c.checks)
    ensures LastPut(Puts(c, url, NoAnswer), k) == if k.target == url then Expected(c, NoAnswer, k.column) else None
  {
    var w1, w2, w3 :=
      One(c.checks.regexp.Some?, Put(Key(Regex, url), Flag(false))),
      One(c.checks.group > 0, Put(Key(Captures, url), Text(""))),
      One(c.checks.capture.Some?, Put(Key(CaptureMatches, url), Flag(false)));
    PutConcat(w1 + w2, w3, k);
    PutConcat(w1, w2, k);
  }

  lemma AnswerPuts(c: Config, url: string, a: Answer, k: Key)
    requires Compiled(c.checks) && a.Answer?
    ensures LastPut(Puts(c, url, a), k) == if k.target == url then Expected(c, a, k.column) else None
  {
    BodyAsExpected(c, a);
    var b := CheckBody(c.checks, a.body);
    var w1 := One(true, Put(Key(Timings, url), Number(a.time)));
    var w2 := One(true, Put(Key(HttpStatus, url), Number(a.status)));
    var w3, w4 := One(c.checks.regexp.Some?, Put(Key(Regex, url), Flag(b.matched))),
                  One(c.checks.group > 0, Put(Key(Captures, url), Text(b.capture)));
    var w5 := One(b.captureMatched.Some?, Put(Key(CaptureMatches, url), Flag(b.captureMatched == Some(true))));
    PutConcat(w1 + w2 + w3 + w4, w5, k);
    PutConcat(w1 + w2 + w3, w4, k);
    PutConcat(w1 + w2, w3, k);
    PutConcat(w1, w2, k);
  }

  lemma PutsDoNotCount(c: Config, url: string, a: Answer)
    requires Compiled(c.checks)
    ensures !Counts(Puts(c, url, a))
  {
  }

  lemma PutsAsExpected(c: Config, url: string, a: Answer, k: Key)
    requires Compiled(c.checks)
    ensures LastPut(Puts(c, url, a), k) == if k.target == url then Expected(c, a, k.column) else None
  {
    if a.NoAnswer? {
      FailurePuts(c, url, k);
    } else {
      AnswerPuts(c, url, a, k);
    }
  }

  lemma BodyAsExpected(c: Config, a: Answer)
    requires Compiled(c.checks) && a.Answer?
    ensures var b := CheckBody(c.checks, a.body);
      && (c.checks.regexp.Some? ==> Expected(c, a, Regex) == Some(Flag(b.matched)))
      && (c.checks.group > 0 ==> Expected(c, a, Captures) == Some(Text(b.capture)))
      && Expected(c, a, CaptureMatches) == (if b.captureMatched.None? then None else Some(Flag(b.captureMatched.value)))
  {
  }

  lemma WorkerMeans(c: Config, url: string, a: Answer, k: Key)
    requires Compiled(c.checks)
    ensures LastPut(Worker(c, url, a), k) == if k.target == url then Expected(c, a, k.column) else None
    ensures Counts(Worker(c, url, a)) <==> (Good(c, a) == c.wanted)
    ensures CountsOnce(Worker(c, url, a))
  {
    PutsAsExpected(c, url, a, k);
    PutsDoNotCount(c, url, a);
    var last := One(Errs(c, a) != c.wanted, Count);
    PutConcat(Puts(c, url, a), last, k);
    CountsConcat(Puts(c, url, a), last);
    OnePut(Errs(c, a) != c.wanted, Count, k);
    if a.Answer? && a.body.Some? {
      ChecksMean(c.checks, a.body.value);
    }
  }

  ghost predicate Contributes(s: Setup, i: int, k: Key)
    requires s.Valid() && 0 <= i < |s.urls|
  {
    Normalized(s.scheme, s.urls[i]) == k.target && Expected(s.config, s.answers[i], k.column).Some?
  }

  lemma ScriptMeans(s: Setup, i: int, k: Key)
    requires s.Valid() && 0 <= i < |s.urls|
    ensures LastPut(PlanOf(s).scripts[i], k).Some? <==> Contributes(s, i, k)
    ensures Counts(PlanOf(s).scripts[i]) <==> Good(s.config, s.answers[i]) == s.config.wanted
    ensures CountsOnce(PlanOf(s).scripts[i])
  {
    WorkerMeans(s.config, Normalized(s.scheme, s.urls[i]), s.answers[i], k);
  }

  /** An address that cannot be parsed fails the run without a result. Otherwise, in every interleaving of the workers,
      the probe succeeds exactly when all addresses answered as they should, or, if failure is expected, when none
      did. */
  lemma VerdictOfWeb(s: Setup, moves: seq<Move>)
    requires s.Valid() && Complete(PlanOf(s), moves)
    ensures Outcome(PlanOf(s), moves).GaveUp? <==> exists i :: 0 <= i < |s.urls| && s.scheme(s.urls[i]).None?
    ensures Outcome(PlanOf(s), moves).Returned? ==>
              (Outcome(PlanOf(s), moves).succ <==>
                 forall i | 0 <= i < |s.urls| :: Good(s.config, s.answers[i]) == s.config.wanted)
  {
    EveryInterleaving(PlanOf(s), moves);
    forall i | 0 <= i < |s.urls|
      ensures Counts(PlanOf(s).scripts[i]) <==> Good(s.config, s.answers[i]) == s.config.wanted
    {
      ScriptMeans(s, i, Key(Timings, ""));
    }
  }

  /** A column of the result has an address exactly when an answer for that address contributes to it. */
  lemma KeysOfWeb(s: Setup, moves: seq<Move>, k: Key)
    requires s.Valid() && Complete(PlanOf(s), moves) && Outcome(PlanOf(s), moves).Returned?
    ensures k in Outcome(PlanOf(s), moves).table <==> exists i :: 0 <= i < |s.urls| && Contributes(s, i, k)
  {
    var plan := PlanOf(s);
    EveryInterleaving(plan, moves);
    forall i | 0 <= i < |s.urls|
      ensures LastPut(plan.scripts[i], k).Some? <==> Contributes(s, i, k)
    {
      ScriptMeans(s, i, k);
    }
    if k in Outcome(plan, moves).table {
      var i :| 0 <= i < |plan.scripts| && LastPut(plan.scripts[i], k).Some?;
      assert Contributes(s, i, k);
    }
  }

  /** Every web probe comes back: its workers count once at most, as the general results assume. */
  lemma WebReturns(s: Setup)
    requires s.Valid()
    ensures exists moves :: Complete(PlanOf(s), moves)
  {
    forall i | 0 <= i < |s.urls|
      ensures CountsOnce(PlanOf(s).scripts[i])
    {
      ScriptMeans(s, i, Key(Timings, ""));
    }
    ComesBack(PlanOf(s));
  }

  ghost predicate DistinctUrls(s: Setup) {
    forall i, j | 0 <= i < j < |s.urls| :: Normalized(s.scheme, s.urls[i]) != Normalized(s.scheme, s.urls[j])
  }

  lemma OnlyOwnScript(s: Setup, i: nat, j: nat, column: Column)
    requires s.Valid() && DistinctUrls(s) && i < |s.urls| && j < |s.urls|
    ensures LastPut(PlanOf(s).scripts[j], Key(column, Normalized(s.scheme, s.urls[i]))) ==
            if j == i then Expected(s.config, s.answers[i], column) else None
  {
    WorkerMeans(s.config, Normalized(s.scheme, s.urls[j]), s.answers[j], Key(column, Normalized(s.scheme, s.urls[i])));
  }

  /** Where addresses differ after normalization, every cell is what its address contributes. */
  lemma Values(s: Setup, moves: seq<Move>, i: nat, column: Column)
    requires s.Valid() && Complete(PlanOf(s), moves) && Outcome(PlanOf(s), moves).Returned?
    requires DistinctUrls(s) && i < |s.urls|
    ensures var r := Outcome(PlanOf(s), moves).table; var k := Key(column, Normalized(s.scheme, s.urls[i]));
      Expected(s.config, s.answers[i], column) == if k in r then Some(r[k]) else None
  {
    var plan, k := PlanOf(s), Key(column, Normalized(s.scheme, s.urls[i]));
    EveryInterleaving(plan, moves);
    OwnCell(s, i, column);
  }

  lemma OwnCell(s: Setup, i: nat, column: Column)
    requires s.Valid() && DistinctUrls(s) && i < |s.urls|
    ensures var plan, k := PlanOf(s), Key(column, Normalized(s.scheme, s.urls[i]));
      && LastPut(plan.scripts[i], k) == Expected(s.config, s.answers[i], column)
      && (if Expected(s.config, s.answers[i], column).Some? then Alone(plan, i, k)
          else forall j | 0 <= j < |plan.scripts| :: LastPut(plan.scripts[j], k).None?)
  {
    forall j: nat | j < |s.urls| {
      OnlyOwnScript(s, i, j, column);
    }
  }

  /** Timings and statuses are there for exactly the addresses that answered; pattern results, where configured, for
      all. */
  lemma ResultColumns(s: Setup, moves: seq<Move>, i: nat)
    requires s.Valid() && Complete(PlanOf(s), moves) && Outcome(PlanOf(s), moves).Returned?
    requires DistinctUrls(s) && i < |s.urls|
    ensures var r := Outcome(PlanOf(s), moves).table; var u := Normalized(s.scheme, s.urls[i]);
      && (Key(Timings, u) in r <==> s.answers[i].Answer?)
      && (Key(HttpStatus, u) in r <==> s.answers[i].Answer?)
      && (Key(Regex, u) in r <==> s.config.checks.regexp.Some?)
      && (Key(Captures, u) in r <==> s.config.checks.group > 0)
      && (Key(CaptureMatches, u) in r <==>
            s.config.checks.capture.Some? && !(s.answers[i].Answer? && s.answers[i].body.None?))
  {
    Values(s, moves, i, Timings);
    Values(s, moves, i, HttpStatus);
    Values(s, moves, i, Regex);
    Values(s, moves, i, Captures);
    Values(s, moves, i, CaptureMatches);
  }

  /** The addresses under which results are found: one without a scheme gets "https://", others stay as they are. */
  lemma SchemeAdded(s: Setup, moves: seq<Move>, i: nat)
    requires s.Valid() && Complete(PlanOf(s), moves) && Outcome(PlanOf(s), moves).Returned?
    requires i < |s.urls| && s.answers[i].Answer?
    ensures var r := Outcome(PlanOf(s), moves).table;
      Key(Timings, if s.scheme(s.urls[i]) == Some("") then "https://" + s.urls[i] else s.urls[i]) in r
  {
    var k := Key(Timings, Normalized(s.scheme, s.urls[i]));
    KeysOfWeb(s, moves, k);
    assert Contributes(s, i, k);
  }
}
