/** A runner that starts one worker per target and waits for all: workers update one counter and one table under locks,
    in any interleaving with each other and with the loop that starts them. Each single write is a step, which is finer
    than the program's critical sections. */
module FanOut {
  import opened Records

  /** The maps of a result, as one table. */
  datatype Column = Timings | HttpStatus | Regex | Captures | CaptureMatches

  datatype Key = Key(column: Column, target: string)

  datatype Value = Number(n: int) | Flag(b: bool) | Text(s: string)

  datatype Write = Count | Put(key: Key, value: Value)

  /** What one worker writes, in its order. */
  type Script = seq<Write>

  /** `stop` is the target at which the starting loop gives up, if there is one. */
  datatype Plan = Plan(scripts: seq<Script>, stop: Option<nat>) {
    ghost predicate Valid() {
      && (stop.Some? ==> stop.value < |scripts|)
      && forall i | 0 <= i < |scripts| :: CountsOnce(scripts[i])
    }
  }

  ghost predicate CountsOnce(p: Script) {
    forall a, b | 0 <= a < |p| && 0 <= b < |p| && p[a].Count? && p[b].Count? :: a == b
  }

  datatype Main = Starting(k: nat) | GaveUp | Returned(succ: bool, table: map<Key, Value>)

  datatype State = State(main: Main, started: nat, at: seq<nat>, done: nat, table: map<Key, Value>)

  ghost predicate Shape(plan: Plan, s: State) {
    && |s.at| == |plan.scripts|
    && s.started <= |s.at|
    && (forall i | 0 <= i < |s.at| :: s.at[i] <= |plan.scripts[i]| && (i >= s.started ==> s.at[i] == 0))
    && (s.main.Starting? ==> s.main.k == s.started)
  }

  function Zeros(n: nat): seq<nat> {
    seq(n, i => 0)
  }

  function Init(plan: Plan): State {
    State(Starting(0), 0, Zeros(|plan.scripts|), 0, map[])
  }

  datatype Move = Start | Work(i: nat)

  ghost predicate AllDone(plan: Plan, s: State)
    requires Shape(plan, s)
  {
    forall i | 0 <= i < s.started :: s.at[i] == |plan.scripts[i]|
  }

  /** The starting loop waits for all workers once it has started them. */
  ghost predicate Enabled(plan: Plan, s: State, m: Move)
    requires Shape(plan, s)
  {
    match m
    case Start => s.main.Starting? && (s.main.k == |plan.scripts| ==> AllDone(plan, s))
    case Work(i) => i < s.started && s.at[i] < |plan.scripts[i]|
  }

  ghost function Apply(plan: Plan, s: State, m: Move): (s': State)
    requires Shape(plan, s) && Enabled(plan, s, m)
    ensures Shape(plan, s')
  {
    match m
    case Start =>
      if s.main.k == |plan.scripts| then s.(main := Returned(s.done == |plan.scripts|, s.table))
      else if plan.stop == Some(s.main.k) then s.(main := GaveUp)
      else s.(main := Starting(s.main.k + 1), started := s.started + 1)
    case Work(i) =>
      var w := plan.scripts[i][s.at[i]];
      var s1 := s.(at := s.at[i := s.at[i] + 1]);
      if w.Count? then s1.(done := s.done + 1) else s1.(table := s.table[w.key := w.value])
  }

  ghost predicate Runs(plan: Plan, s: State, moves: seq<Move>)
    requires Shape(plan, s)
    decreases |moves|
  {
    moves == [] || (Enabled(plan, s, moves[0]) && Runs(plan, Apply(plan, s, moves[0]), moves[1..]))
  }

  ghost function After(plan: Plan, s: State, moves: seq<Move>): (s': State)
    requires Shape(plan, s) && Runs(plan, s, moves)
    ensures Shape(plan, s')
    decreases |moves|
  {
    if moves == [] then s else After(plan, Apply(plan, s, moves[0]), moves[1..])
  }

  // ----- what the shared variables hold at any moment -----

  predicate Counts(p: Script) {
    exists j :: 0 <= j < |p| && p[j].Count?
  }

  /** The value that a worker, having written this much, last put under a key. */
  function LastPut(p: Script, k: Key): Option<Value>
    decreases |p|
  {
    if p == [] then None
    else
      var w := p[|p| - 1];
      if w.Put? && w.key == k then Some(w.value) else LastPut(p[..|p| - 1], k)
  }

  ghost function Written(plan: Plan, s: State, i: nat): Script
    requires Shape(plan, s) && i < |plan.scripts|
  {
    plan.scripts[i][..s.at[i]]
  }

  ghost function Counted(plan: Plan, s: State): set<nat>
    requires Shape(plan, s)
  {
    set i: nat | i < |plan.scripts| && Counts(Written(plan, s, i))
  }

  ghost predicate Holder(plan: Plan, s: State, k: Key, i: nat)
    requires Shape(plan, s) && k in s.table
  {
    i < |plan.scripts| && LastPut(Written(plan, s, i), k) == Some(s.table[k])
  }

  /** The counter counts the workers that have counted; every cell is some worker's latest word on its key, and every
      key that a worker has put is there. */
  ghost predicate Inv(plan: Plan, s: State) {
    && plan.Valid() && Shape(plan, s)
    && s.done == |Counted(plan, s)|
    && (forall k | k in s.table :: exists i: nat :: Holder(plan, s, k, i))
    && (forall i: nat, k | i < |plan.scripts| && LastPut(Written(plan, s, i), k).Some? :: k in s.table)
    && (plan.stop.Some? ==> s.started <= plan.stop.value && !s.main.Returned?)
    && (plan.stop.None? ==> !s.main.GaveUp?)
    && (s.main.Returned? ==>
          && s.started == |plan.scripts| && AllDone(plan, s)
          && s.main.succ == (s.done == |plan.scripts|) && s.main.table == s.table)
  }

  lemma WrittenMore(plan: Plan, s: State, i: nat)
    requires plan.Valid() && Shape(plan, s) && Enabled(plan, s, Work(i))
    ensures var w := plan.scripts[i][s.at[i]]; var s' := Apply(plan, s, Work(i));
      && Written(plan, s', i) == Written(plan, s, i) + [w]
      && (forall j: nat | j < |plan.scripts| && j != i :: Written(plan, s', j) == Written(plan, s, j))
  {
  }

  lemma PutMore(p: Script, w: Write, k: Key)
    ensures LastPut(p + [w], k) == if w.Put? && w.key == k then Some(w.value) else LastPut(p, k)
  {
  }

  lemma CountMore(plan: Plan, s: State, i: nat)
    requires plan.Valid() && Shape(plan, s) && Enabled(plan, s, Work(i))
    ensures var s' := Apply(plan, s, Work(i));
      |Counted(plan, s')| == |Counted(plan, s)| + if plan.scripts[i][s.at[i]].Count? then 1 else 0
  {
    var w, s' := plan.scripts[i][s.at[i]], Apply(plan, s, Work(i));
    WrittenMore(plan, s, i);
    var p := Written(plan, s, i);
    assert (p + [w])[|p|] == w;
    if w.Count? {
      assert forall j | 0 <= j < |p| :: p[j] == plan.scripts[i][j];
      assert !Counts(p);
      assert Counted(plan, s') == Counted(plan, s) + {i};
    } else {
      if Counts(p) {
        var j :| 0 <= j < |p| && p[j].Count?;
        assert (p + [w])[j].Count?;
      }
      assert Counted(plan, s') == Counted(plan, s);
    }
  }

  lemma WorkKeeps(plan: Plan, s: State, i: nat)
    requires Inv(plan, s) && Enabled(plan, s, Work(i))
    ensures Inv(plan, Apply(plan, s, Work(i)))
  {
    var w, s' := plan.scripts[i][s.at[i]], Apply(plan, s, Work(i));
    WrittenMore(plan, s, i);
    CountMore(plan, s, i);
    forall k | k in s'.table
      ensures exists j: nat :: Holder(plan, s', k, j)
    {
      PutMore(Written(plan, s, i), w, k);
      if w.Put? && w.key == k {
        assert Holder(plan, s', k, i);
      } else {
        var j: nat :| Holder(plan, s, k, j);
        assert Holder(plan, s', k, j);
      }
    }
    forall j: nat, k | j < |plan.scripts| && LastPut(Written(plan, s', j), k).Some?
      ensures k in s'.table
    {
      PutMore(Written(plan, s, i), w, k);
      assert j != i ==> LastPut(Written(plan, s, j), k).Some?;
    }
  }

  lemma StartKeeps(plan: Plan, s: State)
    requires Inv(plan, s) && Enabled(plan, s, Start)
    ensures Inv(plan, Apply(plan, s, Start))
  {
    var s' := Apply(plan, s, Start);
    assert forall i: nat | i < |plan.scripts| :: Written(plan, s', i) == Written(plan, s, i);
    assert Counted(plan, s') == Counted(plan, s);
    forall k | k in s'.table
      ensures exists j: nat :: Holder(plan, s', k, j)
    {
      var j: nat :| Holder(plan, s, k, j);
      assert Holder(plan, s', k, j);
    }
  }

  lemma InitKeeps(plan: Plan)
    requires plan.Valid()
    ensures Inv(plan, Init(plan))
  {
  }

  lemma {:induction false} RunsKeep(plan: Plan, s: State, moves: seq<Move>)
    requires Inv(plan, s) && Runs(plan, s, moves)
    ensures Inv(plan, After(plan, s, moves))
    decreases |moves|
  {
    if moves != [] {
      match moves[0] {
        case Start => StartKeeps(plan, s);
        case Work(i) => WorkKeeps(plan, s, i);
      }
      RunsKeep(plan, Apply(plan, s, moves[0]), moves[1..]);
    }
  }

  // ----- what comes back -----

  /** An interleaving that has come to its end. */
  ghost predicate Complete(plan: Plan, moves: seq<Move>) {
    plan.Valid() && Runs(plan, Init(plan), moves) && !After(plan, Init(plan), moves).main.Starting?
  }

  ghost function Outcome(plan: Plan, moves: seq<Move>): Main
    requires Complete(plan, moves)
  {
    After(plan, Init(plan), moves).main
  }

  lemma AllWritten(plan: Plan, s: State)
    requires Inv(plan, s) && s.main.Returned?
    ensures forall i: nat | i < |plan.scripts| :: Written(plan, s, i) == plan.scripts[i]
  {
  }

  lemma AllCounted(plan: Plan, s: State)
    requires Inv(plan, s) && s.main.Returned?
    ensures s.done == |plan.scripts| <==> forall i | 0 <= i < |plan.scripts| :: Counts(plan.scripts[i])
  {
    var n := |plan.scripts|;
    var all := FirstNumbers(n);
    AllWritten(plan, s);
    if forall i | 0 <= i < n :: Counts(plan.scripts[i]) {
      assert Counted(plan, s) == all;
    } else {
      var i :| 0 <= i < n && !Counts(plan.scripts[i]);
      assert i !in Counted(plan, s);
      SubsetSize(Counted(plan, s), all - {i});
    }
  }

  function FirstNumbers(n: nat): (r: set<nat>)
    ensures |r| == n && forall i: nat :: i in r <==> i < n
  {
    if n == 0 then {} else FirstNumbers(n - 1) + {n - 1}
  }

  lemma {:induction false} SubsetSize<T>(a: set<T>, b: set<T>)
    requires a <= b
    ensures |a| <= |b|
    decreases |a|
  {
    if a != {} {
      var x :| x in a;
      SubsetSize(a - {x}, b - {x});
    }
  }

  /** Worker i puts this key, and no other does. */
  ghost predicate Alone(plan: Plan, i: int, k: Key)
    requires 0 <= i < |plan.scripts|
  {
    && LastPut(plan.scripts[i], k).Some?
    && forall j | 0 <= j < |plan.scripts| && j != i :: LastPut(plan.scripts[j], k).None?
  }

  lemma FinalTable(plan: Plan, s: State, k: Key)
    requires Inv(plan, s) && s.main.Returned?
    ensures k in s.table <==> exists i :: 0 <= i < |plan.scripts| && LastPut(plan.scripts[i], k).Some?
    ensures forall i | 0 <= i < |plan.scripts| && Alone(plan, i, k) ::
              k in s.table && s.table[k] == LastPut(plan.scripts[i], k).value
  {
    AllWritten(plan, s);
    if k in s.table {
      var j: nat :| Holder(plan, s, k, j);
      assert Written(plan, s, j) == plan.scripts[j];
    } else {
      forall i: nat | i < |plan.scripts|
        ensures LastPut(plan.scripts[i], k).None?
      {
        assert Written(plan, s, i) == plan.scripts[i];
      }
    }
  }

  /** In every interleaving that comes to its end: the loop gives up exactly when it has a target to give up at;
      otherwise the verdict says that every worker counted, the table has exactly the keys that some worker puts, and
      where one worker alone puts a key, its last value. */
  lemma EveryInterleaving(plan: Plan, moves: seq<Move>)
    requires Complete(plan, moves)
    ensures Outcome(plan, moves).GaveUp? <==> plan.stop.Some?
    ensures plan.stop.None? ==>
              var r := Outcome(plan, moves);
              && r.Returned?
              && (r.succ <==> forall i | 0 <= i < |plan.scripts| :: Counts(plan.scripts[i]))
              && (forall k :: k in r.table <==>
                    exists i :: 0 <= i < |plan.scripts| && LastPut(plan.scripts[i], k).Some?)
              && (forall i, k | 0 <= i < |plan.scripts| && Alone(plan, i, k) ::
                    r.table[k] == LastPut(plan.scripts[i], k).value)
  {
    InitKeeps(plan);
    RunsKeep(plan, Init(plan), moves);
    var s := After(plan, Init(plan), moves);
    if s.main.Returned? {
      AllCounted(plan, s);
      forall k {
        FinalTable(plan, s, k);
      }
    }
  }

  /** As long as the loop is not back there is a step to take. */
  lemma NeverStuck(plan: Plan, s: State)
    requires Shape(plan, s) && s.main.Starting?
    ensures exists m :: Enabled(plan, s, m)
  {
    if Enabled(plan, s, Start) {
    } else {
      var i :| 0 <= i < s.started && s.at[i] != |plan.scripts[i]|;
      assert Enabled(plan, s, Work(i));
    }
  }

  function WritesLeft(scripts: seq<Script>, at: seq<nat>): nat
    requires |at| == |scripts| && forall i | 0 <= i < |at| :: at[i] <= |scripts[i]|
    decreases |scripts|
  {
    if scripts == [] then 0
    else
      var n := |scripts| - 1;
      WritesLeft(scripts[..n], at[..n]) + |scripts[n]| - at[n]
  }

  lemma {:induction false} OneWriteLess(scripts: seq<Script>, at: seq<nat>, i: nat)
    requires |at| == |scripts| && forall j | 0 <= j < |at| :: at[j] <= |scripts[j]|
    requires i < |at| && at[i] < |scripts[i]|
    ensures WritesLeft(scripts, at[i := at[i] + 1]) == WritesLeft(scripts, at) - 1
    decreases |scripts|
  {
    var n := |scripts| - 1;
    if i < n {
      assert at[i := at[i] + 1][..n] == at[..n][i := at[i] + 1];
      OneWriteLess(scripts[..n], at[..n], i);
    } else {
      assert at[i := at[i] + 1][..n] == at[..n];
    }
  }

  ghost function Remaining(plan: Plan, s: State): nat
    requires Shape(plan, s)
  {
    WritesLeft(plan.scripts, s.at) + |plan.scripts| - s.started + if s.main.Starting? then 1 else 0
  }

  /** Every interleaving ends: it has no more moves than there is work. */
  lemma {:induction false} EveryRunEnds(plan: Plan, s: State, moves: seq<Move>)
    requires Shape(plan, s) && Runs(plan, s, moves)
    ensures |moves| <= Remaining(plan, s)
    decreases |moves|
  {
    if moves != [] {
      if moves[0].Work? {
        OneWriteLess(plan.scripts, s.at, moves[0].i);
      }
      EveryRunEnds(plan, Apply(plan, s, moves[0]), moves[1..]);
    }
  }

  lemma {:induction false} ToReturn(plan: Plan, s: State) returns (moves: seq<Move>)
    requires Shape(plan, s)
    ensures Runs(plan, s, moves) && !After(plan, s, moves).main.Starting?
    decreases Remaining(plan, s)
  {
    moves := [];
    if s.main.Starting? {
      NeverStuck(plan, s);
      var m :| Enabled(plan, s, m);
      if m.Work? {
        OneWriteLess(plan.scripts, s.at, m.i);
      }
      var rest := ToReturn(plan, Apply(plan, s, m));
      moves := [m] + rest;
      assert moves[1..] == rest;
    }
  }

  /** Some interleaving comes to its end. */
  lemma ComesBack(plan: Plan)
    requires plan.Valid()
    ensures exists moves :: Complete(plan, moves)
  {
    var moves := ToReturn(plan, Init(plan));
    assert Complete(plan, moves);
  }

  // ----- scripts put together -----

  lemma {:induction false} PutConcat(p: Script, q: Script, k: Key)
    ensures LastPut(p + q, k) == if LastPut(q, k).Some? then LastPut(q, k) else LastPut(p, k)
    decreases |q|
  {
    if q == [] {
      assert p + q == p;
    } else {
      assert (p + q)[..|p + q| - 1] == p + q[..|q| - 1];
      PutConcat(p, q[..|q| - 1], k);
    }
  }

  lemma CountsConcat(p: Script, q: Script)
    ensures Counts(p + q) <==> Counts(p) || Counts(q)
  {
    if Counts(p) {
      var j :| 0 <= j < |p| && p[j].Count?;
      assert (p + q)[j].Count?;
    }
    if Counts(q) {
      var j :| 0 <= j < |q| && q[j].Count?;
      assert (p + q)[|p| + j].Count?;
    }
  }
}
