/** Run records and the status machine shared by scripts, groups, tasks and probes.

    A run record is a plain value: the program copies it as a whole, so it is a datatype.
    A worker is updated in place, so it is a class; `WorkerState` is its abstract value and
    carries the transition functions that the step system of module `Engine` uses as well. */
module Records {

  datatype Option<+T> = None | Some(value: T)

  /** One run record. `runtime` is a duration on an abstract clock; it is what `Completed` tests. */
  datatype Result = Result(startedAt: int, runtime: int, success: bool, runCounter: nat) {
    predicate Completed() {
      runtime != 0
    }

    function PrepareToStart(now: int): Result {
      Result(now, 0, false, runCounter + 1)
    }

    function End(succ: bool, now: int): Result {
      this.(runtime := now - startedAt, success := succ)
    }
  }

  const BLANK := Result(0, 0, false, 0)

  datatype EStatus = New | Running | Finished

  datatype WorkerState = WorkerState(status: EStatus, cur: Result, prev: Result) {
    /** What a call that asks for the running status leaves behind; a running worker refuses it. */
    function Run(now: int): WorkerState {
      if status == Running then this
      else this.(status := Running, cur := cur.PrepareToStart(now))
    }

    /** What a call that reports the end of a run leaves behind; only a running worker accepts it. */
    function Finish(succ: bool, now: int): WorkerState {
      if status != Running then this
      else
        var r := cur.End(succ, now);
        WorkerState(Finished, r, r)
    }
  }

  const FRESH := WorkerState(New, BLANK, BLANK)

  class Worker {
    var status: EStatus
    var curResult: Result
    var prevResult: Result

    constructor ()
      ensures State() == FRESH
    {
      status, curResult, prevResult := New, BLANK, BLANK;
    }

    function State(): WorkerState
      reads this
    {
      WorkerState(status, curResult, prevResult)
    }

    method EStatusRun(now: int) returns (accepted: bool)
      modifies this
      ensures State() == old(State()).Run(now)
      ensures accepted <==> old(status) != Running
      ensures !accepted ==> State() == old(State())
      ensures accepted ==> status == Running && curResult.runCounter == old(curResult.runCounter) + 1
    {
      if status == Running {
        return false;
      }
      status := Running;
      curResult := curResult.PrepareToStart(now);
      return true;
    }

    method EStatusFinish(succ: bool, now: int) returns (accepted: bool)
      modifies this
      ensures State() == old(State()).Finish(succ, now)
      ensures accepted <==> old(status) == Running
      ensures !accepted ==> State() == old(State())
      ensures accepted ==> prevResult == curResult && prevResult.success == succ
    {
      if status != Running {
        return false;
      }
      status := Finished;
      curResult := curResult.End(succ, now);
      prevResult := curResult;
      return true;
    }
  }

  /** Between two accepted starts of one worker there is exactly one accepted finish, so the counter of
      the finished record trails the counter of the current one by one while running and equals it
      otherwise. Every sequence of calls keeps this. */
  datatype WorkerCall = CallRun(now: int) | CallFinish(succ: bool, now: int)

  function AfterCalls(w: WorkerState, calls: seq<WorkerCall>): WorkerState
    decreases |calls|
  {
    if calls == [] then w
    else
      var w' := match calls[0] case CallRun(now) => w.Run(now) case CallFinish(succ, now) => w.Finish(succ, now);
      AfterCalls(w', calls[1..])
  }

  predicate Balanced(w: WorkerState) {
    && (w.status == Running ==> w.cur.runCounter == w.prev.runCounter + 1 && !w.cur.success)
    && (w.status == Finished ==> w.cur == w.prev && w.cur.runCounter > 0)
    && (w.status == New ==> w == FRESH)
  }

  lemma {:induction false} CountersBalance(w: WorkerState, calls: seq<WorkerCall>)
    requires Balanced(w)
    ensures Balanced(AfterCalls(w, calls))
    decreases |calls|
  {
    if calls != [] {
      var w' := match calls[0] case CallRun(now) => w.Run(now) case CallFinish(succ, now) => w.Finish(succ, now);
      CountersBalance(w', calls[1..]);
    }
  }
}
