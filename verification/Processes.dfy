/** What a runner hears of a process it has started, one event at a time. */
module Processes {

  /** `runtime` is zero for a process that could not be started. */
  datatype Status = Status(runtime: nat, exit: int, stdout: seq<string>)

  const NO_STATUS := Status(0, 0, [])

  datatype Event = Ended(status: Status) | ContextOver | TimeOver | OutLine(line: string) | ErrLine(line: string)

  ghost predicate Decisive(decides: Event -> bool, events: seq<Event>) {
    exists i :: 0 <= i < |events| && decides(events[i])
  }

  function First(decides: Event -> bool, events: seq<Event>): (d: nat)
    requires Decisive(decides, events)
    ensures d < |events| && decides(events[d])
    ensures forall i | 0 <= i < d :: !decides(events[i])
  {
    if decides(events[0]) then 0
    else
      var i :| 0 <= i < |events| && decides(events[i]);
      assert decides(events[1..][i - 1]);
      First(decides, events[1..]) + 1
  }

  /** The status heard last. */
  function LastStatus(events: seq<Event>): Status
    decreases |events|
  {
    if events == [] then NO_STATUS
    else if events[|events| - 1].Ended? then events[|events| - 1].status
    else LastStatus(events[..|events| - 1])
  }

  predicate Contains(s: string, part: string) {
    part <= s || (s != [] && Contains(s[1..], part))
  }

  /** The status heard last is that of event k, the last end of a process, or none if there is no such event. */
  lemma {:induction false} LastStatusMeans(events: seq<Event>) returns (k: int)
    ensures -1 <= k < |events| && forall j | k < j < |events| :: !events[j].Ended?
    ensures if k >= 0 then events[k].Ended? && LastStatus(events) == events[k].status
            else LastStatus(events) == Status(0, 0, [])
    decreases |events|
  {
    k := |events| - 1;
    if events != [] && !events[k].Ended? {
      var init := events[..k];
      k := LastStatusMeans(init);
      assert forall i | 0 <= i < |init| :: init[i] == events[i];
    }
  }

  /** A line contains a text if the text is found at some place of it. */
  lemma {:induction false} ContainsMeans(s: string, part: string)
    ensures Contains(s, part) <==> exists i :: 0 <= i <= |s| && part <= s[i..]
    decreases |s|
  {
    if s != "" {
      ContainsMeans(s[1..], part);
      if i :| 0 <= i <= |s[1..]| && part <= s[1..][i..] {
        assert s[i + 1..] == s[1..][i..];
      }
      if i :| 0 <= i <= |s| && part <= s[i..] {
        if i > 0 {
          assert s[1..][i - 1..] == s[i..];
        } else {
          assert s[0..] == s;
        }
      }
    }
    assert s[0..] == s;
  }
}
