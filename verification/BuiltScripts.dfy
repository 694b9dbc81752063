/** From the list of tasks to the order of their runs: what the script builder and the engine guarantee together. */
module BuiltScripts {
  import Grouping
  import opened Engine
  import opened EngineInvariant
  import EngineTheorems

  /** A script built by adding tasks, none of them misled by a name: in every schedule, while a task of one group is
      being run, every earlier task of another group has returned and been recorded in that very run, and no later task
      of another group has started. */
  lemma TasksRunInListOrder(reqs: seq<Grouping.Request>, opts: seq<Probe.Options>, acts: seq<Action>, c: nat, j: nat)
    requires Grouping.NeverMisled(Grouping.EMPTY, reqs)
    requires |opts| == |Grouping.AddAll(Grouping.EMPTY, reqs).place|
    requires var plan := Grouping.PlanOf(Grouping.AddAll(Grouping.EMPTY, reqs), opts);
      && Schedule(plan, acts) && c < |Reached(plan, acts).calls| && j < plan.N()
      && Live(Reached(plan, acts).calls[c].tasks[j])
    ensures var plan := Grouping.PlanOf(Grouping.AddAll(Grouping.EMPTY, reqs), opts);
      var s := Reached(plan, acts);
      forall i: nat | i < plan.N() && plan.groupOf[i] != plan.groupOf[j] ::
        if i < j then
          && s.calls[c].tasks[i] == Gone
          && s.tasks[i].prev.runCounter == s.probes[i].last.runCounter == RunNo(s)
          && VerdictOf(s.verdicts, RunNo(s), i).Some?
        else
          s.calls[c].tasks[i] == NotSpawned
  {
    var g := Grouping.AddAll(Grouping.EMPTY, reqs);
    var plan := Grouping.PlanOf(g, opts);
    Grouping.GroupsAreMaximalRuns(reqs);
    Grouping.PlanIsOrdered(g, opts);
    forall i: nat | i < plan.N() && plan.groupOf[i] != plan.groupOf[j]
      ensures var s := Reached(plan, acts);
        if i < j then
          && s.calls[c].tasks[i] == Gone
          && s.tasks[i].prev.runCounter == s.probes[i].last.runCounter == RunNo(s)
          && VerdictOf(s.verdicts, RunNo(s), i).Some?
        else
          s.calls[c].tasks[i] == NotSpawned
    {
      if i < j {
        EngineTheorems.HappensBefore(plan, acts, c, i, j);
      } else {
        EngineTheorems.NotStartedYet(plan, acts, c, j, i);
      }
    }
  }
}
