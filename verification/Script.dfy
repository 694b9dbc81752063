/** The script object that `AddTask` fills: tasks and groups are objects that it links and appends to. The ghost layout
    says what has been built, in the terms of module `Grouping`. */
module Script {
  import opened Records
  import Grouping
  import Handler

  class CGroup {
    const name: string
    const worker: Worker
    var tasks: seq<Handler.Task>

    constructor (name: string)
      ensures this.name == name && tasks == [] && fresh(worker) && worker.State() == FRESH
    {
      this.name := name;
      worker := new Worker();
      tasks := [];
    }

    method AddTask(t: Handler.Task)
      modifies this
      ensures tasks == old(tasks) + [t]
    {
      tasks := tasks + [t];
    }
  }

  class Script {
    const worker: Worker
    var tasks: seq<Handler.Task>
    var cgroups: seq<CGroup>
    var anonymous: CGroup?
    ghost var layout: Grouping.Layout

    constructor ()
      ensures Valid() && layout == Grouping.EMPTY && tasks == [] && fresh(worker) && worker.State() == FRESH
    {
      worker := new Worker();
      tasks, cgroups, anonymous := [], [], null;
      layout := Grouping.EMPTY;
    }

    /** The tasks of a group are the script's tasks with the numbers that the layout lists. */
    ghost predicate Holds(k: nat)
      requires k < |cgroups| == |layout.groups|
      reads this, cgroups
    {
      var members := layout.groups[k].members;
      && cgroups[k].name == layout.groups[k].name
      && |cgroups[k].tasks| == |members|
      && forall m | 0 <= m < |members| :: members[m] < |tasks| && cgroups[k].tasks[m] == tasks[members[m]]
    }

    ghost predicate Valid()
      reads this, tasks, cgroups
    {
      && Grouping.Shape(layout)
      && |tasks| == |layout.names| && |cgroups| == |layout.groups|
      && (forall k | 0 <= k < |cgroups| :: cgroups[k].name != "")
      && (forall k, l | 0 <= k < l < |cgroups| :: cgroups[k] != cgroups[l])
      && (forall i | 0 <= i < |tasks| :: tasks[i].cgroup == layout.names[i] != "")
      && (forall k | 0 <= k < |cgroups| :: Holds(k))
      && (layout.anon.None? ==> anonymous == null)
      && (layout.anon.Some? ==> anonymous == cgroups[layout.anon.value])
    }

    /** The generator never returns an empty name. */
    method NewCGroup(name: string, gen: string) returns (c: CGroup)
      requires Valid() && gen != ""
      modifies this
      ensures Valid() && fresh(c) && c.tasks == [] && c.name == (if name != "" then name else gen)
      ensures layout == Grouping.Opened(old(layout), if name != "" then name else gen)
      ensures cgroups == old(cgroups) + [c] && tasks == old(tasks) && anonymous == old(anonymous)
    {
      c := new CGroup(if name != "" then name else gen);
      cgroups := cgroups + [c];
      layout := Grouping.Opened(layout, c.name);
      forall k | 0 <= k < |cgroups|
        ensures Holds(k)
      {
        if k < |cgroups| - 1 {
          assert old(Holds(k));
        }
      }
    }

    /** Append t to group k and to the script. */
    method Link(t: Handler.Task, ghost k: nat, c: CGroup, ghost asked: string)
      requires Valid() && k < |cgroups| && c == cgroups[k] && t.cgroup == c.name
      modifies this, c
      ensures Valid() && layout == Grouping.Joined(old(layout), k, asked)
      ensures tasks == old(tasks) + [t] && cgroups == old(cgroups) && anonymous == old(anonymous)
    {
      assert Holds(k);
      c.AddTask(t);
      tasks := tasks + [t];
      layout := Grouping.Joined(layout, k, asked);
      forall l | 0 <= l < |cgroups|
        ensures Holds(l)
      {
        assert old(Holds(l));
      }
    }

    /** The group for an anonymous task: the newest anonymous one, if the last task carries its name, or a new one. */
    method AnonymousGroup(gen: string) returns (c: CGroup)
      requires Valid() && gen != ""
      modifies this
      ensures Valid() && tasks == old(tasks) && layout.anon.Some? && c == cgroups[layout.anon.value]
      ensures forall k | 0 <= k < |cgroups| :: cgroups[k] in old(cgroups) || fresh(cgroups[k])
      ensures var g := old(layout);
        layout == if g.anon.None? || (|g.names| > 0 && g.names[|g.names| - 1] != g.groups[g.anon.value].name)
                  then Grouping.Opened(g, gen).(anon := Some(|g.groups|)) else g
    {
      if anonymous != null {
        assert Holds(layout.anon.value);
      }
      if anonymous == null || (|tasks| > 0 && tasks[|tasks| - 1].cgroup != anonymous.name) {
        c := NewCGroup("", gen);
        label Created:
        anonymous := c;
        layout := layout.(anon := Some(|cgroups| - 1));
        forall k | 0 <= k < |cgroups|
          ensures Holds(k)
        {
          assert old@Created(Holds(k));
        }
      }
      c := anonymous;
    }

    /** A task may be added again: it then comes with the name of its group. */
    method AddTask(t: Handler.Task, gen: string)
      requires Valid() && gen != ""
      modifies this, t, cgroups
      ensures Valid() && worker.State() == old(worker.State())
      ensures old(worker.status) != New ==>
        layout == old(layout) && tasks == old(tasks) && cgroups == old(cgroups) && t.cgroup == old(t.cgroup)
      ensures old(worker.status) == New ==>
        && layout == Grouping.Add(old(layout), old(t.cgroup), gen)
        && tasks == old(tasks) + [t]
    {
      if worker.status != New {
        return;
      }
      ghost var asked := t.cgroup;
      if t.cgroup == "" {
        var c := AnonymousGroup(gen);
        label Chosen:
        t.cgroup := c.name;
        forall k | 0 <= k < |cgroups|
          ensures Holds(k)
        {
          assert old@Chosen(Holds(k));
        }
        Link(t, layout.anon.value, c, asked);
      } else {
        if |cgroups| > 0 {
          assert Holds(|cgroups| - 1);
        }
        if |cgroups| == 0 || cgroups[|cgroups| - 1].name != t.cgroup {
          var c := NewCGroup(t.cgroup, gen);
          Link(t, |cgroups| - 1, c, asked);
        } else {
          Link(t, |cgroups| - 1, cgroups[|cgroups| - 1], asked);
        }
      }
    }
  }
}
