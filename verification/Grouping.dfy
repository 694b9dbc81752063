/** How `AddTask` cuts a list of tasks into concurrent groups: the layout as a value, when it is the intended one, and
    the objects that build it in place. */
module Grouping {
  import opened Records
  import Engine
  import Probe

  /** A group: its name and the numbers of its tasks in the script. */
  datatype Group = Group(name: string, members: seq<nat>)

  /** `names[i]` is the group name that task i carries; `anon` is the place of the newest anonymous group. `asked[i]`,
      the name that task i came with ("" for none), and `place[i]`, the group it was put into, are history. */
  datatype Layout = Layout(
    asked: seq<string>, names: seq<string>, place: seq<nat>, groups: seq<Group>, anon: Option<nat>)

  const EMPTY := Layout([], [], [], [], None)

  predicate Shape(g: Layout) {
    && |g.names| == |g.asked| == |g.place|
    && (g.anon.Some? ==> g.anon.value < |g.groups|)
  }

  /** Put one more task, which asked for `name`, into group k. */
  function Joined(g: Layout, k: nat, name: string): Layout
    requires k < |g.groups|
  {
    Layout(g.asked + [name], g.names + [g.groups[k].name], g.place + [k],
           g.groups[k := Group(g.groups[k].name, g.groups[k].members + [|g.asked|])], g.anon)
  }

  function Opened(g: Layout, name: string): Layout {
    g.(groups := g.groups + [Group(name, [])])
  }

  /** One task that asks for the group `name`; `gen` is what the name generator would return. */
  function Add(g: Layout, name: string, gen: string): (r: Layout)
    requires Shape(g)
    ensures Shape(r)
  {
    if name == "" then
      var g1 :=
        if g.anon.None? || (|g.names| > 0 && g.names[|g.names| - 1] != g.groups[g.anon.value].name)
        then Opened(g, gen).(anon := Some(|g.groups|)) else g;
      Joined(g1, g1.anon.value, name)
    else
      var g1 := if |g.groups| == 0 || g.groups[|g.groups| - 1].name != name then Opened(g, name) else g;
      Joined(g1, |g1.groups| - 1, name)
  }

  /** A request: the group name asked for, and the generator's next name. */
  datatype Request = Request(name: string, gen: string)

  function AddAll(g: Layout, reqs: seq<Request>): (r: Layout)
    requires Shape(g)
    ensures Shape(r)
    decreases |reqs|
  {
    if reqs == [] then g else AddAll(Add(g, reqs[0].name, reqs[0].gen), reqs[1..])
  }

  // ----- what the layout should be -----

  function Flat(gs: seq<Group>): seq<nat> {
    if gs == [] then [] else Flat(gs[..|gs| - 1]) + gs[|gs| - 1].members
  }

  function UpTo(n: nat): (q: seq<nat>)
    ensures |q| == n && forall i | 0 <= i < n :: q[i] == i
  {
    seq(n, i => i)
  }

  /** The groups, one after the other, list the tasks in order; none is empty; a task is where it was put and carries
      the name of that group; neighbours share a group exactly when both came without a name or with the same one. */
  ghost predicate MaximalRuns(g: Layout) {
    && Shape(g)
    && Flat(g.groups) == UpTo(|g.asked|)
    && (forall k | 0 <= k < |g.groups| :: g.groups[k].members != [])
    && (forall i | 0 <= i < |g.place| ::
          g.place[i] < |g.groups| && i in g.groups[g.place[i]].members && g.names[i] == g.groups[g.place[i]].name)
    && (forall i | 0 <= i < |g.place| - 1 :: g.place[i] == g.place[i + 1] <==> g.asked[i] == g.asked[i + 1])
  }

  // ----- when it is -----

  /** The only two ways in which names mislead a request: an explicit name equal to the generated name of the anonymous
      group it follows, and an anonymous request after an explicit task that carries the name of the newest anonymous
      group. Both can be told before the call. */
  predicate Misled(g: Layout, name: string)
    requires Shape(g)
  {
    |g.asked| > 0 && |g.groups| > 0 &&
    var last := |g.asked| - 1;
    || (name != "" && g.asked[last] == "" && g.groups[|g.groups| - 1].name == name)
    || (name == "" && g.asked[last] != "" && g.anon.Some? && g.groups[g.anon.value].name == g.names[last])
  }

  predicate NeverMisled(g: Layout, reqs: seq<Request>)
    requires Shape(g)
    decreases |reqs|
  {
    reqs == [] || (!Misled(g, reqs[0].name) && NeverMisled(Add(g, reqs[0].name, reqs[0].gen), reqs[1..]))
  }

  // ----- the order of the flattened groups -----

  lemma FlatSnoc(gs: seq<Group>, x: Group)
    ensures Flat(gs + [x]) == Flat(gs) + x.members
  {
  }

  lemma {:induction false} FlatHas(gs: seq<Group>, k: nat, i: nat)
    requires k < |gs| && i in gs[k].members
    ensures i in Flat(gs)
  {
    if k < |gs| - 1 {
      FlatHas(gs[..|gs| - 1], k, i);
    }
  }

  ghost predicate Rising(q: seq<nat>) {
    forall a, b | 0 <= a < b < |q| :: q[a] < q[b]
  }

  /** In a rising concatenation a member of an earlier group is smaller. */
  lemma {:induction false} FlatOrder(gs: seq<Group>, k: nat, l: nat, i: nat, j: nat)
    requires Rising(Flat(gs)) && k < l < |gs| && i in gs[k].members && j in gs[l].members
    ensures i < j
  {
    var init := gs[..|gs| - 1];
    assert Flat(gs) == Flat(init) + gs[|gs| - 1].members;
    if l == |gs| - 1 {
      FlatHas(init, k, i);
      var a :| 0 <= a < |Flat(init)| && Flat(init)[a] == i;
      var b :| 0 <= b < |gs[l].members| && gs[l].members[b] == j;
      assert Flat(gs)[a] == i && Flat(gs)[|Flat(init)| + b] == j;
    } else {
      assert Rising(Flat(init)) by {
        assert forall a | 0 <= a < |Flat(init)| :: Flat(gs)[a] == Flat(init)[a];
      }
      FlatOrder(init, k, l, i, j);
    }
  }

  // ----- the invariant of undisturbed additions -----

  ghost predicate Inv(g: Layout) {
    && MaximalRuns(g)
    && (|g.asked| == 0 ==> |g.groups| == 0 && g.anon == None)
    && (|g.asked| > 0 ==>
          var last := |g.asked| - 1;
          && g.place[last] == |g.groups| - 1
          && (g.asked[last] == "" <==> g.anon == Some(|g.groups| - 1))
          && (g.asked[last] != "" ==> g.names[last] == g.asked[last]))
  }

  /** Opening a group for the new task. */
  lemma OpenRuns(g: Layout, r: Layout, name: string, x: Group)
    requires MaximalRuns(g) && Shape(r) && x.members == [|g.asked|]
    requires if |g.asked| == 0 then |g.groups| == 0
             else g.place[|g.asked| - 1] == |g.groups| - 1 && g.asked[|g.asked| - 1] != name
    requires r.asked == g.asked + [name] && r.names == g.names + [x.name] && r.place == g.place + [|g.groups|]
    requires r.groups == g.groups + [x]
    ensures MaximalRuns(r)
  {
  }

  lemma OpenGroup(g: Layout, name: string, groupName: string, anon: Option<nat>)
    requires MaximalRuns(g) && (anon.Some? ==> anon.value <= |g.groups|)
    requires if |g.asked| == 0 then |g.groups| == 0
             else g.place[|g.asked| - 1] == |g.groups| - 1 && g.asked[|g.asked| - 1] != name
    ensures MaximalRuns(Joined(Opened(g, groupName).(anon := anon), |g.groups|, name))
  {
    var x := Group(groupName, [|g.asked|]);
    assert [] + [|g.asked|] == [|g.asked|];
    var r := Joined(Opened(g, groupName).(anon := anon), |g.groups|, name);
    assert r.groups == g.groups + [x];
    OpenRuns(g, r, name, x);
  }

  /** Joining the last group. */
  lemma JoinGroup(g: Layout, name: string)
    requires Inv(g) && |g.asked| > 0 && g.asked[|g.asked| - 1] == name
    ensures MaximalRuns(Joined(g, |g.groups| - 1, name))
  {
    var k := |g.groups| - 1;
    var r := Joined(g, k, name);
    assert g.groups == g.groups[..k] + [g.groups[k]];
    assert r.groups == g.groups[..k] + [r.groups[k]];
    FlatSnoc(g.groups[..k], g.groups[k]);
    FlatSnoc(g.groups[..k], r.groups[k]);
    assert UpTo(|g.asked| + 1) == UpTo(|g.asked|) + [|g.asked|];
  }

  /** What an undisturbed request does: it joins the last group or opens one, which becomes the last. */
  lemma GoodChoice(g: Layout, name: string, gen: string)
    requires Inv(g) && !Misled(g, name)
    ensures Add(g, name, gen) ==
      if |g.asked| > 0 && g.asked[|g.asked| - 1] == name then Joined(g, |g.groups| - 1, name)
      else if name == "" then Joined(Opened(g, gen).(anon := Some(|g.groups|)), |g.groups|, name)
      else Joined(Opened(g, name), |g.groups|, name)
  {
  }

  lemma GoodStep(g: Layout, name: string, gen: string)
    requires Inv(g) && !Misled(g, name)
    ensures Inv(Add(g, name, gen))
  {
    GoodChoice(g, name, gen);
    if |g.asked| > 0 && g.asked[|g.asked| - 1] == name {
      JoinGroup(g, name);
    } else if name == "" {
      OpenGroup(g, name, gen, Some(|g.groups|));
    } else {
      OpenGroup(g, name, name, g.anon);
      assert Opened(g, name).(anon := g.anon) == Opened(g, name);
    }
  }

  // ----- what cannot be undone -----

  predicate BrokenAt(g: Layout, i: nat)
    requires |g.asked| == |g.place| && i + 1 < |g.place|
  {
    g.place[i + 1] < g.place[i] || (g.place[i] == g.place[i + 1] && g.asked[i] != g.asked[i + 1])
  }

  ghost predicate Placed(g: Layout) {
    forall i | 0 <= i < |g.place| :: g.place[i] < |g.groups| && i in g.groups[g.place[i]].members
  }

  /** Two neighbours that are wrongly joined or out of order. */
  ghost predicate Broken(g: Layout) {
    Shape(g) && Placed(g) && exists i: nat :: i + 1 < |g.place| && BrokenAt(g, i)
  }

  lemma BrokenIsWrong(g: Layout)
    requires Broken(g)
    ensures !MaximalRuns(g)
  {
    if MaximalRuns(g) {
      var i: nat :| i + 1 < |g.place| && BrokenAt(g, i);
      if g.place[i + 1] < g.place[i] {
        assert Rising(Flat(g.groups));
        FlatOrder(g.groups, g.place[i + 1], g.place[i], i + 1, i);
      }
    }
  }

  lemma AddExtends(g: Layout, name: string, gen: string)
    requires Shape(g)
    ensures var r := Add(g, name, gen);
      && |r.place| == |g.place| + 1 && r.place[..|g.place|] == g.place && r.asked == g.asked + [name]
      && |g.groups| <= |r.groups| && r.place[|g.place|] < |r.groups|
      && |g.asked| in r.groups[r.place[|g.place|]].members
      && forall k, i | 0 <= k < |g.groups| && i in g.groups[k].members :: i in r.groups[k].members
  {
  }

  lemma StaysPlaced(g: Layout, r: Layout)
    requires Shape(g) && Shape(r) && Placed(g) && |r.place| == |g.place| + 1 && r.place[..|g.place|] == g.place
    requires |g.groups| <= |r.groups| && r.place[|g.place|] < |r.groups|
    requires |g.place| in r.groups[r.place[|g.place|]].members
    requires forall k, i | 0 <= k < |g.groups| && i in g.groups[k].members :: i in r.groups[k].members
    ensures Placed(r)
  {
  }

  lemma BrokenStays(g: Layout, name: string, gen: string)
    requires Broken(g)
    ensures Broken(Add(g, name, gen))
  {
    var r := Add(g, name, gen);
    AddExtends(g, name, gen);
    StaysPlaced(g, r);
    var i: nat :| i + 1 < |g.place| && BrokenAt(g, i);
    assert r.place[..|g.place|][i] == g.place[i] && r.place[..|g.place|][i + 1] == g.place[i + 1];
    assert BrokenAt(r, i);
  }

  lemma BadStep(g: Layout, name: string, gen: string)
    requires Inv(g) && Misled(g, name)
    ensures Broken(Add(g, name, gen))
  {
    var r := Add(g, name, gen);
    var last := |g.asked| - 1;
    assert g.groups[g.place[last]].name == g.names[last];
    assert r.place[last] == g.place[last] && r.asked[last] == g.asked[last] && r.asked[last + 1] == name;
    assert BrokenAt(r, last);
  }

  lemma {:induction false} BrokenForGood(g: Layout, reqs: seq<Request>)
    requires Broken(g)
    ensures !MaximalRuns(AddAll(g, reqs))
    decreases |reqs|
  {
    if reqs == [] {
      BrokenIsWrong(g);
    } else {
      BrokenStays(g, reqs[0].name, reqs[0].gen);
      BrokenForGood(Add(g, reqs[0].name, reqs[0].gen), reqs[1..]);
    }
  }

  lemma {:induction false} GroupingFrom(g: Layout, reqs: seq<Request>)
    requires Inv(g)
    ensures MaximalRuns(AddAll(g, reqs)) <==> NeverMisled(g, reqs)
    decreases |reqs|
  {
    if reqs != [] {
      if Misled(g, reqs[0].name) {
        BadStep(g, reqs[0].name, reqs[0].gen);
        BrokenForGood(Add(g, reqs[0].name, reqs[0].gen), reqs[1..]);
      } else {
        GoodStep(g, reqs[0].name, reqs[0].gen);
        GroupingFrom(Add(g, reqs[0].name, reqs[0].gen), reqs[1..]);
      }
    }
  }

  /** On a new script the groups are the maximal runs of the task list exactly when no request was misled. */
  lemma GroupsAreMaximalRuns(reqs: seq<Request>)
    ensures MaximalRuns(AddAll(EMPTY, reqs)) <==> NeverMisled(EMPTY, reqs)
  {
    assert Flat(EMPTY.groups) == UpTo(0);
    GroupingFrom(EMPTY, reqs);
  }

  // ----- generated names that never equal explicit ones are enough -----

  ghost predicate Apart(reqs: seq<Request>) {
    forall i, j | 0 <= i < |reqs| && 0 <= j < |reqs| :: reqs[i].name == "" || reqs[i].name != reqs[j].gen
  }

  /** The newest anonymous group carries a generated name; an explicit task carries the name it asked for. */
  ghost predicate NamesKnown(g: Layout, gens: set<string>) {
    && Shape(g)
    && (g.anon.Some? ==> g.groups[g.anon.value].name in gens)
    && (forall i | 0 <= i < |g.asked| :: g.asked[i] != "" ==> g.names[i] == g.asked[i] && g.asked[i] !in gens)
  }

  lemma KnownIsNotMisled(g: Layout, name: string, gens: set<string>)
    requires Inv(g) && NamesKnown(g, gens) && (name == "" || name !in gens)
    ensures !Misled(g, name)
  {
  }

  lemma KnownStep(g: Layout, name: string, gen: string, gens: set<string>)
    requires Inv(g) && NamesKnown(g, gens) && gen in gens && (name == "" || name !in gens)
    ensures NamesKnown(Add(g, name, gen), gens)
  {
  }

  lemma {:induction false} ApartFrom(g: Layout, reqs: seq<Request>, gens: set<string>)
    requires Inv(g) && NamesKnown(g, gens)
    requires forall i | 0 <= i < |reqs| :: reqs[i].gen in gens && (reqs[i].name == "" || reqs[i].name !in gens)
    ensures NeverMisled(g, reqs)
    decreases |reqs|
  {
    if reqs != [] {
      KnownIsNotMisled(g, reqs[0].name, gens);
      GoodStep(g, reqs[0].name, reqs[0].gen);
      KnownStep(g, reqs[0].name, reqs[0].gen, gens);
      ApartFrom(Add(g, reqs[0].name, reqs[0].gen), reqs[1..], gens);
    }
  }

  lemma DistinctNamesSuffice(reqs: seq<Request>)
    requires Apart(reqs)
    ensures MaximalRuns(AddAll(EMPTY, reqs))
  {
    var gens := set i | 0 <= i < |reqs| :: reqs[i].gen;
    assert Flat(EMPTY.groups) == UpTo(0);
    ApartFrom(EMPTY, reqs, gens);
    GroupsAreMaximalRuns(reqs);
  }

  const CLASH := [Request("", "a1"), Request("x", ""), Request("a1", ""), Request("", "b2")]

  lemma ClashSteps()
    ensures AddAll(EMPTY, CLASH) == Add(Add(Add(Add(EMPTY, "", "a1"), "x", ""), "a1", ""), "", "b2")
  {
  }

  /** Equality of layouts, part by part. */
  lemma SameLayout(a: Layout, b: Layout)
    requires |a.asked| == |b.asked| && forall i | 0 <= i < |a.asked| :: a.asked[i] == b.asked[i]
    requires |a.names| == |b.names| && forall i | 0 <= i < |a.names| :: a.names[i] == b.names[i]
    requires |a.place| == |b.place| && forall i | 0 <= i < |a.place| :: a.place[i] == b.place[i]
    requires |a.groups| == |b.groups| && forall i | 0 <= i < |a.groups| :: a.groups[i] == b.groups[i]
    requires a.anon == b.anon
    ensures a == b
  {
  }

  const CLASH1 := Layout([""], ["a1"], [0], [Group("a1", [0])], Some(0))
  const CLASH2 := Layout(["", "x"], ["a1", "x"], [0, 1], [Group("a1", [0]), Group("x", [1])], Some(0))
  const CLASH3 :=
    Layout(["", "x", "a1"], ["a1", "x", "a1"], [0, 1, 2],
           [Group("a1", [0]), Group("x", [1]), Group("a1", [2])], Some(0))

  lemma ClashBefore()
    ensures Add(EMPTY, "", "a1") == CLASH1 && Add(CLASH1, "x", "") == CLASH2 && Add(CLASH2, "a1", "") == CLASH3
  {
    assert [] + [0] == [0] && [] + [1] == [1] && [] + [2] == [2];
    SameLayout(Add(EMPTY, "", "a1"), CLASH1);
    SameLayout(Add(CLASH1, "x", ""), CLASH2);
    SameLayout(Add(CLASH2, "a1", ""), CLASH3);
  }

  /** Without that, an anonymous task can end up in a group that is not the last: here task 3 runs with task 0, before
      tasks 1 and 2. */
  lemma ClashReordersTasks()
    ensures var g := AddAll(EMPTY, CLASH); g.place == [0, 1, 2, 0] && !MaximalRuns(g)
  {
    ClashSteps();
    ClashBefore();
    var g := AddAll(EMPTY, CLASH);
    assert g.groups[0].members == [0, 3] && g.groups[1].members == [1];
    if MaximalRuns(g) {
      FlatOrder(g.groups, 0, 1, 3, 1);
    }
  }

  // ----- from layout to plan -----

  function PlanOf(g: Layout, opts: seq<Probe.Options>): Engine.Plan {
    Engine.Plan(|g.groups|, g.place, opts)
  }

  /** The plan of a well-grouped script is valid, visits its groups in task order and leaves none of them empty. */
  lemma PlanIsOrdered(g: Layout, opts: seq<Probe.Options>)
    requires MaximalRuns(g) && |opts| == |g.place|
    ensures PlanOf(g, opts).Valid()
    ensures forall i, j | 0 <= i < j < |g.place| :: g.place[i] <= g.place[j]
    ensures forall k: nat | k < |g.groups| :: k in g.place
  {
    assert Rising(Flat(g.groups));
    forall i, j | 0 <= i < j < |g.place|
      ensures g.place[i] <= g.place[j]
    {
      if g.place[j] < g.place[i] {
        FlatOrder(g.groups, g.place[j], g.place[i], j, i);
      }
    }
    forall k: nat | k < |g.groups|
      ensures k in g.place
    {
      assert g.groups[k].members != [];
      var i := g.groups[k].members[0];
      FlatHas(g.groups, k, i);
      assert i < |g.place|;
      if g.place[i] < k {
        FlatOrder(g.groups, g.place[i], k, i, i);
      } else if g.place[i] > k {
        FlatOrder(g.groups, k, g.place[i], i, i);
      }
    }
  }
}
