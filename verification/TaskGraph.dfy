/** Dependency graph of a campaign: validation and three-colour cycle detection. */
module TaskGraph {

  type Id = string

  datatype Option<T> = None | Some(value: T)

  /** A node list in insertion order with the successors of each node. */
  datatype Graph = Graph(nodes: seq<Id>, edges: map<Id, seq<Id>>) {
    ghost predicate Valid() {
      && (forall i, j :: 0 <= i < j < |nodes| ==> nodes[i] != nodes[j])
      && (forall n :: n in nodes <==> n in edges)
    }
  }

  ghost predicate Edge(g: Graph, a: Id, b: Id) {
    a in g.edges && b in g.edges[a]
  }

  ghost predicate Walk(g: Graph, w: seq<Id>) {
    forall i :: 0 <= i < |w| - 1 ==> Edge(g, w[i], w[i + 1])
  }

  ghost predicate ClosedWalk(g: Graph, w: seq<Id>) {
    |w| >= 2 && w[0] == w[|w| - 1] && Walk(g, w)
  }

  ghost predicate Acyclic(g: Graph) {
    forall w :: !ClosedWalk(g, w)
  }

  ghost predicate Distinct(s: seq<Id>) {
    forall i, j :: 0 <= i < j < |s| ==> s[i] != s[j]
  }

  /** Successors that are nodes come earlier in the order. */
  ghost predicate FinishOrder(g: Graph, order: seq<Id>) {
    && Distinct(order)
    && (forall i, m :: 0 <= i < |order| && Edge(g, order[i], m) && m in g.edges ==> m in order[..i])
  }

  /** Along a walk positions in a finish order go strictly down. */
  lemma {:induction false} WalkDescends(g: Graph, order: seq<Id>, w: seq<Id>, first: nat, k: nat) returns (p: nat)
    requires FinishOrder(g, order) && Walk(g, w) && k < |w|
    requires forall i :: 0 <= i < |w| ==> w[i] in g.edges
    requires first < |order| && order[first] == w[0]
    ensures p < |order| && order[p] == w[k] && p + k <= first
  {
    if k == 0 {
      p := first;
    } else {
      var q := WalkDescends(g, order, w, first, k - 1);
      assert Edge(g, order[q], w[k]);
      p :| 0 <= p < |order[..q]| && order[..q][p] == w[k];
    }
  }

  lemma FinishOrderMeansAcyclic(g: Graph, order: seq<Id>)
    requires FinishOrder(g, order)
    requires forall n :: n in g.edges ==> n in order
    ensures Acyclic(g)
  {
    forall w ensures !ClosedWalk(g, w) {
      if ClosedWalk(g, w) {
        forall i | 0 <= i < |w| ensures w[i] in g.edges {
          assert i < |w| - 1 ==> Edge(g, w[i], w[i + 1]);
          assert Edge(g, w[0], w[1]);
        }
        var first :| 0 <= first < |order| && order[first] == w[0];
        var p := WalkDescends(g, order, w, first, |w| - 1);
        assert false;
      }
    }
  }

  /** An edge from the top of the stack back into it closes a walk. */
  lemma StackClosesWalk(g: Graph, stack: seq<Id>, i: nat, m: Id)
    requires Walk(g, stack) && i < |stack| && stack[i] == m && Edge(g, stack[|stack| - 1], m)
    ensures ClosedWalk(g, stack[i..] + [m])
  {
    var w := stack[i..] + [m];
    forall k | 0 <= k < |w| - 1 ensures Edge(g, w[k], w[k + 1]) {
      assert w[k] == stack[i + k];
      if k + 1 < |w| - 1 { assert w[k + 1] == stack[i + k + 1]; }
    }
  }

  datatype Color = White | Gray | Black

  /** Gray nodes are the stack, a walk; black nodes are the order in which they finished. */
  ghost predicate Consistent(g: Graph, color: map<Id, Color>, stack: seq<Id>, order: seq<Id>) {
    && g.Valid()
    && color.Keys == g.edges.Keys
    && Distinct(stack) && Walk(g, stack)
    && (forall n :: n in stack <==> n in color && color[n] == Gray)
    && FinishOrder(g, order)
    && (forall n :: n in order <==> n in color && color[n] == Black)
  }

  lemma LeaveKeepsStack(g: Graph, color: map<Id, Color>, stack: seq<Id>, order: seq<Id>, n: Id)
    requires Consistent(g, color, stack, order) && stack != [] && stack[|stack| - 1] == n
    ensures var rest := stack[..|stack| - 1];
            && Distinct(rest) && Walk(g, rest)
            && (forall x :: x in rest <==> x in color && x != n && color[x] == Gray)
  {
    var rest := stack[..|stack| - 1];
    assert stack == rest + [n];
  }

  lemma LeaveKeepsOrder(g: Graph, order: seq<Id>, n: Id)
    requires FinishOrder(g, order) && n !in order
    requires forall m :: Edge(g, n, m) && m in g.edges ==> m in order
    ensures FinishOrder(g, order + [n])
  {
    var longer := order + [n];
    forall i, m | 0 <= i < |longer| && Edge(g, longer[i], m) && m in g.edges ensures m in longer[..i] {
      if i < |order| { assert longer[..i] == order[..i]; } else { assert longer[..i] == order; }
    }
  }

  /** The first k of these nodes have finished. */
  ghost predicate Finished(g: Graph, nodes: seq<Id>, k: nat, order: seq<Id>)
    requires k <= |nodes|
  {
    forall i :: 0 <= i < k && nodes[i] in g.edges ==> nodes[i] in order
  }

  lemma FinishOneMore(g: Graph, nodes: seq<Id>, k: nat, before: seq<Id>, order: seq<Id>)
    requires k < |nodes| && Finished(g, nodes, k, before) && before <= order
    requires nodes[k] in g.edges ==> nodes[k] in order
    ensures Finished(g, nodes, k + 1, order)
  {
    forall i | 0 <= i < k + 1 && nodes[i] in g.edges ensures nodes[i] in order {
      if i < k {
        assert nodes[i] in before;
      }
    }
  }

  /** `_detect_cycle`: the colour map and the stack that its inner function updates. */
  class CycleDetector {
    const g: Graph
    var color: map<Id, Color>
    var stack: seq<Id>
    ghost var order: seq<Id>

    ghost predicate Valid()
      reads this
    {
      Consistent(g, color, stack, order)
    }

    ghost function Whites(): set<Id>
      reads this
    {
      set n | n in color && color[n] == White
    }

    constructor (g: Graph)
      requires g.Valid()
      ensures this.g == g && Valid() && stack == [] && Whites() == g.edges.Keys
    {
      this.g := g;
      color := map n | n in g.edges :: White;
      stack := [];
      order := [];
    }

    method StackIndex(m: Id) returns (i: nat)
      requires m in stack
      ensures i < |stack| && stack[i] == m
    {
      i := 0;
      while stack[i] != m
        invariant i < |stack| && m !in stack[..i]
        decreases |stack| - i
      {
        i := i + 1;
      }
    }

    method Enter(n: Id)
      requires Valid() && n in color && color[n] == White
      requires stack != [] ==> Edge(g, stack[|stack| - 1], n)
      modifies this
      ensures Valid() && stack == old(stack) + [n] && order == old(order)
      ensures Whites() == old(Whites()) - {n}
    {
      color := color[n := Gray];
      stack := stack + [n];
    }

    method Leave(n: Id)
      requires Valid() && stack != [] && stack[|stack| - 1] == n
      requires forall m :: Edge(g, n, m) && m in g.edges ==> m in order
      modifies this
      ensures Valid() && stack == old(stack[..|stack| - 1]) && order == old(order) + [n]
      ensures Whites() == old(Whites())
    {
      hide FinishOrder, Walk, Distinct;
      LeaveKeepsStack(g, color, stack, order, n);
      assert n in stack && n !in order;
      LeaveKeepsOrder(g, order, n);
      color := color[n := Black];
      stack := stack[..|stack| - 1];
      order := order + [n];
    }

    method Dfs(n: Id) returns (cycle: Option<seq<Id>>)
      requires Valid() && n in color && color[n] == White
      requires stack != [] ==> Edge(g, stack[|stack| - 1], n)
      modifies this
      ensures cycle.Some? ==> ClosedWalk(g, cycle.value)
      ensures cycle.None? ==> Valid() && stack == old(stack) && n in order && old(order) <= order
      ensures cycle.None? ==> Whites() < old(Whites())
      decreases Whites()
    {
      hide FinishOrder, Walk, Distinct, ClosedWalk;
      Enter(n);
      var next := g.edges[n];
      var k := 0;
      while k < |next|
        invariant k <= |next|
        invariant Valid() && stack == old(stack) + [n] && old(order) <= order
        invariant Whites() <= old(Whites()) - {n}
        invariant Finished(g, next, k, order)
      {
        var m := next[k];
        assert Edge(g, n, m);
        if m in color && color[m] == Gray {
          var i := StackIndex(m);
          StackClosesWalk(g, stack, i, m);
          return Some(stack[i..] + [m]);
        }
        ghost var before := order;
        if m in color && color[m] == White {
          cycle := Dfs(m);
          if cycle.Some? { return; }
        }
        FinishOneMore(g, next, k, before, order);
        k := k + 1;
      }
      assert forall m :: Edge(g, n, m) && m in g.edges ==> m in order;
      Leave(n);
      cycle := None;
    }
  }

  /** Raises exactly on cyclic graphs, and then with a closed walk of the graph. */
  method DetectCycle(g: Graph) returns (cycle: Option<seq<Id>>)
    requires g.Valid()
    ensures cycle.None? <==> Acyclic(g)
    ensures cycle.Some? ==> ClosedWalk(g, cycle.value)
  {
    var d := new CycleDetector(g);
    var k := 0;
    while k < |g.nodes|
      invariant k <= |g.nodes|
      invariant d.g == g && d.Valid() && d.stack == []
      invariant Finished(g, g.nodes, k, d.order)
    {
      ghost var before := d.order;
      if d.color[g.nodes[k]] == White {
        cycle := d.Dfs(g.nodes[k]);
        if cycle.Some? { return; }
      }
      FinishOneMore(g, g.nodes, k, before, d.order);
      k := k + 1;
    }
    FinishOrderMeansAcyclic(g, d.order);
    cycle := None;
  }

  // ---- validation of a task list ------------------------------------------------

  datatype Rung = Pending | Running | Failed | Completed | Validated | Accepted

  datatype Task = Task(id: Id, rung: Rung, dependsOn: seq<Id>)

  function Ids(tasks: seq<Task>): seq<Id> {
    seq(|tasks|, i requires 0 <= i < |tasks| => tasks[i].id)
  }

  function EdgesOf(tasks: seq<Task>): map<Id, seq<Id>> {
    if tasks == [] then map[]
    else EdgesOf(tasks[..|tasks| - 1])[tasks[|tasks| - 1].id := tasks[|tasks| - 1].dependsOn]
  }

  function GraphOf(tasks: seq<Task>): Graph {
    Graph(Ids(tasks), EdgesOf(tasks))
  }

  ghost predicate DistinctIds(tasks: seq<Task>) {
    forall i, j :: 0 <= i < j < |tasks| ==> tasks[i].id != tasks[j].id
  }

  ghost predicate NoDangling(tasks: seq<Task>) {
    forall i, d :: 0 <= i < |tasks| && d in tasks[i].dependsOn ==> d in Ids(tasks)
  }

  ghost predicate ValidGraph(tasks: seq<Task>) {
    DistinctIds(tasks) && NoDangling(tasks) && Acyclic(GraphOf(tasks))
  }

  lemma {:induction false} EdgesOfTasks(tasks: seq<Task>)
    requires DistinctIds(tasks)
    ensures forall n :: n in EdgesOf(tasks) <==> n in Ids(tasks)
    ensures forall i :: 0 <= i < |tasks| ==>
              tasks[i].id in EdgesOf(tasks) && EdgesOf(tasks)[tasks[i].id] == tasks[i].dependsOn
  {
    if tasks != [] {
      var init, last := tasks[..|tasks| - 1], tasks[|tasks| - 1];
      EdgesOfTasks(init);
      assert Ids(tasks) == Ids(init) + [last.id];
      forall i | 0 <= i < |tasks|
        ensures tasks[i].id in EdgesOf(tasks) && EdgesOf(tasks)[tasks[i].id] == tasks[i].dependsOn
      {
        if i < |init| { assert init[i].id in EdgesOf(init); }
      }
    }
  }

  datatype GraphCheck =
    | GraphOk
    | DuplicateIds(ids: seq<Id>)
    | DanglingDependency(task: Id, dependency: Id)
    | CyclicDependency(walk: seq<Id>)

  predicate Repeated(ids: seq<Id>, d: Id) {
    exists i, j :: 0 <= i < j < |ids| && ids[i] == ids[j] == d
  }

  lemma RepeatedExtends(ids: seq<Id>, n: Id, d: Id)
    ensures Repeated(ids + [n], d) <==> Repeated(ids, d) || (d == n && n in ids)
  {
    var longer := ids + [n];
    if Repeated(ids, d) {
      var i, j :| 0 <= i < j < |ids| && ids[i] == ids[j] == d;
      assert longer[i] == longer[j] == d;
    }
    if d == n && n in ids {
      var i :| 0 <= i < |ids| && ids[i] == n;
      assert longer[i] == longer[|ids|] == d;
    }
  }

  /** Each id that occurs more than once, and each of them once. */
  method FindDuplicates(ids: seq<Id>) returns (duplicates: seq<Id>)
    ensures forall d :: d in duplicates <==> Repeated(ids, d)
    ensures Distinct(duplicates)
    ensures duplicates == [] <==> Distinct(ids)
  {
    duplicates := [];
    var k := 0;
    while k < |ids|
      invariant k <= |ids| && Distinct(duplicates)
      invariant forall d :: d in duplicates <==> Repeated(ids[..k], d)
    {
      assert ids[..k + 1] == ids[..k] + [ids[k]];
      forall d ensures Repeated(ids[..k + 1], d) <==> Repeated(ids[..k], d) || (d == ids[k] && ids[k] in ids[..k]) {
        RepeatedExtends(ids[..k], ids[k], d);
      }
      if ids[k] in ids[..k] && ids[k] !in duplicates {
        duplicates := duplicates + [ids[k]];
      }
      k := k + 1;
    }
    assert ids[..k] == ids;
    DistinctMeansNoneRepeated(ids, duplicates);
  }

  lemma DistinctMeansNoneRepeated(ids: seq<Id>, duplicates: seq<Id>)
    requires forall d :: d in duplicates <==> Repeated(ids, d)
    ensures duplicates == [] <==> Distinct(ids)
  {
    assert duplicates == [] || duplicates[0] in duplicates;
    forall i, j | 0 <= i < j < |ids| && ids[i] == ids[j] ensures ids[i] in duplicates {
      assert Repeated(ids, ids[i]);
    }
  }

  method FindDangling(tasks: seq<Task>) returns (r: Option<(Id, Id)>)
    ensures r.None? <==> NoDangling(tasks)
    ensures r.Some? ==>
              && r.value.1 !in Ids(tasks)
              && exists i :: 0 <= i < |tasks| && tasks[i].id == r.value.0 && r.value.1 in tasks[i].dependsOn
  {
    var ids := Ids(tasks);
    var i := 0;
    while i < |tasks|
      invariant i <= |tasks|
      invariant forall k, d :: 0 <= k < i && d in tasks[k].dependsOn ==> d in ids
    {
      var j := 0;
      while j < |tasks[i].dependsOn|
        invariant j <= |tasks[i].dependsOn|
        invariant forall l :: 0 <= l < j ==> tasks[i].dependsOn[l] in ids
      {
        if tasks[i].dependsOn[j] !in ids {
          return Some((tasks[i].id, tasks[i].dependsOn[j]));
        }
        j := j + 1;
      }
      i := i + 1;
    }
    r := None;
  }

  /** `validate_graph` */
  method ValidateGraph(tasks: seq<Task>) returns (r: GraphCheck)
    ensures r == GraphOk <==> ValidGraph(tasks)
    ensures r.DuplicateIds? <==> !DistinctIds(tasks)
    ensures r.DanglingDependency? <==> DistinctIds(tasks) && !NoDangling(tasks)
    ensures r.CyclicDependency? ==> ClosedWalk(GraphOf(tasks), r.walk)
  {
    var ids := Ids(tasks);
    var duplicates := FindDuplicates(ids);
    assert Distinct(ids) <==> DistinctIds(tasks) by {
      assert forall i :: 0 <= i < |tasks| ==> ids[i] == tasks[i].id;
    }
    if duplicates != [] {
      return DuplicateIds(duplicates);
    }
    var dangling := FindDangling(tasks);
    if dangling.Some? {
      return DanglingDependency(dangling.value.0, dangling.value.1);
    }
    EdgesOfTasks(tasks);
    var cycle := DetectCycle(GraphOf(tasks));
    r := if cycle.Some? then CyclicDependency(cycle.value) else GraphOk;
  }
}
