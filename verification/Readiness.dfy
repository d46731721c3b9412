/** Readiness derived from the dependency graph, and why a valid campaign never stalls. */
module Readiness {
  import opened TaskGraph

  predicate Satisfies(rung: Rung) {
    rung == Validated || rung == Accepted
  }

  predicate HasOutput(rung: Rung) {
    rung == Completed || rung == Validated || rung == Accepted
  }

  /** The last task of that id, as a dictionary built from the list keeps it. */
  function Lookup(tasks: seq<Task>, id: Id): (r: Option<Task>)
    ensures r.Some? ==> r.value in tasks && r.value.id == id
    ensures r.None? ==> forall t :: t in tasks ==> t.id != id
  {
    if tasks == [] then None
    else if tasks[|tasks| - 1].id == id then Some(tasks[|tasks| - 1])
    else Lookup(tasks[..|tasks| - 1], id)
  }

  predicate DependencyMet(tasks: seq<Task>, dependency: Id) {
    var t := Lookup(tasks, dependency);
    t.Some? && Satisfies(t.value.rung)
  }

  predicate IsReady(tasks: seq<Task>, t: Task) {
    t.rung == Pending && forall d :: d in t.dependsOn ==> DependencyMet(tasks, d)
  }

  datatype Reason = ExecutionFailed | MissingDependency(dep: Id) | DependencyNotReady(dep: Id, rung: Rung)

  datatype Blocked = Blocked(task: Id, why: seq<Reason>)

  datatype Buckets = Buckets(ready: seq<Id>, blocked: seq<Blocked>, running: seq<Id>, done: seq<Id>)

  datatype Bucket = InReady | InBlocked | InRunning | InDone

  function BucketOf(tasks: seq<Task>, t: Task): Bucket {
    if t.rung == Running then InRunning
    else if HasOutput(t.rung) then InDone
    else if IsReady(tasks, t) then InReady
    else InBlocked
  }

  /** The ids of the tasks that belong to a bucket, in list order. */
  function Members(tasks: seq<Task>, upTo: nat, bucket: Bucket): seq<Id>
    requires upTo <= |tasks|
  {
    if upTo == 0 then []
    else
      Members(tasks, upTo - 1, bucket)
      + (if BucketOf(tasks, tasks[upTo - 1]) == bucket then [tasks[upTo - 1].id] else [])
  }

  function BlockedIds(blocked: seq<Blocked>): seq<Id> {
    seq(|blocked|, i requires 0 <= i < |blocked| => blocked[i].task)
  }

  /** The reason really holds of the task. */
  ghost predicate Explains(tasks: seq<Task>, t: Task, reason: Reason) {
    match reason
    case ExecutionFailed => t.rung == Failed
    case MissingDependency(d) => d in t.dependsOn && Lookup(tasks, d).None?
    case DependencyNotReady(d, rung) =>
      d in t.dependsOn && Lookup(tasks, d).Some? && Lookup(tasks, d).value.rung == rung && !Satisfies(rung)
  }

  method DependencyReasons(tasks: seq<Task>, t: Task) returns (why: seq<Reason>)
    requires t.rung == Pending
    ensures why == [] <==> IsReady(tasks, t)
    ensures forall r :: r in why ==> Explains(tasks, t, r)
    ensures forall d :: d in t.dependsOn && !DependencyMet(tasks, d) ==>
              exists r :: r in why && (r.MissingDependency? || r.DependencyNotReady?) && r.dep == d
  {
    why := [];
    var k := 0;
    while k < |t.dependsOn|
      invariant k <= |t.dependsOn|
      invariant why == [] <==> forall i :: 0 <= i < k ==> DependencyMet(tasks, t.dependsOn[i])
      invariant forall r :: r in why ==> Explains(tasks, t, r)
      invariant forall i :: 0 <= i < k && !DependencyMet(tasks, t.dependsOn[i]) ==>
                  exists r :: r in why && (r.MissingDependency? || r.DependencyNotReady?) && r.dep == t.dependsOn[i]
    {
      var d := t.dependsOn[k];
      var found := Lookup(tasks, d);
      ghost var before := why;
      if found.None? {
        why := why + [MissingDependency(d)];
        assert MissingDependency(d) in why;
      } else if !Satisfies(found.value.rung) {
        why := why + [DependencyNotReady(d, found.value.rung)];
        assert DependencyNotReady(d, found.value.rung) in why;
      }
      assert before <= why && forall r :: r in before ==> r in why;
      k := k + 1;
    }
  }

  /** `derive_ready` */
  method DeriveReady(tasks: seq<Task>) returns (b: Buckets)
    ensures b.ready == Members(tasks, |tasks|, InReady)
    ensures b.running == Members(tasks, |tasks|, InRunning)
    ensures b.done == Members(tasks, |tasks|, InDone)
    ensures BlockedIds(b.blocked) == Members(tasks, |tasks|, InBlocked)
    ensures forall e :: e in b.blocked ==>
              e.why != [] && exists t :: t in tasks && t.id == e.task && forall r :: r in e.why ==> Explains(tasks, t, r)
  {
    b := Buckets([], [], [], []);
    var k := 0;
    while k < |tasks|
      invariant k <= |tasks|
      invariant b.ready == Members(tasks, k, InReady)
      invariant b.running == Members(tasks, k, InRunning)
      invariant b.done == Members(tasks, k, InDone)
      invariant BlockedIds(b.blocked) == Members(tasks, k, InBlocked)
      invariant forall e :: e in b.blocked ==>
                  e.why != [] && exists t :: t in tasks && t.id == e.task && forall r :: r in e.why ==> Explains(tasks, t, r)
    {
      var t := tasks[k];
      if t.rung == Running {
        b := b.(running := b.running + [t.id]);
      } else if HasOutput(t.rung) {
        b := b.(done := b.done + [t.id]);
      } else {
        var why := [ExecutionFailed];
        if t.rung != Failed {
          why := DependencyReasons(tasks, t);
        }
        if why == [] {
          b := b.(ready := b.ready + [t.id]);
        } else {
          assert BlockedIds(b.blocked + [Blocked(t.id, why)]) == BlockedIds(b.blocked) + [t.id];
          b := b.(blocked := b.blocked + [Blocked(t.id, why)]);
        }
      }
      k := k + 1;
    }
  }

  // ---- progress -----------------------------------------------------------------

  /** Nothing runs or failed: every task waits or is at least validated. */
  ghost predicate Settled(tasks: seq<Task>) {
    forall i :: 0 <= i < |tasks| ==> tasks[i].rung == Pending || Satisfies(tasks[i].rung)
  }

  ghost predicate PendingId(tasks: seq<Task>, id: Id) {
    exists i :: 0 <= i < |tasks| && tasks[i].id == id && tasks[i].rung == Pending
  }

  ghost predicate SomeReady(tasks: seq<Task>) {
    exists i :: 0 <= i < |tasks| && IsReady(tasks, tasks[i])
  }

  lemma LookupById(tasks: seq<Task>, i: nat)
    requires DistinctIds(tasks) && i < |tasks|
    ensures Lookup(tasks, tasks[i].id) == Some(tasks[i])
  {
    var t := Lookup(tasks, tasks[i].id);
    assert tasks[i] in tasks;
    var j :| 0 <= j < |tasks| && tasks[j] == t.value;
  }

  /** A pending task that is not ready waits for another pending task. */
  lemma WaitsForPending(tasks: seq<Task>, i: nat) returns (d: Id)
    requires ValidGraph(tasks) && Settled(tasks) && i < |tasks|
    requires tasks[i].rung == Pending && !IsReady(tasks, tasks[i])
    ensures Edge(GraphOf(tasks), tasks[i].id, d) && PendingId(tasks, d)
  {
    d :| d in tasks[i].dependsOn && !DependencyMet(tasks, d);
    assert d in Ids(tasks);
    var j :| 0 <= j < |tasks| && Ids(tasks)[j] == d;
    LookupById(tasks, j);
    EdgesOfTasks(tasks);
  }

  /** If no pending task is ready, a walk through pending tasks can be extended until it closes. */
  lemma {:induction false} StalledMeansCycle(tasks: seq<Task>, w: seq<Id>)
    requires ValidGraph(tasks) && Settled(tasks) && !SomeReady(tasks)
    requires w != [] && Walk(GraphOf(tasks), w) && Distinct(w)
    requires forall k :: 0 <= k < |w| ==> PendingId(tasks, w[k])
    ensures false
    decreases |tasks| - |w|
  {
    WalkFits(tasks, w);
    var last := w[|w| - 1];
    var i :| 0 <= i < |tasks| && tasks[i].id == last && tasks[i].rung == Pending;
    var d := WaitsForPending(tasks, i);
    if d in w {
      var k :| 0 <= k < |w| && w[k] == d;
      StackClosesWalk(GraphOf(tasks), w, k, d);
    } else {
      StalledMeansCycle(tasks, w + [d]);
    }
  }

  function IdSet(tasks: seq<Task>): set<Id> {
    set i | 0 <= i < |tasks| :: tasks[i].id
  }

  lemma {:induction false} IdSetSize(tasks: seq<Task>)
    ensures |IdSet(tasks)| <= |tasks|
  {
    if tasks != [] {
      IdSetSize(tasks[..|tasks| - 1]);
      assert IdSet(tasks) == IdSet(tasks[..|tasks| - 1]) + {tasks[|tasks| - 1].id};
    }
  }

  lemma {:induction false} DistinctInSet(w: seq<Id>, s: set<Id>)
    requires Distinct(w) && forall k :: 0 <= k < |w| ==> w[k] in s
    ensures |w| <= |s|
  {
    if w != [] {
      DistinctInSet(w[..|w| - 1], s - {w[|w| - 1]});
    }
  }

  lemma WalkFits(tasks: seq<Task>, w: seq<Id>)
    requires Distinct(w) && forall k :: 0 <= k < |w| ==> PendingId(tasks, w[k])
    ensures |w| <= |tasks|
  {
    IdSetSize(tasks);
    DistinctInSet(w, IdSet(tasks));
  }

  /** A settled valid campaign with a pending task has a ready one. */
  lemma SomePendingIsReady(tasks: seq<Task>, i: nat)
    requires ValidGraph(tasks) && Settled(tasks) && i < |tasks| && tasks[i].rung == Pending
    ensures SomeReady(tasks)
    ensures Members(tasks, |tasks|, InReady) != []
  {
    if !SomeReady(tasks) {
      StalledMeansCycle(tasks, [tasks[i].id]);
    }
    var r :| 0 <= r < |tasks| && IsReady(tasks, tasks[r]);
    ReadyIsListed(tasks, r, |tasks|);
  }

  lemma {:induction false} ReadyIsListed(tasks: seq<Task>, r: nat, n: nat)
    requires r < n <= |tasks| && IsReady(tasks, tasks[r])
    ensures tasks[r].id in Members(tasks, n, InReady)
  {
    if r < n - 1 { ReadyIsListed(tasks, r, n - 1); }
  }

  /** One round: every task that is ready now gets validated. */
  function ValidateReady(tasks: seq<Task>): (r: seq<Task>)
    ensures |r| == |tasks|
  {
    seq(|tasks|, i requires 0 <= i < |tasks| =>
      if IsReady(tasks, tasks[i]) then tasks[i].(rung := Validated) else tasks[i])
  }

  function Rounds(tasks: seq<Task>, n: nat): (r: seq<Task>)
    ensures |r| == |tasks|
  {
    if n == 0 then tasks else ValidateReady(Rounds(tasks, n - 1))
  }

  function PendingCount(tasks: seq<Task>): (n: nat)
    ensures n <= |tasks|
  {
    if tasks == [] then 0
    else PendingCount(tasks[..|tasks| - 1]) + (if tasks[|tasks| - 1].rung == Pending then 1 else 0)
  }

  ghost predicate SameShape(a: seq<Task>, b: seq<Task>) {
    |a| == |b| && forall i :: 0 <= i < |a| ==> a[i].id == b[i].id && a[i].dependsOn == b[i].dependsOn
  }

  lemma {:induction false} SameShapeSameGraph(a: seq<Task>, b: seq<Task>)
    requires SameShape(a, b)
    ensures EdgesOf(a) == EdgesOf(b)
  {
    if a != [] { SameShapeSameGraph(a[..|a| - 1], b[..|b| - 1]); }
  }

  lemma ValidityIsShape(a: seq<Task>, b: seq<Task>)
    requires SameShape(a, b) && ValidGraph(a)
    ensures ValidGraph(b)
  {
    SameShapeSameGraph(a, b);
    assert Ids(a) == Ids(b);
  }

  /** Tasks only leave the pending rung; if one does, the count drops. */
  lemma {:induction false} CountDrops(a: seq<Task>, b: seq<Task>)
    requires SameShape(a, b)
    requires forall i :: 0 <= i < |a| && b[i].rung == Pending ==> a[i].rung == Pending
    ensures PendingCount(b) <= PendingCount(a)
    ensures (exists i :: 0 <= i < |a| && a[i].rung == Pending && b[i].rung != Pending) ==> PendingCount(b) < PendingCount(a)
  {
    if a != [] {
      CountDrops(a[..|a| - 1], b[..|b| - 1]);
    }
  }

  lemma {:induction false} NoneLeft(tasks: seq<Task>)
    ensures PendingCount(tasks) == 0 <==> forall i :: 0 <= i < |tasks| ==> tasks[i].rung != Pending
  {
    if tasks != [] { NoneLeft(tasks[..|tasks| - 1]); }
  }

  lemma RoundMakesProgress(tasks: seq<Task>)
    requires ValidGraph(tasks) && Settled(tasks)
    ensures ValidGraph(ValidateReady(tasks)) && Settled(ValidateReady(tasks))
    ensures PendingCount(tasks) > 0 ==> PendingCount(ValidateReady(tasks)) < PendingCount(tasks)
    ensures PendingCount(ValidateReady(tasks)) <= PendingCount(tasks)
  {
    var next := ValidateReady(tasks);
    ValidityIsShape(tasks, next);
    CountDrops(tasks, next);
    if PendingCount(tasks) > 0 {
      var r := ReadyOne(tasks);
      assert next[r].rung == Validated;
    }
  }

  lemma ReadyOne(tasks: seq<Task>) returns (r: nat)
    requires ValidGraph(tasks) && Settled(tasks) && PendingCount(tasks) > 0
    ensures r < |tasks| && IsReady(tasks, tasks[r])
  {
    hide ValidGraph, IsReady, Settled;
    NoneLeft(tasks);
    var i :| 0 <= i < |tasks| && tasks[i].rung == Pending;
    SomePendingIsReady(tasks, i);
    r :| 0 <= r < |tasks| && IsReady(tasks, tasks[r]);
  }

  lemma {:induction false} RoundsShrink(tasks: seq<Task>, n: nat)
    requires ValidGraph(tasks) && Settled(tasks)
    ensures ValidGraph(Rounds(tasks, n)) && Settled(Rounds(tasks, n))
    ensures PendingCount(Rounds(tasks, n)) == 0 || PendingCount(Rounds(tasks, n)) + n <= |tasks|
  {
    if n > 0 {
      RoundsShrink(tasks, n - 1);
      RoundMakesProgress(Rounds(tasks, n - 1));
    }
  }

  /** Validating what is ready finishes a campaign of n tasks in at most n rounds. */
  lemma CampaignFinishes(tasks: seq<Task>)
    requires ValidGraph(tasks) && Settled(tasks)
    ensures forall i :: 0 <= i < |tasks| ==> Satisfies(Rounds(tasks, |tasks|)[i].rung)
  {
    RoundsShrink(tasks, |tasks|);
    NoneLeft(Rounds(tasks, |tasks|));
  }
}
