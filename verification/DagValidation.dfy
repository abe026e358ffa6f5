/** _validate_dag: Kahn's algorithm over mutable in-degrees, proved to accept a task list exactly
    when its ids are distinct and a topological order exists. */
module DagValidation {
  import opened Plans

  datatype Verdict = Accepted | MissingDep(task: Id, dep: Id) | CycleFound

  /** A dependency edge: `task` waits for `dep`. */
  datatype Edge = Edge(dep: Id, task: Id)

  /** `edges`, and then the first `j` dependencies of `t`. */
  function WithDeps(edges: seq<Edge>, t: Task, j: nat): seq<Edge>
    requires j <= |t.deps|
  {
    if j == 0 then edges else WithDeps(edges, t, j - 1) + [Edge(t.deps[j - 1], t.id)]
  }

  function Edges(tasks: seq<Task>): seq<Edge> {
    if tasks == [] then []
    else
      var last := tasks[|tasks| - 1];
      WithDeps(Edges(tasks[..|tasks| - 1]), last, |last.deps|)
  }

  /** The number of edges into `x` that come from tasks outside `done`. */
  function Waiting(edges: seq<Edge>, x: Id, done: set<Id>): nat {
    if edges == [] then 0
    else
      var e := edges[|edges| - 1];
      Waiting(edges[..|edges| - 1], x, done) + if e.task == x && e.dep !in done then 1 else 0
  }

  /** The tasks that wait for `d`, with repetitions, in edge order. */
  function Dependents(edges: seq<Edge>, d: Id): seq<Id> {
    if edges == [] then []
    else
      var e := edges[|edges| - 1];
      var init := Dependents(edges[..|edges| - 1], d);
      if e.dep == d then init + [e.task] else init
  }

  lemma {:induction false} CountNext(s: seq<Id>, i: nat, x: Id)
    requires i < |s|
    ensures Count(s[..i + 1], x) == Count(s[..i], x) + if s[i] == x then 1 else 0
  {
    assert s[..i + 1][..i] == s[..i];
  }

  lemma {:induction false} CountPrefix(s: seq<Id>, n: nat, x: Id)
    requires n <= |s|
    ensures Count(s[..n], x) <= Count(s, x)
  {
    if n == |s| {
      assert s[..n] == s;
    } else {
      CountPrefix(s[..|s| - 1], n, x);
      assert s[..|s| - 1][..n] == s[..n];
    }
  }

  lemma {:induction false} WaitingZero(edges: seq<Edge>, x: Id, done: set<Id>)
    ensures Waiting(edges, x, done) == 0 <==> forall e :: e in edges && e.task == x ==> e.dep in done
  {
    if edges != [] {
      WaitingZero(edges[..|edges| - 1], x, done);
      assert edges == edges[..|edges| - 1] + [edges[|edges| - 1]];
    }
  }

  /** Finishing `d` takes one off `x` for every occurrence of `x` among the dependents of `d`. */
  lemma {:induction false} WaitingAfter(edges: seq<Edge>, x: Id, done: set<Id>, d: Id)
    requires d !in done
    ensures Waiting(edges, x, done) == Waiting(edges, x, done + {d}) + Count(Dependents(edges, d), x)
  {
    if edges != [] {
      var init, e := edges[..|edges| - 1], edges[|edges| - 1];
      WaitingAfter(init, x, done, d);
      assert (Dependents(init, d) + [e.task])[..|Dependents(init, d)|] == Dependents(init, d);
    }
  }

  lemma {:induction false} DependentsEdges(edges: seq<Edge>, d: Id)
    ensures forall x :: x in Dependents(edges, d) ==> Edge(d, x) in edges
  {
    if edges != [] {
      DependentsEdges(edges[..|edges| - 1], d);
      assert edges == edges[..|edges| - 1] + [edges[|edges| - 1]];
    }
  }

  lemma {:induction false} WithDepsMembers(edges: seq<Edge>, t: Task, j: nat)
    requires j <= |t.deps|
    ensures forall e :: e in WithDeps(edges, t, j) <==> e in edges || (e.task == t.id && e.dep in t.deps[..j])
  {
    if j > 0 {
      WithDepsMembers(edges, t, j - 1);
      assert t.deps[..j] == t.deps[..j - 1] + [t.deps[j - 1]];
    }
  }

  lemma {:induction false} EdgesMembers(tasks: seq<Task>)
    ensures forall e :: e in Edges(tasks) <==> exists t :: t in tasks && e.task == t.id && e.dep in t.deps
  {
    if tasks != [] {
      var last := tasks[|tasks| - 1];
      EdgesMembers(tasks[..|tasks| - 1]);
      WithDepsMembers(Edges(tasks[..|tasks| - 1]), last, |last.deps|);
      assert last.deps[..|last.deps|] == last.deps;
      assert tasks == tasks[..|tasks| - 1] + [last];
    }
  }

  /** The first dependency, in reading order, that names no listed task. */
  ghost predicate FirstMissing(tasks: seq<Task>, task: Id, dep: Id) {
    exists i, j ::
      && 0 <= i < |tasks| && 0 <= j < |tasks[i].deps|
      && tasks[i].id == task && tasks[i].deps[j] == dep && dep !in IdSet(tasks)
      && (forall k :: 0 <= k < j ==> tasks[i].deps[k] in IdSet(tasks))
      && (forall h, d :: 0 <= h < i && d in tasks[h].deps ==> d in IdSet(tasks))
  }

  ghost predicate AllListed(tasks: seq<Task>) {
    forall t, d :: t in tasks && d in t.deps ==> d in IdSet(tasks)
  }

  /** The first loop of _validate_dag. */
  method FindMissing(tasks: seq<Task>) returns (v: Verdict)
    ensures !v.CycleFound?
    ensures v.Accepted? <==> AllListed(tasks)
    ensures v.MissingDep? ==> FirstMissing(tasks, v.task, v.dep)
  {
    var ids := IdSet(tasks);
    for i := 0 to |tasks|
      invariant forall h, d :: 0 <= h < i && d in tasks[h].deps ==> d in ids
    {
      for j := 0 to |tasks[i].deps|
        invariant forall k :: 0 <= k < j ==> tasks[i].deps[k] in ids
      {
        if tasks[i].deps[j] !in ids {
          assert tasks[i] in tasks && tasks[i].deps[j] in tasks[i].deps;
          return MissingDep(tasks[i].id, tasks[i].deps[j]);
        }
      }
    }
    return Accepted;
  }

  lemma {:induction false} EdgeAppended(edges: seq<Edge>, e: Edge)
    ensures forall x, done :: Waiting(edges + [e], x, done) == Waiting(edges, x, done) + if e.task == x && e.dep !in done then 1 else 0
    ensures forall d :: Dependents(edges + [e], d) == if e.dep == d then Dependents(edges, d) + [e.task] else Dependents(edges, d)
  {
    assert (edges + [e])[..|edges|] == edges;
  }

  /** The dictionaries hold the in-degrees and the adjacency lists of `edges`. */
  ghost predicate Graph(edges: seq<Edge>, ids: set<Id>, inDegree: map<Id, nat>, adj: map<Id, seq<Id>>) {
    && inDegree.Keys == adj.Keys == ids
    && (forall x :: x in ids ==> inDegree[x] == Waiting(edges, x, {}))
    && (forall x :: x in ids ==> adj[x] == Dependents(edges, x))
  }

  method AddEdge(ghost edges: seq<Edge>, ghost ids: set<Id>, dep: Id, task: Id, inDegree0: map<Id, nat>, adj0: map<Id, seq<Id>>)
    returns (inDegree: map<Id, nat>, adj: map<Id, seq<Id>>)
    requires Graph(edges, ids, inDegree0, adj0) && task in ids && dep in ids
    ensures Graph(edges + [Edge(dep, task)], ids, inDegree, adj)
  {
    EdgeAppended(edges, Edge(dep, task));
    inDegree := inDegree0[task := inDegree0[task] + 1];
    adj := adj0[dep := adj0[dep] + [task]];
  }

  /** Count the dependencies of one task. */
  method AddTask(ghost edges0: seq<Edge>, ghost ids: set<Id>, t: Task, inDegree0: map<Id, nat>, adj0: map<Id, seq<Id>>)
    returns (inDegree: map<Id, nat>, adj: map<Id, seq<Id>>)
    requires Graph(edges0, ids, inDegree0, adj0)
    requires t.id in ids && forall j :: 0 <= j < |t.deps| ==> t.deps[j] in ids
    ensures Graph(WithDeps(edges0, t, |t.deps|), ids, inDegree, adj)
  {
    inDegree, adj := inDegree0, adj0;
    for j := 0 to |t.deps|
      invariant Graph(WithDeps(edges0, t, j), ids, inDegree, adj)
    {
      var dep := t.deps[j];
      inDegree, adj := AddEdge(WithDeps(edges0, t, j), ids, dep, t.id, inDegree, adj);
    }
  }

  /** The in-degree and adjacency dictionaries. */
  method BuildGraph(tasks: seq<Task>) returns (inDegree: map<Id, nat>, adj: map<Id, seq<Id>>)
    requires AllListed(tasks)
    ensures Graph(Edges(tasks), IdSet(tasks), inDegree, adj)
  {
    ghost var ids := IdSet(tasks);
    inDegree := map x | x in IdSet(tasks) :: 0;
    adj := map x | x in IdSet(tasks) :: [];
    for i := 0 to |tasks|
      invariant Graph(Edges(tasks[..i]), ids, inDegree, adj)
    {
      assert tasks[i] in tasks;
      inDegree, adj := AddTask(Edges(tasks[..i]), ids, tasks[i], inDegree, adj);
      assert tasks[..i + 1][..i] == tasks[..i];
    }
    assert tasks[..|tasks|] == tasks;
  }

  function Elements(s: seq<Id>): set<Id> { set x | x in s }

  /** Every task was popped after all of its dependencies. */
  ghost predicate Ordered(edges: seq<Edge>, popped: seq<Id>) {
    forall k, e :: 0 <= k < |popped| && e in edges && e.task == popped[k] ==> e.dep in Elements(popped[..k])
  }

  lemma {:induction false} OrderedExtends(edges: seq<Edge>, popped: seq<Id>, node: Id)
    requires Ordered(edges, popped)
    requires forall e :: e in edges && e.task == node ==> e.dep in Elements(popped)
    ensures Ordered(edges, popped + [node])
  {
    forall k, e | 0 <= k < |popped| + 1 && e in edges && e.task == (popped + [node])[k]
      ensures e.dep in Elements((popped + [node])[..k])
    {
      assert (popped + [node])[..k] == popped[..k];
      if k == |popped| { assert popped[..k] == popped; }
    }
  }

  /** What the popping loop keeps: no node is queued or popped twice, and `queue` holds exactly the
      unpopped tasks whose in-degree has reached zero. */
  ghost predicate Sorting(ids: set<Id>, inDegree: map<Id, nat>, queue: seq<Id>, popped: seq<Id>) {
    && inDegree.Keys == ids
    && Distinct(popped) && Distinct(queue) && (forall x :: x in queue ==> x !in popped)
    && (forall x :: x in popped || x in queue ==> x in ids)
    && (forall x :: x in ids ==> (x in popped || x in queue <==> inDegree[x] == 0))
  }

  /** While the dependents of the last popped node are being lowered: those in `seen` are, one each;
      `done` are the nodes popped before it. */
  ghost predicate Lowering(edges: seq<Edge>, ids: set<Id>, inDegree: map<Id, nat>, done: set<Id>, seen: seq<Id>) {
    inDegree.Keys == ids && forall x :: x in ids ==> inDegree[x] + Count(seen, x) == Waiting(edges, x, done)
  }

  lemma {:induction false} LowerOne(edges: seq<Edge>, ids: set<Id>, inDegree: map<Id, nat>, done: set<Id>, nbs: seq<Id>, i: nat)
    requires i < |nbs| && nbs[i] in ids
    requires Lowering(edges, ids, inDegree, done, nbs[..i])
    requires Count(nbs, nbs[i]) <= Waiting(edges, nbs[i], done)
    ensures inDegree[nbs[i]] > 0
    ensures Lowering(edges, ids, inDegree[nbs[i] := inDegree[nbs[i]] - 1], done, nbs[..i + 1])
  {
    var nb := nbs[i];
    CountPrefix(nbs, i + 1, nb);
    CountNext(nbs, i, nb);
    var lowered := inDegree[nb := inDegree[nb] - 1];
    forall x | x in ids ensures lowered[x] + Count(nbs[..i + 1], x) == Waiting(edges, x, done) {
      CountNext(nbs, i, x);
    }
  }

  lemma {:induction false} SortingLowered(ids: set<Id>, inDegree: map<Id, nat>, queue: seq<Id>, popped: seq<Id>, nb: Id)
    requires Sorting(ids, inDegree, queue, popped) && nb in ids && inDegree[nb] > 0
    ensures
      var lowered := inDegree[nb := inDegree[nb] - 1];
      Sorting(ids, lowered, if lowered[nb] == 0 then queue + [nb] else queue, popped)
  {
    assert nb !in queue && nb !in popped;
  }

  /** One round of the while loop: pop a node and release its dependents. */
  method Release(ghost edges: seq<Edge>, ghost ids: set<Id>, adj: map<Id, seq<Id>>,
                 inDegree0: map<Id, nat>, queue0: seq<Id>, ghost popped0: seq<Id>)
    returns (inDegree: map<Id, nat>, queue: seq<Id>, node: Id)
    requires forall e :: e in edges ==> e.task in ids
    requires adj.Keys == ids && forall x :: x in ids ==> adj[x] == Dependents(edges, x)
    requires queue0 != [] && Sorting(ids, inDegree0, queue0, popped0)
    requires forall x :: x in ids ==> inDegree0[x] == Waiting(edges, x, Elements(popped0))
    ensures node == queue0[|queue0| - 1] && forall e :: e in edges && e.task == node ==> e.dep in Elements(popped0)
    ensures Sorting(ids, inDegree, queue, popped0 + [node])
    ensures forall x :: x in ids ==> inDegree[x] == Waiting(edges, x, Elements(popped0 + [node]))
  {
    node := queue0[|queue0| - 1];
    queue := queue0[..|queue0| - 1];
    ghost var popped := popped0 + [node];
    inDegree := inDegree0;
    ghost var done := Elements(popped0);
    assert node in queue0 && Elements(popped) == done + {node};
    WaitingZero(edges, node, done);
    DependentsEdges(edges, node);
    var nbs := adj[node];
    forall x ensures Waiting(edges, x, done) == Waiting(edges, x, done + {node}) + Count(nbs, x) {
      WaitingAfter(edges, x, done, node);
    }
    for i := 0 to |nbs|
      invariant Sorting(ids, inDegree, queue, popped)
      invariant Lowering(edges, ids, inDegree, done, nbs[..i])
    {
      var nb := nbs[i];
      assert nb in nbs;
      LowerOne(edges, ids, inDegree, done, nbs, i);
      SortingLowered(ids, inDegree, queue, popped, nb);
      inDegree := inDegree[nb := inDegree[nb] - 1];
      if inDegree[nb] == 0 {
        queue := queue + [nb];
      }
    }
    assert nbs[..|nbs|] == nbs;
  }

  /** When the queue is empty, everything listed has been popped unless some task waits forever. */
  lemma {:induction false} AllPopped(tasks: seq<Task>, inDegree: map<Id, nat>, popped: seq<Id>, order: seq<Id>)
    requires Sorting(IdSet(tasks), inDegree, [], popped)
    requires forall x :: x in IdSet(tasks) ==> inDegree[x] == Waiting(Edges(tasks), x, Elements(popped))
    requires TopologicalOrder(order, tasks)
    ensures Elements(popped) == IdSet(tasks)
  {
    EdgesMembers(tasks);
    for k := 0 to |order|
      invariant forall j :: 0 <= j < k ==> order[j] in popped
    {
      var x := order[k];
      assert x in order;
      WaitingZero(Edges(tasks), x, Elements(popped));
      forall e | e in Edges(tasks) && e.task == x ensures e.dep in Elements(popped) {
        assert e.dep in order[..k];
      }
    }
  }

  /** The tasks without dependencies, each once, in first-occurrence order. */
  method InitialQueue(tasks: seq<Task>, inDegree: map<Id, nat>) returns (queue: seq<Id>)
    requires inDegree.Keys == IdSet(tasks)
    ensures Distinct(queue)
    ensures forall x :: x in queue <==> x in inDegree && inDegree[x] == 0
  {
    queue := [];
    for i := 0 to |tasks|
      invariant Distinct(queue)
      invariant forall x :: x in queue <==> x in inDegree && inDegree[x] == 0 && exists h :: 0 <= h < i && tasks[h].id == x
    {
      assert tasks[i].id in IdSet(tasks);
      if inDegree[tasks[i].id] == 0 && tasks[i].id !in queue {
        queue := queue + [tasks[i].id];
      }
    }
  }

  method ValidateDag(tasks: seq<Task>) returns (v: Verdict)
    ensures v.Accepted? <==> Acceptable(tasks)
    ensures v.MissingDep? <==> !AllListed(tasks)
    ensures v.MissingDep? ==> FirstMissing(tasks, v.task, v.dep)
  {
    v := FindMissing(tasks);
    if v.MissingDep? {
      if Acceptable(tasks) { TopologicalListed(tasks); }
      return;
    }
    var inDegree, adj := BuildGraph(tasks);
    ghost var edges, ids, popped: seq<Id> := Edges(tasks), IdSet(tasks), [];
    EdgesMembers(tasks);
    var queue := InitialQueue(tasks, inDegree);
    forall x | x in ids && inDegree[x] == 0 ensures forall e :: e in edges && e.task == x ==> e.dep in {} {
      WaitingZero(edges, x, {});
    }
    assert Elements(popped) == {};
    var visited := 0;
    while queue != []
      invariant visited == |popped|
      invariant Sorting(ids, inDegree, queue, popped)
      invariant Ordered(edges, popped)
      invariant forall x :: x in ids ==> inDegree[x] == Waiting(edges, x, Elements(popped))
      decreases |ids| - visited
    {
      var node;
      inDegree, queue, node := Release(edges, ids, adj, inDegree, queue, popped);
      visited := visited + 1;
      OrderedExtends(edges, popped, node);
      popped := popped + [node];
      PoppedSize(ids, inDegree, queue, popped);
    }
    Counting(tasks, inDegree, popped);
    return if visited != |tasks| then CycleFound else Accepted;
  }

  lemma {:induction false} TopologicalListed(tasks: seq<Task>)
    requires Acceptable(tasks)
    ensures AllListed(tasks)
  {
    var order :| TopologicalOrder(order, tasks);
    forall t, d | t in tasks && d in t.deps ensures d in IdSet(tasks) {
      assert t.id in order;
      var k :| 0 <= k < |order| && order[k] == t.id;
      assert d in order[..k];
    }
  }

  lemma {:induction false} PoppedSize(ids: set<Id>, inDegree: map<Id, nat>, queue: seq<Id>, popped: seq<Id>)
    requires Sorting(ids, inDegree, queue, popped)
    ensures |popped| == |Elements(popped)| <= |ids|
  {
    DistinctSize(popped);
    SubsetSize(Elements(popped), ids);
  }

  lemma {:induction false} IdsElements(tasks: seq<Task>)
    ensures IdSet(tasks) == Elements(Ids(tasks))
  {
    forall x | x in IdSet(tasks) ensures x in Ids(tasks) {
      var i :| 0 <= i < |tasks| && tasks[i].id == x;
      assert Ids(tasks)[i] == x;
    }
  }

  /** Comparing `visited` with the length of the list decides the plan, duplicated ids included. */
  lemma {:induction false} Counting(tasks: seq<Task>, inDegree: map<Id, nat>, popped: seq<Id>)
    requires AllListed(tasks) && Ordered(Edges(tasks), popped)
    requires Sorting(IdSet(tasks), inDegree, [], popped)
    requires forall x :: x in IdSet(tasks) ==> inDegree[x] == Waiting(Edges(tasks), x, Elements(popped))
    ensures |popped| == |tasks| <==> Acceptable(tasks)
  {
    PoppedSize(IdSet(tasks), inDegree, [], popped);
    IdsElements(tasks);
    DistinctSize(Ids(tasks));
    if |popped| == |tasks| {
      PoppedOrder(tasks, inDegree, popped);
    }
    if Acceptable(tasks) {
      var order :| TopologicalOrder(order, tasks);
      AllPopped(tasks, inDegree, popped, order);
    }
  }

  lemma {:induction false} PoppedOrder(tasks: seq<Task>, inDegree: map<Id, nat>, popped: seq<Id>)
    requires Ordered(Edges(tasks), popped)
    requires Sorting(IdSet(tasks), inDegree, [], popped)
    requires |popped| >= |IdSet(tasks)|
    ensures TopologicalOrder(popped, tasks)
  {
    PoppedSize(IdSet(tasks), inDegree, [], popped);
    SubsetSize(Elements(popped), IdSet(tasks));
    assert forall x :: x in popped <==> x in Elements(popped);
    EdgesMembers(tasks);
    forall t, k, d | t in tasks && 0 <= k < |popped| && popped[k] == t.id && d in t.deps ensures d in popped[..k] {
      assert Edge(d, t.id) in Edges(tasks);
    }
  }
}
