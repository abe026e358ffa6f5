/** Task plans: the records the scheduler works on, what makes a plan acceptable,
    and what it means for one task to need another. */
module Plans {

  datatype Id = Id(text: string)

  /** A task as handed to load_plan. `runnable` says that the record has the "role" and "desc"
      keys, which _run_single_task reads after taking the lease and before its `try`. */
  datatype Task = Task(id: Id, deps: seq<Id>, runnable: bool)

  datatype Status = Pending | Running | Complete | Failed | Blocked

  /** A task as stored under tasks:{session}:{id}. */
  datatype Record = Record(deps: seq<Id>, runnable: bool, status: Status)

  type Store = map<Id, Record>

  predicate Distinct<T(==)>(s: seq<T>) {
    forall i, j :: 0 <= i < j < |s| ==> s[i] != s[j]
  }

  function Ids(tasks: seq<Task>): seq<Id> {
    seq(|tasks|, i requires 0 <= i < |tasks| => tasks[i].id)
  }

  function IdSet(tasks: seq<Task>): set<Id> {
    set t <- tasks :: t.id
  }

  /** `order` lists every id once, and every task after all of its dependencies. */
  ghost predicate TopologicalOrder(order: seq<Id>, tasks: seq<Task>) {
    && Distinct(order)
    && (forall x :: x in order <==> x in IdSet(tasks))
    && (forall t, k, d :: t in tasks && 0 <= k < |order| && order[k] == t.id && d in t.deps ==> d in order[..k])
  }

  /** The plans load_plan promises to accept. */
  ghost predicate Acceptable(tasks: seq<Task>) {
    Distinct(Ids(tasks)) && exists order :: TopologicalOrder(order, tasks)
  }

  // ---- Needing a task, directly or through others -------------------------------------

  /** Each element of `p` is a dependency of the next one. */
  ghost predicate Path(tasks: Store, p: seq<Id>) {
    |p| >= 2 && forall k :: 0 < k < |p| ==> p[k] in tasks && p[k - 1] in tasks[p[k]].deps
  }

  /** `x` depends, directly or transitively, on `root`. */
  ghost predicate Needs(tasks: Store, x: Id, root: Id) {
    exists p :: Path(tasks, p) && p[0] == root && p[|p| - 1] == x
  }

  lemma {:induction false} NeedsDirect(tasks: Store, x: Id, root: Id)
    requires x in tasks && root in tasks[x].deps
    ensures Needs(tasks, x, root)
  {
    assert Path(tasks, [root, x]);
  }

  lemma {:induction false} NeedsThrough(tasks: Store, x: Id, d: Id, root: Id)
    requires x in tasks && d in tasks[x].deps && Needs(tasks, d, root)
    ensures Needs(tasks, x, root)
  {
    var p :| Path(tasks, p) && p[0] == root && p[|p| - 1] == d;
    assert Path(tasks, p + [x]);
  }

  /** Two stores with the same dependency edges have the same Needs relation. */
  ghost predicate SameShape(a: Store, b: Store) {
    a.Keys == b.Keys && forall x :: x in a ==> a[x].deps == b[x].deps && a[x].runnable == b[x].runnable
  }

  lemma {:induction false} NeedsSameShape(a: Store, b: Store, x: Id, root: Id)
    requires SameShape(a, b)
    ensures Needs(a, x, root) <==> Needs(b, x, root)
  {
    if Needs(a, x, root) {
      var p :| Path(a, p) && p[0] == root && p[|p| - 1] == x;
      assert Path(b, p);
    }
    if Needs(b, x, root) {
      var p :| Path(b, p) && p[0] == root && p[|p| - 1] == x;
      assert Path(a, p);
    }
  }

  // ---- Sizes of duplicate-free sequences ------------------------------------------------

  /** How often `x` occurs. */
  function Count(s: seq<Id>, x: Id): nat {
    if s == [] then 0 else Count(s[..|s| - 1], x) + if s[|s| - 1] == x then 1 else 0
  }

  lemma {:induction false} CountAppend(s: seq<Id>, y: Id)
    ensures forall x :: Count(s + [y], x) == Count(s, x) + if x == y then 1 else 0
  {
    assert (s + [y])[..|s|] == s;
  }

  lemma {:induction false} DistinctSize<T>(s: seq<T>)
    ensures |set x | x in s| <= |s|
    ensures Distinct(s) <==> |set x | x in s| == |s|
  {
    if s != [] {
      var last, init := s[|s| - 1], s[..|s| - 1];
      DistinctSize(init);
      assert (set x | x in s) == (set x | x in init) + {last};
      if Distinct(s) {
        assert Distinct(init) && last !in init;
      } else if last !in init {
        assert !Distinct(init);
      }
    }
  }

  lemma {:induction false} DistinctAppend<T>(a: seq<T>, b: seq<T>)
    requires Distinct(a) && Distinct(b) && forall x :: x in a ==> x !in b
    ensures Distinct(a + b)
  {
    forall i, j | 0 <= i < j < |a + b| ensures (a + b)[i] != (a + b)[j] {
      if i < |a| <= j { assert a[i] in a && b[j - |a|] in b; }
    }
  }

  lemma {:induction false} SubsetSize<T>(a: set<T>, b: set<T>)
    requires a <= b
    ensures |a| <= |b|
    ensures |a| == |b| ==> a == b
  {
    assert b == a + (b - a);
  }
}
