/** TaskQueue: loading a plan into Redis and executing it batch by batch. The model covers one
    session, and no other session writes to its keys. */
module Scheduler {
  import opened Wrappers
  import opened Plans
  import opened DagValidation
  import opened Batch
  import opened Sequences

  // ---- Ready tasks ------------------------------------------------------------------------------

  predicate IsReady(tasks: Store, x: Id) {
    x in tasks && tasks[x].status == Pending && forall d <- tasks[x].deps :: d in tasks && tasks[d].status == Complete
  }

  /** The ready tasks in the order of the task list. */
  function ReadyIn(list: seq<Id>, tasks: Store): seq<Id> {
    if list == [] then []
    else
      var ready, x := ReadyIn(list[..|list| - 1], tasks), list[|list| - 1];
      if IsReady(tasks, x) then ready + [x] else ready
  }

  lemma {:induction false} ReadyInMeaning(list: seq<Id>, tasks: Store)
    ensures forall x :: x in ReadyIn(list, tasks) <==> x in list && IsReady(tasks, x)
    ensures Distinct(list) ==> Distinct(ReadyIn(list, tasks))
    ensures Subsequence(ReadyIn(list, tasks), list)
  {
    if list != [] {
      var init, x := list[..|list| - 1], list[|list| - 1];
      ReadyInMeaning(init, tasks);
      assert list == init + [x];
      if Distinct(list) { assert x !in init; }
      var ready := ReadyIn(init, tasks);
      if IsReady(tasks, x) {
        assert (ready + [x])[..|ready|] == ready;
      } else if ready != [] && ready[|ready| - 1] == x {
        PrefixOfSubsequence(ready, init);
      }
    }
  }

  // ---- Orders of stored plans ---------------------------------------------------------------------

  /** `order` covers the stored tasks and puts each after its dependencies. */
  ghost predicate StoreOrder(order: seq<Id>, tasks: Store) {
    && (forall x :: x in tasks ==> x in order)
    && (forall k, d :: 0 <= k < |order| && order[k] in tasks && d in tasks[order[k]].deps ==> d in Elements(order[..k]))
  }

  ghost predicate Acyclic(tasks: Store) {
    exists order :: StoreOrder(order, tasks)
  }

  lemma {:induction false} AcyclicSameShape(a: Store, b: Store)
    requires SameShape(a, b) && Acyclic(a)
    ensures Acyclic(b)
  {
    var order :| StoreOrder(order, a);
    assert StoreOrder(order, b);
  }

  ghost predicate NeedsRunning(tasks: Store, x: Id) {
    exists r :: r in tasks && tasks[r].status == Running && Needs(tasks, x, r)
  }

  /** When nothing is ready, a task still pending waits for one that is running. */
  lemma {:induction false} StuckWaits(list: seq<Id>, tasks: Store, order: seq<Id>, k: nat)
    requires Consistent(list, tasks) && StoreOrder(order, tasks) && k <= |order|
    requires forall x :: !IsReady(tasks, x)
    ensures forall j :: 0 <= j < k ==> WaitsIfPending(tasks, order[j])
  {
    if k > 0 {
      StuckWaits(list, tasks, order, k - 1);
      StuckNext(list, tasks, order, k - 1);
    }
  }

  lemma {:induction false} StuckNext(list: seq<Id>, tasks: Store, order: seq<Id>, i: nat)
    requires Consistent(list, tasks) && StoreOrder(order, tasks) && i < |order| && !IsReady(tasks, order[i])
    requires forall j :: 0 <= j < i ==> WaitsIfPending(tasks, order[j])
    ensures WaitsIfPending(tasks, order[i])
  {
    var x := order[i];
    if x in tasks && tasks[x].status == Pending {
      var d := Lacking(tasks, x);
      var j := EarlierDep(tasks, order, i, d);
      assert WaitsIfPending(tasks, order[j]);
      WaitsThrough(list, tasks, x, d);
    }
  }

  ghost predicate WaitsIfPending(tasks: Store, x: Id) {
    x in tasks && tasks[x].status == Pending ==> NeedsRunning(tasks, x)
  }

  lemma {:induction false} Lacking(tasks: Store, x: Id) returns (d: Id)
    requires x in tasks && tasks[x].status == Pending && !IsReady(tasks, x)
    ensures d in tasks[x].deps && (d !in tasks || tasks[d].status != Complete)
  {
    d :| d in tasks[x].deps && (d !in tasks || tasks[d].status != Complete);
  }

  lemma {:induction false} EarlierDep(tasks: Store, order: seq<Id>, i: nat, d: Id) returns (j: nat)
    requires StoreOrder(order, tasks) && i < |order| && order[i] in tasks && d in tasks[order[i]].deps
    ensures j < i && order[j] == d
  {
    assert d in Elements(order[..i]);
    j :| j < i && order[j] == d;
  }

  lemma {:induction false} WaitsThrough(list: seq<Id>, tasks: Store, x: Id, d: Id)
    requires Consistent(list, tasks) && x in tasks && tasks[x].status == Pending
    requires d in tasks[x].deps && (d !in tasks || tasks[d].status != Complete)
    requires d in tasks && tasks[d].status == Pending ==> NeedsRunning(tasks, d)
    ensures NeedsRunning(tasks, x)
  {
    assert !Broken(tasks[d].status);
    if tasks[d].status == Running {
      NeedsDirect(tasks, x, d);
    } else {
      var r :| r in tasks && tasks[r].status == Running && Needs(tasks, d, r);
      NeedsThrough(tasks, x, d, r);
    }
  }

  lemma {:induction false} PendingWaits(list: seq<Id>, tasks: Store)
    requires Consistent(list, tasks) && Acyclic(tasks) && forall x :: !IsReady(tasks, x)
    ensures forall x :: x in tasks && tasks[x].status == Pending ==> NeedsRunning(tasks, x)
  {
    var order :| StoreOrder(order, tasks);
    StuckWaits(list, tasks, order, |order|);
    forall x | x in tasks && tasks[x].status == Pending ensures NeedsRunning(tasks, x) {
      var j :| 0 <= j < |order| && order[j] == x;
      assert WaitsIfPending(tasks, order[j]);
    }
  }

  lemma {:induction false} BlockedExactly(list: seq<Id>, tasks: Store)
    requires Consistent(list, tasks)
    ensures forall x :: x in tasks ==> (tasks[x].status == Blocked <==> HasCause(tasks, x))
  {
    forall x | x in tasks && HasCause(tasks, x) ensures tasks[x].status == Blocked {
      var f :| f in tasks && tasks[f].status == Failed && Needs(tasks, x, f);
      var p :| Path(tasks, p) && p[0] == f && p[|p| - 1] == x;
      PathBlocked(tasks, p);
    }
  }

  /** What a call of execute_plan leaves when nothing is ready any more. */
  lemma {:induction false} PlanOver(list: seq<Id>, before: Store, tasks: Store)
    requires Consistent(list, tasks) && SameShape(before, tasks) && Acyclic(before) && ReadyIn(list, tasks) == []
    ensures forall x :: x in tasks && tasks[x].status == Pending ==> NeedsRunning(tasks, x)
    ensures forall x :: x in tasks ==> (tasks[x].status == Blocked <==> HasCause(tasks, x))
  {
    ReadyInMeaning(list, tasks);
    AcyclicSameShape(before, tasks);
    PendingWaits(list, tasks);
    BlockedExactly(list, tasks);
  }

  // ---- One batch ------------------------------------------------------------------------------------

  /** What has become of task `x` of a batch: left running if its lease was taken; else, after exactly one
      agent run, complete if that succeeded and failed if it did not; or failed without one if its record
      was unusable. Unless other
      processes may lease the task, its lease was taken only if it was from the start, and is left only
      then or by an unusable record. */
  ghost predicate Executed(start: Shared, end: Shared, x: Id)
    requires x in start.tasks && x in end.tasks
  {
    var st, runs := end.tasks[x].status, Count(end.spawned, x) - Count(start.spawned, x);
    && (st == Running || st == Complete || st == Failed)
    && (if st == Running then runs == 0
        else if start.tasks[x].runnable then
          runs == 1 && x in end.ended && (if end.ended[x] == Succeeded then st == Complete else st == Failed)
        else st == Failed && runs == 0)
    && (x !in start.foreign ==>
          && (st == Running <==> x in start.leases)
          && (x in end.leases <==> x in start.leases || !start.tasks[x].runnable))
  }

  ghost predicate Untouched(start: Shared, end: Shared, x: Id) {
    && Count(end.spawned, x) == Count(start.spawned, x) && SameEnd(start, end, x)
    && (x !in start.foreign ==> (x in end.leases <==> x in start.leases))
  }

  /** asyncio.gather over the batch and the failing of raised tasks after it: any enabled worker may
      move next, agents end in any way, and foreign leases change before each move. */
  method Gather(list: seq<Id>, start: Shared, s0: State) returns (s: State)
    requires Inv(list, start, s0) && RanOk(start.tasks) && Listed(list, start.tasks)
    ensures Inv(list, start, s) && AllFinished(s)
    ensures SameTasks(s0, s)
  {
    s := s0;
    while !AllFinished(s)
      invariant Inv(list, start, s) && SameTasks(s0, s)
      decreases TotalRank(|list|, s.workers)
    {
      s := MoveOne(list, start, s);
    }
  }

  /** Whoever the event loop resumes next, and however an agent it waited for has ended. */
  method Pick(list: seq<Id>, ghost start: Shared, s: State) returns (i: nat, o: Outcome)
    requires Inv(list, start, s) && !AllFinished(s)
    ensures Enabled(s, i)
  {
    ghost var mover := SomeoneCanMove(list, start, s);
    i :| i < |s.workers| && Enabled(s, i);
    o := *;
  }

  method MoveOne(list: seq<Id>, ghost start: Shared, s: State) returns (s': State)
    requires Inv(list, start, s) && RanOk(start.tasks) && Listed(list, start.tasks) && !AllFinished(s)
    ensures Inv(list, start, s') && SameTasks(s, s')
    ensures TotalRank(|list|, s'.workers) < TotalRank(|list|, s.workers)
  {
    var taken: set<Id> := *;
    var s1 := Disturbed(s, taken);
    DisturbedKeeps(list, start, s, taken);
    var i, o := Pick(list, start, s1);
    s' := Step(list, s1, i, o);
    StepKeeps(list, start, s1, i, o);
    MoveEnds(list, start, s1, i, o);
  }

  lemma {:induction false} MoveEnds(list: seq<Id>, start: Shared, s: State, i: nat, o: Outcome)
    requires Inv(list, start, s) && Listed(list, start.tasks) && Enabled(s, i)
    ensures SameTasks(s, Step(list, s, i, o))
    ensures TotalRank(|list|, Step(list, s, i, o).workers) < TotalRank(|list|, s.workers)
  {
    StepsEnd(list, start, s, i, o);
    assert WorkerOk(list, start.tasks, s.shared.tasks, s.workers[i]);
    AdvanceLeases(list, s.shared, s.workers[i], o);
  }

  ghost predicate SameTasks(s: State, s': State) {
    |s'.workers| == |s.workers| && forall i :: 0 <= i < |s.workers| ==> s'.workers[i].task == s.workers[i].task
  }

  method RunBatch(list: seq<Id>, start: Shared, batch: seq<Id>) returns (end: Shared)
    requires Consistent(list, start.tasks) && Distinct(batch)
    requires forall x :: x in batch ==> x in start.tasks && start.tasks[x].status == Running
    ensures BatchDone(list, start, batch, end)
  {
    assert forall i :: 0 <= i < |batch| ==> batch[i] in batch;
    var s0 := State(start, seq(|batch|, i requires 0 <= i < |batch| => NewWorker(batch[i], start.tasks[batch[i]].runnable)));
    assert Launched(start, s0);
    RunKeepsInv(list, start, [s0]);
    var s := Gather(list, start, s0);
    assert forall i :: 0 <= i < |batch| ==> s.workers[i].task == batch[i];
    BatchEnd(list, start, batch, s);
    end := s.shared;
  }

  /** What execute_plan relies on when a batch is over. */
  ghost predicate BatchDone(list: seq<Id>, start: Shared, batch: seq<Id>, end: Shared) {
    && Consistent(list, end.tasks) && SameShape(start.tasks, end.tasks) && end.foreign == start.foreign
    && (forall x :: x in batch ==> x in start.tasks && Executed(start, end, x))
    && (forall x :: x !in batch ==> Untouched(start, end, x))
    && (forall x :: x in start.tasks && x !in batch ==>
          end.tasks[x].status == start.tasks[x].status || (start.tasks[x].status == Pending && end.tasks[x].status == Blocked))
  }

  lemma {:induction false} BatchEnd(list: seq<Id>, start: Shared, batch: seq<Id>, s: State)
    requires Inv(list, start, s) && AllFinished(s) && Consistent(list, start.tasks)
    requires |s.workers| == |batch| && forall i :: 0 <= i < |batch| ==> s.workers[i].task == batch[i]
    ensures BatchDone(list, start, batch, s.shared)
  {
    BatchOutcome(list, start, s);
    forall x | x in batch ensures x in start.tasks && Executed(start, s.shared, x) {
      var i :| 0 <= i < |batch| && batch[i] == x;
      WorkerEnd(list, start, s, i);
    }
    forall x | x !in batch ensures Untouched(start, s.shared, x) {
      assert forall i :: 0 <= i < |s.workers| ==> s.workers[i].task != x;
    }
    forall x | x in start.tasks && x !in batch
      ensures s.shared.tasks[x].status == start.tasks[x].status || (start.tasks[x].status == Pending && s.shared.tasks[x].status == Blocked)
    {
      BystanderEnd(list, start, s, x);
    }
  }

  lemma {:induction false} WorkerEnd(list: seq<Id>, start: Shared, s: State, i: nat)
    requires Inv(list, start, s) && AllFinished(s) && i < |s.workers|
    ensures s.workers[i].task in start.tasks && s.workers[i].task in s.shared.tasks
    ensures Executed(start, s.shared, s.workers[i].task)
  {
    var w := s.workers[i];
    assert WorkerOk(list, start.tasks, s.shared.tasks, w) && ControlOk(w);
    forall j | 0 <= j < |s.workers| && s.workers[j].task == w.task ensures j == i {}
  }

  lemma {:induction false} BystanderEnd(list: seq<Id>, start: Shared, s: State, x: Id)
    requires Inv(list, start, s) && AllFinished(s) && x in start.tasks
    requires forall i :: 0 <= i < |s.workers| ==> s.workers[i].task != x
    ensures s.shared.tasks[x].status == start.tasks[x].status || (start.tasks[x].status == Pending && s.shared.tasks[x].status == Blocked)
  {
    if s.shared.tasks[x].status != start.tasks[x].status {
      assert Explained(s, x);
      var i :| 0 <= i < |s.workers| && x in s.workers[i].marked;
      assert WorkerOk(list, start.tasks, s.shared.tasks, s.workers[i]);
    }
  }

  // ---- The task queue -------------------------------------------------------------------------------

  /** The answer of get_session_status. */
  datatype Counts = Counts(total: nat, pending: nat, running: nat, complete: nat, failed: nat, blocked: nat, tasks: seq<Entry>)

  /** The records of the list, in order, those that are stored. */
  function AllTasks(list: seq<Id>, tasks: Store): seq<Entry> {
    if list == [] then []
    else
      var before, x := AllTasks(list[..|list| - 1], tasks), list[|list| - 1];
      if x in tasks then before + [Entry(x, tasks[x])] else before
  }

  function CountStatus(list: seq<Id>, tasks: Store, st: Status): nat {
    if list == [] then 0
    else
      var x := list[|list| - 1];
      CountStatus(list[..|list| - 1], tasks, st) + if x in tasks && tasks[x].status == st then 1 else 0
  }

  function WithStatus(list: seq<Id>, tasks: Store, st: Status): set<Id> {
    set x | x in list && x in tasks && tasks[x].status == st
  }

  /** Of a list without repetitions the counts are numbers of tasks. */
  lemma {:induction false} CountStatusMeaning(list: seq<Id>, tasks: Store, st: Status)
    requires Distinct(list)
    ensures CountStatus(list, tasks, st) == |WithStatus(list, tasks, st)|
  {
    if list != [] {
      var init, last := list[..|list| - 1], list[|list| - 1];
      CountStatusMeaning(init, tasks, st);
      WithStatusNext(init, last, tasks, st);
      assert list == init + [last] && last !in init;
    }
  }

  lemma {:induction false} WithStatusNext(init: seq<Id>, last: Id, tasks: Store, st: Status)
    ensures WithStatus(init + [last], tasks, st) ==
      if last in tasks && tasks[last].status == st then WithStatus(init, tasks, st) + {last} else WithStatus(init, tasks, st)
    ensures last in WithStatus(init, tasks, st) ==> last in init
  {
  }

  /** If all of them are stored the answer has the tasks of the list in order. */
  lemma {:induction false} AllTasksMeaning(list: seq<Id>, tasks: Store)
    requires forall x :: x in list ==> x in tasks
    ensures AllTasks(list, tasks) == seq(|list|, k requires 0 <= k < |list| => assert list[k] in list; Entry(list[k], tasks[list[k]]))
  {
    if list != [] {
      assert list == list[..|list| - 1] + [list[|list| - 1]];
      AllTasksMeaning(list[..|list| - 1], tasks);
    }
  }

  lemma {:induction false} CountStatusZero(list: seq<Id>, tasks: Store, st: Status)
    ensures CountStatus(list, tasks, st) == 0 <==> forall x :: x in list && x in tasks ==> tasks[x].status != st
  {
    if list != [] {
      CountStatusZero(list[..|list| - 1], tasks, st);
      assert list == list[..|list| - 1] + [list[|list| - 1]];
    }
  }

  /** Consistency between calls: every stored task is listed, once. */
  ghost predicate WellStored(list: seq<Id>, tasks: Store) {
    Distinct(list) && forall x :: x in list <==> x in tasks
  }

  /** A plan that has just been loaded. */
  ghost predicate Fresh(plan: seq<Task>, list: seq<Id>, tasks: Store) {
    && list == Ids(plan) && tasks.Keys == IdSet(plan)
    && forall t :: t in plan ==> tasks[t.id] == Record(t.deps, t.runnable, Pending)
  }

  lemma {:induction false} FreshIsConsistent(plan: seq<Task>, list: seq<Id>, tasks: Store)
    requires Acceptable(plan) && Fresh(plan, list, tasks)
    ensures Consistent(list, tasks) && Acyclic(tasks) && WellStored(list, tasks)
    ensures forall x :: x in tasks ==> tasks[x].status == Pending
  {
    TopologicalListed(plan);
    IdsElements(plan);
    forall x | x in tasks ensures exists t :: t in plan && t.id == x && tasks[x] == Record(t.deps, t.runnable, Pending) {
      var t :| t in plan && t.id == x;
    }
    assert forall x :: x in list <==> x in Elements(list);
    var order :| TopologicalOrder(order, plan);
    forall k, d | 0 <= k < |order| && order[k] in tasks && d in tasks[order[k]].deps ensures d in Elements(order[..k]) {
      var t :| t in plan && t.id == order[k] && tasks[order[k]] == Record(t.deps, t.runnable, Pending);
      assert d in order[..k];
    }
    assert StoreOrder(order, tasks);
  }

  lemma {:induction false} NextId(plan: seq<Task>, i: nat)
    requires Distinct(Ids(plan)) && i < |plan|
    ensures IdSet(plan[..i + 1]) == IdSet(plan[..i]) + {plan[i].id}
    ensures Ids(plan)[..i + 1] == Ids(plan)[..i] + [plan[i].id]
    ensures forall j :: 0 <= j < i ==> plan[j].id != plan[i].id
  {
    assert plan[..i + 1] == plan[..i] + [plan[i]];
    forall j | 0 <= j < i ensures plan[j].id != plan[i].id { assert Ids(plan)[j] != Ids(plan)[i]; }
  }

  class TaskQueue {
    var list: seq<Id>       // tasklist:{session}
    var tasks: Store        // tasks:{session}:{id}
    var leases: set<Id>     // task:{session}:{id}:lease
    var spawned: seq<Id>    // the tasks agents were run for, in order
    var ended: map<Id, Outcome>   // how the last agent of each task ended

    /** Clears the old plan before it validates the new one; a rejected plan leaves nothing behind. */
    method LoadPlan(plan: seq<Task>) returns (v: Verdict)
      requires WellStored(list, tasks)
      modifies this`list, this`tasks, this`leases
      ensures v.Accepted? <==> Acceptable(plan)
      ensures v.MissingDep? <==> !AllListed(plan)
      ensures leases == old(leases) - Elements(old(list))
      ensures if v.Accepted? then Fresh(plan, list, tasks) else list == [] && tasks == map[]
    {
      Clear();
      v := ValidateDag(plan);
      if v.Accepted? { StoreAll(plan); }
    }

    method Clear()
      requires WellStored(list, tasks)
      modifies this`list, this`tasks, this`leases
      ensures leases == old(leases) - Elements(old(list)) && list == [] && tasks == map[]
    {
      for i := 0 to |list|
        invariant list == old(list)
        invariant tasks.Keys == old(tasks).Keys - Elements(list[..i])
        invariant leases == old(leases) - Elements(list[..i])
      {
        assert list[..i + 1] == list[..i] + [list[i]];
        tasks := tasks - {list[i]};
        leases := leases - {list[i]};
      }
      assert list[..|list|] == list;
      assert tasks.Keys == {};
      list := [];
    }

    method StoreAll(plan: seq<Task>)
      requires Distinct(Ids(plan)) && list == [] && tasks == map[]
      modifies this`list, this`tasks
      ensures Fresh(plan, list, tasks)
    {
      for i := 0 to |plan|
        invariant list == Ids(plan)[..i]
        invariant tasks.Keys == IdSet(plan[..i])
        invariant forall j :: 0 <= j < i ==> tasks[plan[j].id] == Record(plan[j].deps, plan[j].runnable, Pending)
      {
        NextId(plan, i);
        tasks := tasks[plan[i].id := Record(plan[i].deps, plan[i].runnable, Pending)];
        list := list + [plan[i].id];
      }
      assert plan[..|plan|] == plan && Ids(plan)[..|plan|] == Ids(plan);
    }

    method GetReadyTasks() returns (ready: seq<Id>)
      ensures ready == ReadyIn(list, tasks)
    {
      ready := [];
      for i := 0 to |list|
        invariant ready == ReadyIn(list[..i], tasks)
      {
        assert list[..i + 1][..i] == list[..i];
        if IsReady(tasks, list[i]) { ready := ready + [list[i]]; }
      }
      assert list[..|list|] == list;
    }

    /** get_session_status: one pass over the list. */
    method GetSessionStatus() returns (c: Counts)
      ensures c.pending == CountStatus(list, tasks, Pending) && c.running == CountStatus(list, tasks, Running)
      ensures c.complete == CountStatus(list, tasks, Complete) && c.failed == CountStatus(list, tasks, Failed)
      ensures c.blocked == CountStatus(list, tasks, Blocked)
      ensures c.tasks == AllTasks(list, tasks)
      ensures c.total == |c.tasks| == c.pending + c.running + c.complete + c.failed + c.blocked
    {
      c := Counts(0, 0, 0, 0, 0, 0, []);
      for i := 0 to |list|
        invariant c.pending == CountStatus(list[..i], tasks, Pending) && c.running == CountStatus(list[..i], tasks, Running)
        invariant c.complete == CountStatus(list[..i], tasks, Complete) && c.failed == CountStatus(list[..i], tasks, Failed)
        invariant c.blocked == CountStatus(list[..i], tasks, Blocked)
        invariant c.tasks == AllTasks(list[..i], tasks)
        invariant c.total == |c.tasks| == c.pending + c.running + c.complete + c.failed + c.blocked
      {
        assert list[..i + 1][..i] == list[..i];
        if list[i] in tasks {
          c := c.(total := c.total + 1, tasks := c.tasks + [Entry(list[i], tasks[list[i]])]);
          match tasks[list[i]].status
          case Pending => c := c.(pending := c.pending + 1);
          case Running => c := c.(running := c.running + 1);
          case Complete => c := c.(complete := c.complete + 1);
          case Failed => c := c.(failed := c.failed + 1);
          case Blocked => c := c.(blocked := c.blocked + 1);
        }
      }
      assert list[..|list|] == list;
    }

    /** The `update_status(..., "running")` calls before the gather. */
    method MarkRunning(batch: seq<Id>)
      requires Consistent(list, tasks) && Distinct(batch) && forall x :: x in batch ==> IsReady(tasks, x)
      modifies this`tasks
      ensures Consistent(list, tasks) && SameShape(old(tasks), tasks)
      ensures forall x :: x in tasks ==> tasks[x].status == if x in batch then Running else old(tasks)[x].status
    {
      for i := 0 to |batch|
        invariant SameShape(old(tasks), tasks)
        invariant forall x :: x in tasks ==> tasks[x].status == if x in batch[..i] then Running else old(tasks)[x].status
      {
        assert batch[..i + 1] == batch[..i] + [batch[i]];
        assert batch[i] in batch;
        tasks := tasks[batch[i] := tasks[batch[i]].(status := Running)];
      }
      assert batch[..|batch|] == batch;
      ReadyMayRun(list, old(tasks), tasks, batch);
    }

    /** Runs batches of at most `maxParallel` ready tasks until nothing is ready. Nothing is assumed
        about how agents end, in what order coroutines run, or which of the foreign leases other workers
        take and release meanwhile. */
    method ExecutePlan(maxParallel: nat, foreign: set<Id>) returns (executed: seq<Id>, counts: Counts, ghost turns: seq<Turn>)
      requires maxParallel >= 1
      requires WellStored(list, tasks) && Consistent(list, tasks) && Acyclic(tasks)
      modifies this`tasks, this`leases, this`spawned, this`ended
      ensures Consistent(list, tasks) && SameShape(old(tasks), tasks)
      ensures Progressed(old(Shared(tasks, leases, spawned, ended, foreign)), Shared(tasks, leases, spawned, ended, foreign), executed)
      ensures forall x :: x in tasks && tasks[x].status == Pending ==> NeedsRunning(tasks, x)
      ensures forall x :: x in tasks ==> (tasks[x].status == Blocked <==> HasCause(tasks, x))
      ensures TurnsOk(list, maxParallel, old(Shared(tasks, leases, spawned, ended, foreign)), Shared(tasks, leases, spawned, ended, foreign), turns)
      ensures executed == Batches(turns) && ReadyIn(list, tasks) == []
      ensures counts.pending == CountStatus(list, tasks, Pending) && counts.running == CountStatus(list, tasks, Running)
      ensures counts.complete == CountStatus(list, tasks, Complete) && counts.failed == CountStatus(list, tasks, Failed)
      ensures counts.blocked == CountStatus(list, tasks, Blocked)
    {
      ghost var before := tasks;
      executed, turns := RunRounds(maxParallel, foreign);
      PlanOver(list, before, tasks);
      counts := GetSessionStatus();
    }

    /** The loop of execute_plan. */
    method RunRounds(maxParallel: nat, foreign: set<Id>) returns (executed: seq<Id>, ghost turns: seq<Turn>)
      requires maxParallel >= 1 && WellStored(list, tasks) && Consistent(list, tasks)
      modifies this`tasks, this`leases, this`spawned, this`ended
      ensures Consistent(list, tasks) && ReadyIn(list, tasks) == []
      ensures Advanced(list, maxParallel, old(Shared(tasks, leases, spawned, ended, foreign)), Shared(tasks, leases, spawned, ended, foreign), turns, executed)
    {
      ghost var start := Shared(tasks, leases, spawned, ended, foreign);
      executed, turns := [], [];
      while true
        invariant WellStored(list, tasks) && Consistent(list, tasks)
        invariant Advanced(list, maxParallel, start, Shared(tasks, leases, spawned, ended, foreign), turns, executed)
        decreases PendingIn(tasks)
      {
        var ready := GetReadyTasks();
        ReadyInMeaning(list, tasks);
        if ready == [] { break; }
        var batch := if |ready| <= maxParallel then ready else ready[..maxParallel];
        ghost var before := Shared(tasks, leases, spawned, ended, foreign);
        ghost var begun := RunRound(batch, foreign);
        ghost var now := Shared(tasks, leases, spawned, ended, foreign);
        TurnAdvances(list, maxParallel, start, turns, Turn(before, begun, now, batch), executed);
        RoundShrinks(before, begun, now, batch);
        turns := turns + [Turn(before, begun, now, batch)];
        executed := executed + batch;
      }
    }

    /** Loading a plan and executing it. If no other worker holds or takes a lease on one of its tasks, every
        task ends complete, failed or blocked: blocked exactly when it needs a failed one, and every
        other task has had exactly one agent run, or none when its record cannot be run. */
    method LoadAndExecute(plan: seq<Task>, maxParallel: nat, foreign: set<Id>) returns (v: Verdict, executed: seq<Id>, counts: Counts)
      requires maxParallel >= 1 && WellStored(list, tasks)
      modifies this
      ensures v.Accepted? <==> Acceptable(plan)
      ensures v.Accepted? ==> tasks.Keys == IdSet(plan)
      ensures !v.Accepted? ==> executed == [] && list == [] && tasks == map[] && spawned == old(spawned)
      ensures v.Accepted? && (forall x :: x in IdSet(plan) ==> x !in foreign && x !in old(leases) - Elements(old(list))) ==>
        && counts.pending == 0 && counts.running == 0
        && (forall x :: x in tasks ==> (tasks[x].status == Blocked <==> HasCause(tasks, x)))
        && (forall x :: x in tasks ==> EndedOnce(old(spawned), Shared(tasks, leases, spawned, ended, foreign), executed, x))
    {
      executed, counts := [], Counts(0, 0, 0, 0, 0, 0, []);
      v := LoadPlan(plan);
      if !v.Accepted? { return; }
      FreshIsConsistent(plan, list, tasks);
      ghost var start := Shared(tasks, leases, spawned, ended, foreign);
      ghost var turns;
      executed, counts, turns := ExecutePlan(maxParallel, foreign);
      if forall x :: x in start.tasks ==> x !in start.foreign && x !in start.leases {
        AllSettled(start, Shared(tasks, leases, spawned, ended, foreign), executed);
        CountStatusZero(list, tasks, Pending);
        CountStatusZero(list, tasks, Running);
      }
    }

    /** One turn of the loop of execute_plan. */
    method RunRound(batch: seq<Id>, foreign: set<Id>) returns (ghost begun: Shared)
      requires Consistent(list, tasks)
      requires Distinct(batch) && forall x :: x in batch ==> IsReady(tasks, x)
      modifies this`tasks, this`leases, this`spawned, this`ended
      ensures Consistent(list, tasks)
      ensures Round(old(Shared(tasks, leases, spawned, ended, foreign)), begun, Shared(tasks, leases, spawned, ended, foreign), batch)
    {
      ghost var before := Shared(tasks, leases, spawned, ended, foreign);
      MarkRunning(batch);
      var now := Shared(tasks, leases, spawned, ended, foreign);
      var end := RunBatch(list, now, batch);
      RoundDone(list, before, now, end, batch);
      tasks, leases, spawned, ended, begun := end.tasks, end.leases, end.spawned, end.ended, now;
    }
  }

  /** The tasks that are still pending; the measure of execute_plan. */
  function PendingIn(tasks: Store): set<Id> {
    set x | x in tasks && tasks[x].status == Pending
  }

  function FirstOf(s: seq<Id>, n: nat): seq<Id> { if |s| <= n then s else s[..n] }

  /** One turn of the loop: the state before it, with the batch marked running, and after it. */
  datatype Turn = Turn(before: Shared, begun: Shared, end: Shared, batch: seq<Id>)

  /** Turn after turn from `start` to `now`, each with the first `maxParallel` tasks that were ready. */
  ghost predicate TurnsOk(list: seq<Id>, maxParallel: nat, start: Shared, now: Shared, turns: seq<Turn>)
    decreases |turns|
  {
    if turns == [] then now == start
    else
      var t := turns[|turns| - 1];
      && TurnsOk(list, maxParallel, start, t.before, turns[..|turns| - 1])
      && t.batch == FirstOf(ReadyIn(list, t.before.tasks), maxParallel) && t.batch != []
      && Round(t.before, t.begun, t.end, t.batch) && t.end == now
  }

  function Batches(turns: seq<Turn>): seq<Id> {
    if turns == [] then [] else Batches(turns[..|turns| - 1]) + turns[|turns| - 1].batch
  }

  ghost predicate Advanced(list: seq<Id>, maxParallel: nat, start: Shared, now: Shared, turns: seq<Turn>, executed: seq<Id>) {
    SameShape(start.tasks, now.tasks) && Progressed(start, now, executed) && TurnsOk(list, maxParallel, start, now, turns) && executed == Batches(turns)
  }

  lemma {:induction false} TurnAdvances(list: seq<Id>, maxParallel: nat, start: Shared, turns: seq<Turn>, t: Turn, executed: seq<Id>)
    requires Advanced(list, maxParallel, start, t.before, turns, executed) && t.batch != []
    requires t.batch == FirstOf(ReadyIn(list, t.before.tasks), maxParallel) && Round(t.before, t.begun, t.end, t.batch)
    ensures Advanced(list, maxParallel, start, t.end, turns + [t], executed + t.batch)
  {
    assert Progressed(start, t.end, executed + t.batch) by { RoundProgress(start, t.before, t.begun, t.end, executed, t.batch); }
    assert SameShape(start.tasks, t.end.tasks) by { RoundShape(start.tasks, t); }
    TurnsNext(list, maxParallel, start, turns, t);
  }

  lemma {:induction false} RoundShape(tasks: Store, t: Turn)
    requires SameShape(tasks, t.before.tasks) && SameShape(t.before.tasks, t.begun.tasks) && SameShape(t.begun.tasks, t.end.tasks)
    ensures SameShape(tasks, t.end.tasks)
  {
  }

  lemma {:induction false} TurnsNext(list: seq<Id>, maxParallel: nat, start: Shared, turns: seq<Turn>, t: Turn)
    requires TurnsOk(list, maxParallel, start, t.before, turns) && t.batch != []
    requires t.batch == FirstOf(ReadyIn(list, t.before.tasks), maxParallel) && Round(t.before, t.begun, t.end, t.batch)
    ensures TurnsOk(list, maxParallel, start, t.end, turns + [t]) && Batches(turns + [t]) == Batches(turns) + t.batch
  {
    assert (turns + [t])[..|turns|] == turns && (turns + [t])[|turns|] == t;
  }

  /** How far a call of execute_plan has come since `start`: `executed` are the tasks it has taken out
      of pending, each once and with its outcome; the others are as they were, or newly blocked. */
  ghost predicate Progressed(start: Shared, now: Shared, executed: seq<Id>) {
    && start.tasks.Keys == now.tasks.Keys && Distinct(executed) && now.foreign == start.foreign
    && (forall x :: x in executed ==> x in start.tasks && start.tasks[x].status == Pending && Executed(start, now, x))
    && (forall x :: x !in executed ==> Untouched(start, now, x))
    && (forall x :: x in start.tasks && x !in executed ==>
          now.tasks[x].status == start.tasks[x].status || (start.tasks[x].status == Pending && now.tasks[x].status == Blocked))
  }

  /** A task of a finished plan: complete or failed after its one agent run, or blocked without any. One
      with an unusable record has failed without a run, and keeps its lease. */
  ghost predicate EndedOnce(spawnedBefore: seq<Id>, now: Shared, executed: seq<Id>, x: Id)
    requires x in now.tasks
  {
    var task := now.tasks[x];
    && (task.status == Complete || task.status == Failed || task.status == Blocked)
    && (x in executed <==> task.status == Complete || task.status == Failed)
    && Count(now.spawned, x) - Count(spawnedBefore, x) == (if x in executed && task.runnable then 1 else 0)
    && (task.status == Complete <==> x in executed && task.runnable && x in now.ended && now.ended[x] == Succeeded)
    && (task.status == Failed <==> x in executed && (!task.runnable || (x in now.ended && now.ended[x] != Succeeded)))
    && (x in now.leases <==> x in executed && !task.runnable)
  }

  /** Without foreign leases nothing is left running, and so nothing is left waiting. */
  lemma {:induction false} AllSettled(start: Shared, now: Shared, executed: seq<Id>)
    requires Progressed(start, now, executed) && SameShape(start.tasks, now.tasks)
    requires forall x :: x in start.tasks ==> start.tasks[x].status == Pending && x !in start.leases && x !in start.foreign
    requires forall x :: x in now.tasks && now.tasks[x].status == Pending ==> NeedsRunning(now.tasks, x)
    ensures forall x :: x in now.tasks ==> EndedOnce(start.spawned, now, executed, x) && now.tasks[x].status != Pending && now.tasks[x].status != Running
  {
    forall x | x in now.tasks ensures now.tasks[x].status != Running {
      if x in executed { assert Executed(start, now, x); }
    }
    forall x | x in now.tasks ensures EndedOnce(start.spawned, now, executed, x) {
      if x in executed { assert Executed(start, now, x); } else { assert Untouched(start, now, x); }
    }
  }

  lemma {:induction false} ExecutedNow(start: Shared, before: Shared, begun: Shared, end: Shared, x: Id)
    requires before.foreign == start.foreign && Untouched(start, before, x) && begun.leases == before.leases && begun.spawned == before.spawned && begun.ended == before.ended && begun.foreign == before.foreign
    requires x in start.tasks && x in begun.tasks && x in end.tasks && begun.tasks[x].runnable == start.tasks[x].runnable
    requires Executed(begun, end, x)
    ensures Executed(start, end, x)
  {}

  lemma {:induction false} ExecutedBefore(start: Shared, before: Shared, begun: Shared, end: Shared, x: Id)
    requires begun.foreign == start.foreign
    requires begun.leases == before.leases && begun.spawned == before.spawned && begun.ended == before.ended && begun.foreign == before.foreign && Untouched(begun, end, x)
    requires x in start.tasks && x in before.tasks && x in end.tasks && before.tasks[x].status == end.tasks[x].status
    requires Executed(start, before, x)
    ensures Executed(start, end, x)
  {}

  /** `batch` has been run on top of `before`. */
  ghost predicate Round(before: Shared, begun: Shared, end: Shared, batch: seq<Id>) {
    && Distinct(batch) && begun.leases == before.leases && begun.spawned == before.spawned && begun.ended == before.ended && begun.foreign == before.foreign
    && SameShape(before.tasks, begun.tasks) && SameShape(begun.tasks, end.tasks) && end.foreign == before.foreign
    && (forall x :: x in batch ==> x in before.tasks && before.tasks[x].status == Pending && x in begun.tasks && Executed(begun, end, x))
    && (forall x :: x !in batch ==> Untouched(begun, end, x))
    && (forall x :: x in before.tasks && x !in batch ==>
          end.tasks[x].status == before.tasks[x].status || (before.tasks[x].status == Pending && end.tasks[x].status == Blocked))
  }

  lemma {:induction false} RoundProgress(start: Shared, before: Shared, begun: Shared, end: Shared, executed: seq<Id>, batch: seq<Id>)
    requires Progressed(start, before, executed) && SameShape(start.tasks, before.tasks) && Round(before, begun, end, batch)
    ensures Progressed(start, end, executed + batch)
  {
    assert forall x :: x in executed + batch <==> x in executed || x in batch;
    forall x | x in executed ensures x !in batch { assert Executed(start, before, x); }
    DistinctAppend(executed, batch);
    forall x | x in batch ensures x !in executed && x in start.tasks && start.tasks[x].status == Pending && Executed(start, end, x) {
      ExecutedNow(start, before, begun, end, x);
    }
    forall x | x in executed ensures x in start.tasks && start.tasks[x].status == Pending && Executed(start, end, x) {
      assert x !in batch && Executed(start, before, x);
      ExecutedBefore(start, before, begun, end, x);
    }
    forall x | x !in executed + batch ensures Untouched(start, end, x) {
      assert Untouched(start, before, x) && Untouched(begun, end, x);
    }
  }

  lemma {:induction false} RoundShrinks(before: Shared, begun: Shared, end: Shared, batch: seq<Id>)
    requires Round(before, begun, end, batch) && batch != []
    ensures PendingIn(end.tasks) < PendingIn(before.tasks)
  {
    forall x | x in PendingIn(end.tasks) ensures x in PendingIn(before.tasks) {
      if x in batch { assert Executed(begun, end, x); }
    }
    assert batch[0] in batch;
    assert Executed(begun, end, batch[0]);
    assert batch[0] in PendingIn(before.tasks) && batch[0] !in PendingIn(end.tasks);
  }

  lemma {:induction false} RoundDone(list: seq<Id>, before: Shared, begun: Shared, end: Shared, batch: seq<Id>)
    requires SameShape(before.tasks, begun.tasks) && begun.leases == before.leases && begun.spawned == before.spawned && begun.ended == before.ended && begun.foreign == before.foreign
    requires Distinct(batch) && forall x :: x in batch ==> IsReady(before.tasks, x)
    requires forall x :: x in begun.tasks ==> begun.tasks[x].status == if x in batch then Running else before.tasks[x].status
    requires BatchDone(list, begun, batch, end)
    ensures Round(before, begun, end, batch)
  {}

  lemma {:induction false} ReadyMayRun(list: seq<Id>, before: Store, after: Store, batch: seq<Id>)
    requires Consistent(list, before) && SameShape(before, after) && forall x :: x in batch ==> IsReady(before, x)
    requires forall x :: x in after ==> after[x].status == if x in batch then Running else before[x].status
    ensures Consistent(list, after)
  {
    forall x, d | x in after && d in after[x].deps && Ran(after[x].status) ensures d in after && after[d].status == Complete {
      assert d in before[x].deps;
      assert before[d].status == Complete;
    }
    forall x | x in after && after[x].status == Blocked ensures HasCause(after, x) {
      assert before[x].status == Blocked;
      var f :| f in before && before[f].status == Failed && Needs(before, x, f);
      NeedsSameShape(before, after, x, f);
    }
    forall x, d | x in after && d in after[x].deps && d in after && Broken(after[d].status) ensures after[x].status == Blocked {
      assert d in before[x].deps && before[d].status == after[d].status;
    }
  }
}
