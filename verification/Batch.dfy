/** One gathered batch of execute_plan as a step system. Every `await` of _run_single_task,
    update_status and _propagate_blocked is a point where another coroutine may run, so a worker
    moves by small steps and any enabled worker may move next. */
module Batch {
  import opened Wrappers
  import opened Plans

  /** What spawn_and_run and the patch submission after it come to; the model's choice is open. */
  datatype Outcome = Succeeded | NotDone | Raised

  /** Where a worker stands. `Update`, `Write`, `Snap` and `Spread` are update_status and
      _propagate_blocked; `Gathered` is a coroutine that ended with an exception, whose task
      execute_plan fails once the whole gather is over. */
  datatype Pc =
    | Start
    | Agent
    | Update(to: Status)
    | Write(to: Status, rec: Record)
    | Snap
    | Spread
    | Release
    | Gathered
    | Finished

  datatype Entry = Entry(id: Id, rec: Record)

  /** A coroutine and its locals. `snap`, `marked`, `pos` and `changed` are those of
      _propagate_blocked. `written`, `holds`, `ran` and `got` record its history: the status it saved
      last, whether it has the lease, whether it called the agent, how the agent ended. */
  datatype Worker = Worker(
    task: Id, runnable: bool, pc: Pc, late: bool,
    snap: seq<Entry>, marked: set<Id>, pos: nat, changed: bool,
    written: Status, holds: bool, ran: bool, got: Option<Outcome>)

  /** What the coroutines share: the task records and leases in Redis, the agents run so far, and how the
      last agent of each task ended. `foreign` are the tasks whose leases workers of other processes may
      take and release. */
  datatype Shared = Shared(tasks: Store, leases: set<Id>, spawned: seq<Id>, ended: map<Id, Outcome>, foreign: set<Id>)

  datatype State = State(shared: Shared, workers: seq<Worker>)

  function NewWorker(task: Id, runnable: bool): Worker {
    Worker(task, runnable, Start, false, [], {}, 0, false, Running, false, false, None)
  }

  predicate Open(s: Status) { s == Pending || s == Running }

  predicate Hit(e: Entry, marked: set<Id>) {
    Open(e.rec.status) && e.id !in marked && exists d <- e.rec.deps :: d in marked
  }

  function AfterUpdate(w: Worker): Worker {
    w.(pc := if w.late then Finished else Release)
  }

  /** The worker's code up to its next await. */
  function Advance(list: seq<Id>, sh: Shared, w: Worker, o: Outcome): (Shared, Worker) {
    match w.pc
    case Start =>
      if w.task in sh.leases then (sh, w.(pc := Finished))
      else
        var locked := sh.(leases := sh.leases + {w.task});
        if w.runnable then (locked.(spawned := sh.spawned + [w.task]), w.(pc := Agent, holds := true, ran := true))
        else (locked, w.(pc := Gathered, late := true, holds := true))
    case Agent =>
      var told := sh.(ended := sh.ended[w.task := o]);
      if o.Succeeded? then (told, w.(pc := Update(Complete), got := Some(o)))
      else if o.NotDone? then (told, w.(pc := Update(Failed), got := Some(o)))
      else (told, w.(pc := Release, late := true, got := Some(o)))
    case Update(to) =>
      if w.task in sh.tasks then (sh, w.(pc := Write(to, sh.tasks[w.task]))) else (sh, AfterUpdate(w))
    case Write(to, rec) =>
      var saved := sh.(tasks := sh.tasks[w.task := rec.(status := to)]);
      if to == Failed then (saved, w.(pc := Snap, snap := [], pos := 0, written := to))
      else (saved, AfterUpdate(w.(written := to)))
    case Snap =>
      if w.pos >= |list| then (sh, w.(pc := Spread, marked := {w.task}, pos := 0, changed := false))
      else if list[w.pos] !in sh.tasks then (sh, w.(pos := w.pos + 1))
      else (sh, w.(snap := w.snap + [Entry(list[w.pos], sh.tasks[list[w.pos]])], pos := w.pos + 1))
    case Spread =>
      if w.pos >= |w.snap| then
        if w.changed then (sh, w.(pos := 0, changed := false)) else (sh, AfterUpdate(w))
      else
        var e := w.snap[w.pos];
        if Hit(e, w.marked) then
          var rec := e.rec.(status := Blocked);
          (sh.(tasks := sh.tasks[e.id := rec]),
           w.(snap := w.snap[w.pos := Entry(e.id, rec)], marked := w.marked + {e.id}, pos := w.pos + 1, changed := true))
        else (sh, w.(pos := w.pos + 1))
    case Release =>
      (sh.(leases := sh.leases - {w.task}), w.(pc := if w.late then Gathered else Finished, holds := false))
    case Gathered => (sh, w.(pc := Update(Failed)))
    case Finished => (sh, w)
  }

  /** gather has collected every result. */
  predicate GatherOver(s: State) {
    forall j :: 0 <= j < |s.workers| ==> s.workers[j].pc.Finished? || (s.workers[j].late && !s.workers[j].pc.Release?)
  }

  /** A worker may move until it has finished; the tasks that raised are failed after the gather, in batch order. */
  predicate Enabled(s: State, i: nat) {
    && i < |s.workers| && !s.workers[i].pc.Finished?
    && (s.workers[i].pc.Gathered? ==> GatherOver(s) && forall j :: 0 <= j < i ==> s.workers[j].pc.Finished?)
  }

  function Step(list: seq<Id>, s: State, i: nat, o: Outcome): State
    requires i < |s.workers|
  {
    var (sh, w) := Advance(list, s.shared, s.workers[i], o);
    State(sh, s.workers[i := w])
  }

  /** The tasks whose leases these workers hold. */
  function HeldTasks(workers: seq<Worker>): set<Id> {
    if workers == [] then {}
    else HeldTasks(workers[..|workers| - 1]) + if workers[|workers| - 1].holds then {workers[|workers| - 1].task} else {}
  }

  lemma {:induction false} HeldTasksMeaning(workers: seq<Worker>)
    ensures forall x :: x in HeldTasks(workers) <==> exists i :: 0 <= i < |workers| && workers[i].holds && workers[i].task == x
  {
    if workers != [] { HeldTasksMeaning(workers[..|workers| - 1]); }
  }

  /** Workers of other processes take and release leases, until of the foreign tasks those in `taken` are
      leased, and those whose leases are held here. */
  function Disturbed(s: State, taken: set<Id>): State {
    s.(shared := s.shared.(leases := (s.shared.leases - s.shared.foreign) + (taken * s.shared.foreign) + HeldTasks(s.workers)))
  }

  ghost predicate Next(list: seq<Id>, s: State, s': State) {
    (exists i, o :: Enabled(s, i) && s' == Step(list, s, i, o)) || exists taken :: s' == Disturbed(s, taken)
  }

  predicate AllFinished(s: State) {
    forall i :: 0 <= i < |s.workers| ==> s.workers[i].pc.Finished?
  }

  // ---- What holds of the records between batches -------------------------------------------

  predicate Ran(s: Status) { s == Running || s == Complete || s == Failed }

  predicate Broken(s: Status) { s == Failed || s == Blocked }

  /** A task that runs or ran has all of its dependencies complete. */
  ghost predicate RanOk(tasks: Store) {
    forall x, d :: x in tasks && d in tasks[x].deps && Ran(tasks[x].status) ==> d in tasks && tasks[d].status == Complete
  }

  /** Whatever depends on a failed or blocked task is blocked. */
  ghost predicate Closed(tasks: Store) {
    forall x, d :: x in tasks && d in tasks[x].deps && d in tasks && Broken(tasks[d].status) ==> tasks[x].status == Blocked
  }

  ghost predicate HasCause(tasks: Store, x: Id) {
    exists f :: f in tasks && tasks[f].status == Failed && Needs(tasks, x, f)
  }

  /** Every blocked task needs one that failed. */
  ghost predicate Caused(tasks: Store) {
    forall x :: x in tasks && tasks[x].status == Blocked ==> HasCause(tasks, x)
  }

  ghost predicate Listed(list: seq<Id>, tasks: Store) {
    && (forall x :: x in list <==> x in tasks)
    && (forall x, d :: x in tasks && d in tasks[x].deps ==> d in tasks)
  }

  ghost predicate Consistent(list: seq<Id>, tasks: Store) {
    Listed(list, tasks) && RanOk(tasks) && Closed(tasks) && Caused(tasks)
  }

  // ---- The invariant of a batch ------------------------------------------------------------

  /** How the status of a record may have moved since the batch began. */
  predicate Evolved(before: Status, now: Status) {
    match before
    case Pending => now == Pending || now == Blocked
    case Running => Ran(now)
    case _ => now == before
  }

  /** The control state of one worker on its own. */
  predicate ControlOk(w: Worker) {
    && Ran(w.written)
    && (w.ran ==> w.runnable)
    && (w.written != Running ==> w.ran == w.runnable)
    && (w.written == Complete ==> w.ran && !w.late)
    && (w.late && !w.pc.Release? ==> w.holds == !w.runnable && w.ran == w.runnable)
    && match w.pc
       case Start => w.written == Running && !w.late && !w.ran && !w.holds && w.marked == {}
       case Agent => w.written == Running && !w.late && w.ran && w.holds && w.marked == {}
       case Update(to) => w.written == Running && (to == Failed || (to == Complete && !w.late)) && w.marked == {} && (!w.late ==> w.ran && w.holds)
       case Write(to, _) => w.written == Running && (to == Failed || (to == Complete && !w.late)) && w.marked == {} && (!w.late ==> w.ran && w.holds)
       case Snap => w.written == Failed && w.marked == {} && (!w.late ==> w.ran && w.holds)
       case Spread => w.written == Failed && (!w.late ==> w.ran && w.holds)
       case Release => w.ran && w.holds && (if w.late then w.written == Running && w.marked == {} else w.written != Running)
       case Gathered => w.late && w.written == Running && w.marked == {}
       case Finished => if w.written == Running then !w.ran && !w.holds && !w.late && w.marked == {} else w.holds == !w.runnable
  }

  /** A snapshot entry is a past state of its record. */
  predicate EntryOk(base: Store, tasks: Store, e: Entry) {
    && e.id in base && e.id in tasks
    && e.rec.deps == base[e.id].deps && e.rec.runnable == base[e.id].runnable
    && (e.rec.status == Pending ==> base[e.id].status == Pending)
    && (e.rec.status == Running ==> base[e.id].status == Running)
    && (e.rec.status == Blocked ==> tasks[e.id].status == Blocked)
    && (e.rec.status == Complete || e.rec.status == Failed ==> Ran(base[e.id].status))
  }

  predicate InPropagation(w: Worker) { w.pc.Snap? || w.pc.Spread? || Propagated(w) }

  predicate Propagated(w: Worker) { w.written == Failed && (w.pc.Release? || w.pc.Finished?) }

  /** The snapshot a worker has taken, or has taken so far. */
  ghost predicate SnapOk(list: seq<Id>, base: Store, tasks: Store, w: Worker) {
    && (w.pc.Snap? ==> |w.snap| == w.pos <= |list|)
    && (w.pc.Spread? || Propagated(w) ==> |w.snap| == |list|)
    && (w.pc.Spread? ==> w.pos <= |w.snap|)
    && (InPropagation(w) ==> |w.snap| <= |list| && forall k :: 0 <= k < |w.snap| ==> w.snap[k].id == list[k] && EntryOk(base, tasks, w.snap[k]))
  }

  /** What a worker has marked: its failed task, and pending tasks that need it, by now blocked. */
  ghost predicate MarkedOk(base: Store, tasks: Store, w: Worker) {
    && (w.pc.Spread? || Propagated(w) ==> w.task in w.marked)
    && (w.marked != {} ==> w.pc.Spread? || Propagated(w))
    && forall x :: x in w.marked && x != w.task ==>
         x in base && x in tasks && base[x].status == Pending && tasks[x].status == Blocked && Needs(base, x, w.task)
  }

  /** Nothing before `upto` in the snapshot is left to mark. */
  predicate NoHits(w: Worker, upto: nat)
    requires upto <= |w.snap|
  {
    forall k :: 0 <= k < upto ==> !Hit(w.snap[k], w.marked)
  }

  ghost predicate PassOk(w: Worker) {
    && (w.pc.Spread? && !w.changed ==> w.pos <= |w.snap| && NoHits(w, w.pos))
    && (Propagated(w) ==> NoHits(w, |w.snap|))
  }

  ghost predicate WorkerOk(list: seq<Id>, base: Store, tasks: Store, w: Worker) {
    && ControlOk(w)
    && w.task in base && base[w.task].status == Running && w.runnable == base[w.task].runnable
    && w.task in tasks && tasks[w.task].status == w.written
    && (w.pc.Write? ==> w.pc.rec == tasks[w.task])
    && SnapOk(list, base, tasks, w)
    && MarkedOk(base, tasks, w)
    && PassOk(w)
  }

  /** The records as a whole, against those the batch began with. */
  ghost predicate RecordsOk(base: Store, s: State) {
    && Tracks(base, s.shared.tasks)
    && (forall x :: x in base && s.shared.tasks[x].status != base[x].status ==> Explained(s, x))
  }

  /** The records are those of `base`, moved on. */
  ghost predicate Tracks(base: Store, tasks: Store) {
    SameShape(base, tasks) && forall x :: x in base ==> Evolved(base[x].status, tasks[x].status)
  }

  /** Some worker runs task `x` or has marked it. */
  ghost predicate Explained(s: State, x: Id) {
    exists i :: 0 <= i < |s.workers| && (s.workers[i].task == x || x in s.workers[i].marked)
  }

  /** Leases and agent runs, against those the batch began with. */
  ghost predicate LeasesOk(start: Shared, s: State) {
    && s.shared.foreign == start.foreign
    && (forall x :: x !in start.foreign ==>
          (x in s.shared.leases <==> x in start.leases || exists i :: 0 <= i < |s.workers| && s.workers[i].task == x && s.workers[i].holds))
    && (forall i :: 0 <= i < |s.workers| && s.workers[i].task !in start.foreign ==>
          && (s.workers[i].holds || s.workers[i].ran ==> s.workers[i].task !in start.leases)
          && (Skipped(s.workers[i]) ==> s.workers[i].task in start.leases))
  }

  ghost predicate RunsOk(start: Shared, s: State) {
    && (forall i :: 0 <= i < |s.workers| ==>
          Count(s.shared.spawned, s.workers[i].task) == Count(start.spawned, s.workers[i].task) + if s.workers[i].ran then 1 else 0)
    && (forall x :: (forall i :: 0 <= i < |s.workers| ==> s.workers[i].task != x) ==> Count(s.shared.spawned, x) == Count(start.spawned, x))
  }

  /** A worker's status, and the one it is about to save, are those its agent's end calls for. */
  predicate OutcomeOk(w: Worker) {
    && (w.got.Some? ==> w.ran && !w.pc.Agent?)
    && (w.ran && !w.pc.Agent? ==> w.got.Some?)
    && (w.pc.Update? && w.ran ==> (w.pc.to == Complete <==> w.got == Some(Succeeded)))
    && (w.pc.Write? && w.ran ==> (w.pc.to == Complete <==> w.got == Some(Succeeded)))
    && (w.written == Complete ==> w.got == Some(Succeeded))
    && (w.written == Failed ==> w.got != Some(Succeeded))
    && (w.late ==> w.got != Some(Succeeded))
  }

  /** The outcomes of the batch are recorded, those of other tasks are as they were. */
  ghost predicate EndedOk(start: Shared, s: State) {
    && (forall i :: 0 <= i < |s.workers| ==> OutcomeOk(s.workers[i]))
    && (forall i :: 0 <= i < |s.workers| && s.workers[i].got.Some? ==>
          s.workers[i].task in s.shared.ended && s.shared.ended[s.workers[i].task] == s.workers[i].got.value)
    && (forall x :: (forall i :: 0 <= i < |s.workers| ==> s.workers[i].task != x) ==> SameEnd(start, s.shared, x))
  }

  predicate SameEnd(a: Shared, b: Shared, x: Id) {
    (x in a.ended <==> x in b.ended) && (x in a.ended ==> a.ended[x] == b.ended[x])
  }

  ghost predicate Apart(s: State) {
    forall i, j :: 0 <= i < j < |s.workers| ==> s.workers[i].task != s.workers[j].task
  }

  ghost predicate Inv(list: seq<Id>, start: Shared, s: State) {
    && Apart(s)
    && (forall i :: 0 <= i < |s.workers| ==> WorkerOk(list, start.tasks, s.shared.tasks, s.workers[i]))
    && RecordsOk(start.tasks, s)
    && LeasesOk(start, s)
    && RunsOk(start, s)
    && EndedOk(start, s)
  }

  // ---- One step keeps it -----------------------------------------------------------------------

  /** All a step does to the records other than task `t`: block some that were pending. */
  ghost predicate OnlyBlocks(base: Store, before: Store, after: Store, t: Id) {
    && SameShape(before, after)
    && forall x :: x in before && x != t ==>
         before[x] == after[x] || (x in base && base[x].status == Pending && after[x].status == Blocked)
  }

  lemma {:induction false} OthersKept(list: seq<Id>, base: Store, before: Store, after: Store, t: Id, w: Worker)
    requires WorkerOk(list, base, before, w) && w.task != t
    requires base.Keys == before.Keys && OnlyBlocks(base, before, after, t)
    requires t in base && base[t].status == Running && Ran(before[t].status)
    ensures WorkerOk(list, base, after, w)
  {
    assert after[w.task] == before[w.task];
    forall k | 0 <= k < |w.snap| && InPropagation(w) ensures EntryOk(base, after, w.snap[k]) {
      assert EntryOk(base, before, w.snap[k]);
      assert w.snap[k].id in before;
    }
  }

  /** A task is only ever marked while pending: one that ran has no failed or blocked dependency. */
  lemma {:induction false} HitIsPending(list: seq<Id>, base: Store, tasks: Store, w: Worker, k: nat)
    requires WorkerOk(list, base, tasks, w) && w.pc.Spread? && k < |w.snap| && Hit(w.snap[k], w.marked)
    requires RanOk(base) && Tracks(base, tasks)
    ensures w.snap[k].id in base && base[w.snap[k].id].status == Pending && w.snap[k].id != w.task
    ensures Needs(base, w.snap[k].id, w.task)
  {
    var e := w.snap[k];
    assert EntryOk(base, tasks, e);
    var d :| d in e.rec.deps && d in w.marked;
    if e.rec.status == Running {
      assert false;
    }
    if d == w.task {
      NeedsDirect(base, e.id, w.task);
    } else {
      NeedsThrough(base, e.id, d, w.task);
    }
  }

  /** What a step of worker `w` does to the records and to the worker itself. */
  ghost predicate Moved(list: seq<Id>, base: Store, tasks: Store, w: Worker, tasks': Store, w': Worker) {
    && WorkerOk(list, base, tasks', w')
    && Tracks(base, tasks')
    && OnlyBlocks(base, tasks, tasks', w.task)
    && w'.task == w.task && w.marked <= w'.marked
    && forall x :: x in base && tasks[x].status != tasks'[x].status ==> x == w.task || x in w'.marked
  }

  lemma {:induction false} MarkMoves(list: seq<Id>, base: Store, tasks: Store, w: Worker)
    requires WorkerOk(list, base, tasks, w) && w.pc.Spread? && w.pos < |w.snap| && Hit(w.snap[w.pos], w.marked)
    requires Tracks(base, tasks) && RanOk(base)
    ensures
      var e := w.snap[w.pos];
      var rec := e.rec.(status := Blocked);
      Moved(list, base, tasks, w, tasks[e.id := rec],
            w.(snap := w.snap[w.pos := Entry(e.id, rec)], marked := w.marked + {e.id}, pos := w.pos + 1, changed := true))
  {
    HitIsPending(list, base, tasks, w, w.pos);
    assert EntryOk(base, tasks, w.snap[w.pos]);
    BlockMoves(list, base, tasks, w);
  }

  lemma {:induction false} BlockMoves(list: seq<Id>, base: Store, tasks: Store, w: Worker)
    requires WorkerOk(list, base, tasks, w) && w.pc.Spread? && w.pos < |w.snap|
    requires Tracks(base, tasks) && EntryOk(base, tasks, w.snap[w.pos])
    requires base[w.snap[w.pos].id].status == Pending && w.snap[w.pos].id != w.task && Needs(base, w.snap[w.pos].id, w.task)
    ensures
      var e := w.snap[w.pos];
      var rec := e.rec.(status := Blocked);
      Moved(list, base, tasks, w, tasks[e.id := rec],
            w.(snap := w.snap[w.pos := Entry(e.id, rec)], marked := w.marked + {e.id}, pos := w.pos + 1, changed := true))
  {
    var e := w.snap[w.pos];
    var rec := e.rec.(status := Blocked);
    var tasks' := tasks[e.id := rec];
    var w' := w.(snap := w.snap[w.pos := Entry(e.id, rec)], marked := w.marked + {e.id}, pos := w.pos + 1, changed := true);
    assert Tracks(base, tasks') && OnlyBlocks(base, tasks, tasks', w.task) by { BlockedRecord(base, tasks, w.task, e.id, rec); }
    assert SnapOk(list, base, tasks', w') by { BlockedEntries(list, base, tasks, w.snap, w.pos); }
    assert MarkedOk(base, tasks', w') by { BlockedMarks(base, tasks, w, e.id, rec); }
    assert ControlOk(w') && PassOk(w') by { BlockedControl(w, w'.snap, w'.marked); }
  }

  lemma {:induction false} BlockedRecord(base: Store, tasks: Store, t: Id, id: Id, rec: Record)
    requires Tracks(base, tasks) && id != t && id in base && base[id].status == Pending
    requires rec == Record(base[id].deps, base[id].runnable, Blocked)
    ensures Tracks(base, tasks[id := rec]) && OnlyBlocks(base, tasks, tasks[id := rec], t)
  {
  }

  lemma {:induction false} BlockedControl(w: Worker, snap: seq<Entry>, marked: set<Id>)
    requires ControlOk(w) && w.pc.Spread?
    ensures var w' := w.(snap := snap, marked := marked, pos := w.pos + 1, changed := true); ControlOk(w') && PassOk(w')
  {
  }

  lemma {:induction false} BlockedMarks(base: Store, tasks: Store, w: Worker, id: Id, rec: Record)
    requires w.pc.Spread? && MarkedOk(base, tasks, w) && rec.status == Blocked
    requires id in base && base[id].status == Pending && id != w.task && Needs(base, id, w.task)
    ensures MarkedOk(base, tasks[id := rec], w.(marked := w.marked + {id}))
  {
  }

  /** Writing the blocked record of a snapshot entry, to the snapshot and to the store. */
  lemma {:induction false} BlockedEntries(list: seq<Id>, base: Store, tasks: Store, snap: seq<Entry>, pos: nat)
    requires pos < |snap| <= |list| && forall k :: 0 <= k < |snap| ==> snap[k].id == list[k] && EntryOk(base, tasks, snap[k])
    requires snap[pos].id in base && base[snap[pos].id].status == Pending
    ensures var e := snap[pos];
            var rec := e.rec.(status := Blocked);
            forall k :: 0 <= k < |snap| ==> snap[pos := Entry(e.id, rec)][k].id == list[k]
                                            && EntryOk(base, tasks[e.id := rec], snap[pos := Entry(e.id, rec)][k])
  {
  }

  lemma {:induction false} WriteMoves(list: seq<Id>, base: Store, sh: Shared, w: Worker, o: Outcome)
    requires WorkerOk(list, base, sh.tasks, w) && Tracks(base, sh.tasks) && w.pc.Write?
    ensures var (sh', w') := Advance(list, sh, w, o); Moved(list, base, sh.tasks, w, sh'.tasks, w')
  {
    var after := sh.tasks[w.task := w.pc.rec.(status := w.pc.to)];
    OwnRecord(base, sh.tasks, w.task, w.pc.to);
    if w.pc.to == Failed {
      Unmarked(base, after, w.(pc := Snap, snap := [], pos := 0, written := w.pc.to));
    } else {
      Unmarked(base, after, AfterUpdate(w.(written := w.pc.to)));
    }
  }

  lemma {:induction false} OwnRecord(base: Store, tasks: Store, t: Id, to: Status)
    requires Tracks(base, tasks) && t in base && base[t].status == Running && Ran(to)
    ensures var after := tasks[t := tasks[t].(status := to)]; Tracks(base, after) && OnlyBlocks(base, tasks, after, t)
  {
  }

  lemma {:induction false} Unmarked(base: Store, tasks: Store, w: Worker)
    requires w.marked == {} && !w.pc.Spread? && !Propagated(w)
    ensures MarkedOk(base, tasks, w) && PassOk(w)
  {
  }

  lemma {:induction false} SnapMoves(list: seq<Id>, base: Store, sh: Shared, w: Worker, o: Outcome)
    requires WorkerOk(list, base, sh.tasks, w) && Tracks(base, sh.tasks) && Listed(list, base) && w.pc.Snap?
    ensures var (sh', w') := Advance(list, sh, w, o); Moved(list, base, sh.tasks, w, sh'.tasks, w')
  {
    if w.pos < |list| {
      assert list[w.pos] in list;
      LoadMoves(list, base, sh.tasks, w, Entry(list[w.pos], sh.tasks[list[w.pos]]));
    } else {
      SnapTaken(list, base, sh.tasks, w);
    }
  }

  lemma {:induction false} LoadMoves(list: seq<Id>, base: Store, tasks: Store, w: Worker, e: Entry)
    requires WorkerOk(list, base, tasks, w) && Tracks(base, tasks) && w.pc.Snap? && w.pos < |list|
    requires e.id == list[w.pos] && e.id in tasks && e.rec == tasks[e.id]
    ensures Moved(list, base, tasks, w, tasks, w.(snap := w.snap + [e], pos := w.pos + 1))
  {
    assert EntryOk(base, tasks, e);
  }

  lemma {:induction false} SnapTaken(list: seq<Id>, base: Store, tasks: Store, w: Worker)
    requires WorkerOk(list, base, tasks, w) && Tracks(base, tasks) && w.pc.Snap? && w.pos >= |list|
    ensures Moved(list, base, tasks, w, tasks, w.(pc := Spread, marked := {w.task}, pos := 0, changed := false))
  {
  }

  /** Passing over an entry that is not hit. */
  lemma {:induction false} PassMoves(list: seq<Id>, base: Store, tasks: Store, w: Worker)
    requires WorkerOk(list, base, tasks, w) && Tracks(base, tasks) && w.pc.Spread? && w.pos < |w.snap| && !Hit(w.snap[w.pos], w.marked)
    ensures Moved(list, base, tasks, w, tasks, w.(pos := w.pos + 1))
  {
  }

  /** Another pass over the snapshot, or the end of the last one. */
  lemma {:induction false} StaysPut(list: seq<Id>, base: Store, tasks: Store, w: Worker, w': Worker)
    requires WorkerOk(list, base, tasks, w) && Tracks(base, tasks) && w.pc.Spread? && w.pos >= |w.snap|
    requires w' == if w.changed then w.(pos := 0, changed := false) else AfterUpdate(w)
    ensures Moved(list, base, tasks, w, tasks, w')
  {
  }

  lemma {:induction false} SpreadMoves(list: seq<Id>, base: Store, sh: Shared, w: Worker, o: Outcome)
    requires WorkerOk(list, base, sh.tasks, w) && Tracks(base, sh.tasks) && RanOk(base) && w.pc.Spread?
    ensures var (sh', w') := Advance(list, sh, w, o); Moved(list, base, sh.tasks, w, sh'.tasks, w')
  {
    if w.pos < |w.snap| && Hit(w.snap[w.pos], w.marked) {
      MarkMoves(list, base, sh.tasks, w);
    } else if w.pos < |w.snap| {
      PassMoves(list, base, sh.tasks, w);
    } else if w.changed {
      StaysPut(list, base, sh.tasks, w, w.(pos := 0, changed := false));
    } else {
      StaysPut(list, base, sh.tasks, w, AfterUpdate(w));
    }
  }

  lemma {:induction false} AdvanceMoves(list: seq<Id>, base: Store, sh: Shared, w: Worker, o: Outcome)
    requires WorkerOk(list, base, sh.tasks, w) && Tracks(base, sh.tasks) && RanOk(base) && Listed(list, base)
    ensures var (sh', w') := Advance(list, sh, w, o); Moved(list, base, sh.tasks, w, sh'.tasks, w')
  {
    match w.pc
    case Write(_, _) => WriteMoves(list, base, sh, w, o);
    case Snap => SnapMoves(list, base, sh, w, o);
    case Spread => SpreadMoves(list, base, sh, w, o);
    case _ => OtherMoves(list, base, sh, w, o);
  }

  /** Outside update_status and _propagate_blocked no record is written. */
  lemma {:induction false} OtherMoves(list: seq<Id>, base: Store, sh: Shared, w: Worker, o: Outcome)
    requires WorkerOk(list, base, sh.tasks, w) && Tracks(base, sh.tasks) && !w.pc.Write? && !w.pc.Snap? && !w.pc.Spread?
    ensures var (sh', w') := Advance(list, sh, w, o); Moved(list, base, sh.tasks, w, sh'.tasks, w')
  {
    OtherControl(list, sh, w, o);
  }

  lemma {:induction false} OtherControl(list: seq<Id>, sh: Shared, w: Worker, o: Outcome)
    requires ControlOk(w) && w.task in sh.tasks && !w.pc.Write? && !w.pc.Snap? && !w.pc.Spread?
    ensures
      var (sh', w') := Advance(list, sh, w, o);
      && sh'.tasks == sh.tasks && ControlOk(w')
      && w' == w.(pc := w'.pc, late := w'.late, holds := w'.holds, ran := w'.ran, got := w'.got)
      && (w'.pc.Write? ==> w'.pc.rec == sh.tasks[w.task]) && !w'.pc.Snap? && !w'.pc.Spread?
      && (Propagated(w') <==> Propagated(w))
  {
  }

  /** What a step of worker `w` does to the leases and to the list of agent runs. */
  predicate LeaseMove(sh: Shared, w: Worker, sh': Shared, w': Worker) {
    && sh'.leases == (if w'.holds == w.holds then sh.leases else if w'.holds then sh.leases + {w.task} else sh.leases - {w.task})
    && ((w'.holds && !w.holds) || (w'.ran && !w.ran) ==> w.task !in sh.leases)
    && sh'.spawned == (if w'.ran && !w.ran then sh.spawned + [w.task] else sh.spawned)
    && (w.ran ==> w'.ran)
    && (Skipped(w') && !Skipped(w) ==> !w.holds && w.task in sh.leases)
    && w'.task == w.task && sh'.foreign == sh.foreign
  }

  /** The worker found the lease taken and left the task as it was. */
  predicate Skipped(w: Worker) { w.pc.Finished? && w.written == Running }

  lemma {:induction false} AdvanceLeases(list: seq<Id>, sh: Shared, w: Worker, o: Outcome)
    requires ControlOk(w) && w.task in sh.tasks
    ensures var (sh', w') := Advance(list, sh, w, o); LeaseMove(sh, w, sh', w')
  {
  }

  lemma {:induction false} RecordsKept(list: seq<Id>, start: Shared, s: State, i: nat, o: Outcome)
    requires Inv(list, start, s) && RanOk(start.tasks) && Listed(list, start.tasks) && i < |s.workers|
    ensures RecordsOk(start.tasks, Step(list, s, i, o))
  {
    var base, s' := start.tasks, Step(list, s, i, o);
    assert WorkerOk(list, base, s.shared.tasks, s.workers[i]);
    AdvanceMoves(list, base, s.shared, s.workers[i], o);
    forall x | x in base && s'.shared.tasks[x].status != base[x].status ensures Explained(s', x) {
      if s.shared.tasks[x].status != base[x].status {
        var j :| 0 <= j < |s.workers| && (s.workers[j].task == x || x in s.workers[j].marked);
        assert s'.workers[j].task == x || x in s'.workers[j].marked;
      } else {
        assert s'.workers[i].task == x || x in s'.workers[i].marked;
      }
    }
  }

  lemma {:induction false} LeasesKept(start: Shared, s: State, i: nat, sh: Shared, w: Worker)
    requires LeasesOk(start, s) && Apart(s) && i < |s.workers| && LeaseMove(s.shared, s.workers[i], sh, w)
    ensures LeasesOk(start, State(sh, s.workers[i := w]))
  {
    var s', t := State(sh, s.workers[i := w]), w.task;
    assert forall j :: 0 <= j < |s.workers| && j != i ==> s'.workers[j] == s.workers[j] && s.workers[j].task != t;
    assert t !in start.foreign ==> (t in s.shared.leases <==> t in start.leases || s.workers[i].holds);
    forall x | x !in start.foreign
      ensures x in sh.leases <==> x in start.leases || exists j :: 0 <= j < |s'.workers| && s'.workers[j].task == x && s'.workers[j].holds
    {
      if x == t {
        assert s'.workers[i].task == t;
      } else if x in sh.leases && x !in start.leases {
        var j :| 0 <= j < |s.workers| && s.workers[j].task == x && s.workers[j].holds;
        assert s'.workers[j].task == x;
      }
    }
  }

  lemma {:induction false} AdvanceOutcome(list: seq<Id>, sh: Shared, w: Worker, o: Outcome)
    requires ControlOk(w) && OutcomeOk(w)
    ensures
      var (sh', w') := Advance(list, sh, w, o);
      && OutcomeOk(w') && (w.got.Some? ==> w'.got == w.got) && w'.task == w.task
      && sh'.ended == if w'.got == w.got then sh.ended else if w'.got.Some? then sh.ended[w.task := w'.got.value] else sh.ended
  {
  }

  lemma {:induction false} EndsKept(start: Shared, s: State, i: nat, sh: Shared, w: Worker)
    requires EndedOk(start, s) && Apart(s) && i < |s.workers| && OutcomeOk(w) && w.task == s.workers[i].task
    requires s.workers[i].got.Some? ==> w.got == s.workers[i].got
    requires sh.ended == if w.got == s.workers[i].got then s.shared.ended else if w.got.Some? then s.shared.ended[w.task := w.got.value] else s.shared.ended
    ensures EndedOk(start, State(sh, s.workers[i := w]))
  {
    var s' := State(sh, s.workers[i := w]);
    forall j | 0 <= j < |s'.workers| && s'.workers[j].got.Some?
      ensures s'.workers[j].task in sh.ended && sh.ended[s'.workers[j].task] == s'.workers[j].got.value
    {
      if j != i { assert s'.workers[j] == s.workers[j] && s.workers[j].task != w.task; }
    }
    forall x | forall j :: 0 <= j < |s'.workers| ==> s'.workers[j].task != x ensures SameEnd(start, sh, x) {
      assert s'.workers[i].task != x;
      assert forall j :: 0 <= j < |s.workers| ==> s.workers[j].task == s'.workers[j].task;
      assert SameEnd(start, s.shared, x);
    }
  }

  lemma {:induction false} RunsKept(start: Shared, s: State, i: nat, sh: Shared, w: Worker)
    requires RunsOk(start, s) && Apart(s) && i < |s.workers| && LeaseMove(s.shared, s.workers[i], sh, w)
    ensures RunsOk(start, State(sh, s.workers[i := w])) && Apart(State(sh, s.workers[i := w]))
  {
    var s' := State(sh, s.workers[i := w]);
    CountAppend(s.shared.spawned, w.task);
    assert forall j :: 0 <= j < |s.workers| ==> s'.workers[j].task == s.workers[j].task;
    forall j | 0 <= j < |s.workers|
      ensures Count(sh.spawned, s'.workers[j].task) == Count(start.spawned, s'.workers[j].task) + if s'.workers[j].ran then 1 else 0
    {
      if j != i { assert s'.workers[j] == s.workers[j] && s.workers[j].task != w.task; }
    }
    forall x | forall j :: 0 <= j < |s'.workers| ==> s'.workers[j].task != x ensures Count(sh.spawned, x) == Count(start.spawned, x) {
      assert s'.workers[i].task != x;
    }
  }

  lemma {:induction false} InvKept(list: seq<Id>, start: Shared, s: State, s': State)
    requires Inv(list, start, s) && RanOk(start.tasks) && Listed(list, start.tasks)
    requires Next(list, s, s')
    ensures Inv(list, start, s')
  {
    if taken :| s' == Disturbed(s, taken) {
      DisturbedKeeps(list, start, s, taken);
    } else {
      var i: nat, o :| Enabled(s, i) && s' == Step(list, s, i, o);
      StepKeeps(list, start, s, i, o);
    }
  }

  lemma {:induction false} DisturbedKeeps(list: seq<Id>, start: Shared, s: State, taken: set<Id>)
    requires Inv(list, start, s)
    ensures Inv(list, start, Disturbed(s, taken))
  {
    DisturbedLeases(start, s, taken);
    DisturbedRest(start, s, s.shared.(leases := Disturbed(s, taken).shared.leases));
  }

  lemma {:induction false} DisturbedLeases(start: Shared, s: State, taken: set<Id>)
    requires LeasesOk(start, s)
    ensures LeasesOk(start, Disturbed(s, taken))
  {
    HeldTasksMeaning(s.workers);
    forall x | x !in start.foreign ensures x in Disturbed(s, taken).shared.leases <==> x in s.shared.leases {
      if x in HeldTasks(s.workers) { var i :| 0 <= i < |s.workers| && s.workers[i].task == x && s.workers[i].holds; }
    }
  }

  lemma {:induction false} DisturbedRest(start: Shared, s: State, sh: Shared)
    requires RecordsOk(start.tasks, s) && RunsOk(start, s) && EndedOk(start, s) && sh == s.shared.(leases := sh.leases)
    ensures RecordsOk(start.tasks, s.(shared := sh)) && RunsOk(start, s.(shared := sh)) && EndedOk(start, s.(shared := sh))
  {
    var s' := s.(shared := sh);
    forall x | x in start.tasks && s'.shared.tasks[x].status != start.tasks[x].status ensures Explained(s', x) {
      assert Explained(s, x);
    }
    forall x | forall j :: 0 <= j < |s'.workers| ==> s'.workers[j].task != x ensures SameEnd(start, sh, x) {
      assert SameEnd(start, s.shared, x);
    }
  }

  lemma {:induction false} StepKeeps(list: seq<Id>, start: Shared, s: State, i: nat, o: Outcome)
    requires Inv(list, start, s) && RanOk(start.tasks) && Listed(list, start.tasks) && Enabled(s, i)
    ensures Inv(list, start, Step(list, s, i, o))
  {
    var s' := Step(list, s, i, o);
    assert WorkerOk(list, start.tasks, s.shared.tasks, s.workers[i]);
    AdvanceLeases(list, s.shared, s.workers[i], o);
    RecordsKept(list, start, s, i, o);
    LeasesKept(start, s, i, s'.shared, s'.workers[i]);
    RunsKept(start, s, i, s'.shared, s'.workers[i]);
    AdvanceOutcome(list, s.shared, s.workers[i], o);
    EndsKept(start, s, i, s'.shared, s'.workers[i]);
    WorkersKept(list, start, s, i, o);
  }

  lemma {:induction false} WorkersKept(list: seq<Id>, start: Shared, s: State, i: nat, o: Outcome)
    requires Inv(list, start, s) && RanOk(start.tasks) && Listed(list, start.tasks) && i < |s.workers|
    ensures
      var s' := Step(list, s, i, o);
      forall j :: 0 <= j < |s'.workers| ==> WorkerOk(list, start.tasks, s'.shared.tasks, s'.workers[j])
  {
    var s', base, w := Step(list, s, i, o), start.tasks, s.workers[i];
    assert WorkerOk(list, base, s.shared.tasks, w);
    AdvanceMoves(list, base, s.shared, w, o);
    forall j | 0 <= j < |s'.workers| ensures WorkerOk(list, base, s'.shared.tasks, s'.workers[j]) {
      if j != i {
        assert WorkerOk(list, base, s.shared.tasks, s.workers[j]);
        assert s.workers[j].task != w.task;
        OthersKept(list, base, s.shared.tasks, s'.shared.tasks, w.task, s.workers[j]);
      }
    }
  }

  // ---- Safety of every run ---------------------------------------------------------------------

  /** A run: each state follows from the one before it. */
  ghost predicate IsRun(list: seq<Id>, run: seq<State>) {
    run != [] && forall k :: 0 < k < |run| ==> Next(list, run[k - 1], run[k])
  }

  /** The batch as execute_plan starts it: each of its tasks has just been set to running. */
  ghost predicate Launched(start: Shared, s: State) {
    && s.shared == start && Apart(s)
    && forall i :: 0 <= i < |s.workers| ==>
         var t := s.workers[i].task;
         t in start.tasks && start.tasks[t].status == Running && s.workers[i] == NewWorker(t, start.tasks[t].runnable)
  }

  lemma {:induction false} RunKeepsInv(list: seq<Id>, start: Shared, run: seq<State>)
    requires IsRun(list, run) && Launched(start, run[0])
    requires RanOk(start.tasks) && Listed(list, start.tasks)
    ensures Inv(list, start, run[|run| - 1])
  {
    if |run| > 1 {
      var init := run[..|run| - 1];
      RunKeepsInv(list, start, init);
      InvKept(list, start, init[|init| - 1], run[|run| - 1]);
    }
  }

  /** In every state of every run, a task that runs or ran has all of its dependencies complete. */
  lemma {:induction false} RanStaysOk(list: seq<Id>, start: Shared, s: State)
    requires Inv(list, start, s) && RanOk(start.tasks)
    ensures RanOk(s.shared.tasks)
  {
    RanOkTracked(start.tasks, s.shared.tasks);
  }

  lemma {:induction false} RanOkTracked(base: Store, tasks: Store)
    requires Tracks(base, tasks) && RanOk(base)
    ensures RanOk(tasks)
  {
    forall x, d | x in tasks && d in tasks[x].deps && Ran(tasks[x].status) ensures d in tasks && tasks[d].status == Complete {
      assert Evolved(base[x].status, tasks[x].status);
      assert Ran(base[x].status) && d in base[x].deps;
      assert base[d].status == Complete;
    }
  }

  /** No write from a stale snapshot overwrites a running, complete or failed status: a step changes
      only a pending status to blocked, or the running status of the mover's own task. */
  lemma {:induction false} StepWrites(list: seq<Id>, start: Shared, s: State, i: nat, o: Outcome, x: Id)
    requires Inv(list, start, s) && RanOk(start.tasks) && Listed(list, start.tasks) && Enabled(s, i)
    requires x in s.shared.tasks
    ensures
      var s' := Step(list, s, i, o);
      var before := s.shared.tasks[x].status;
      && x in s'.shared.tasks
      && var after := s'.shared.tasks[x].status;
      && (before != after ==>
          || (before == Pending && after == Blocked)
          || (before == Running && (after == Complete || after == Failed) && x == s.workers[i].task))
      && (s.shared.tasks[x] != s'.shared.tasks[x] ==> before != after)
      && (before != after && after == Complete ==> s.workers[i].got == Some(Succeeded))
      && (before != after && after == Failed ==> !s.workers[i].runnable || (s.workers[i].got.Some? && s.workers[i].got.value != Succeeded))
  {
    AdvanceWrites(list, start.tasks, s.shared, s.workers[i], o, x);
    assert WorkerOk(list, start.tasks, s.shared.tasks, s.workers[i]) && OutcomeOk(s.workers[i]) && ControlOk(s.workers[i]);
    WrittenOutcome(list, start.tasks, s.shared, s.workers[i], o);
  }

  /** The status a worker writes to its own record. */
  lemma {:induction false} WrittenOutcome(list: seq<Id>, base: Store, sh: Shared, w: Worker, o: Outcome)
    requires ControlOk(w) && OutcomeOk(w)
    ensures
      var w' := Advance(list, sh, w, o).1;
      && (w'.written != w.written && w'.written == Complete ==> w.got == Some(Succeeded))
      && (w'.written != w.written && w'.written == Failed ==> !w.runnable || (w.got.Some? && w.got.value != Succeeded))
  {
  }

  lemma {:induction false} AdvanceWrites(list: seq<Id>, base: Store, sh: Shared, w: Worker, o: Outcome, x: Id)
    requires WorkerOk(list, base, sh.tasks, w) && Tracks(base, sh.tasks) && RanOk(base) && Listed(list, base) && x in sh.tasks
    ensures
      var after := Advance(list, sh, w, o).0.tasks;
      && x in after
      && (sh.tasks[x] != after[x] ==>
            || (sh.tasks[x].status == Pending && after[x].status == Blocked)
            || (sh.tasks[x].status == Running && (after[x].status == Complete || after[x].status == Failed) && x == w.task))
  {
    if w.pc.Spread? && w.pos < |w.snap| && Hit(w.snap[w.pos], w.marked) {
      assert EntryOk(base, sh.tasks, w.snap[w.pos]);
      HitIsPending(list, base, sh.tasks, w, w.pos);
      assert Evolved(base[w.snap[w.pos].id].status, sh.tasks[w.snap[w.pos].id].status);
    }
  }

  // ---- Where every run of a batch ends -----------------------------------------------------------

  /** Once a worker has propagated, the dependents of everything it marked are blocked. */
  lemma {:induction false} DependentBlocked(list: seq<Id>, base: Store, tasks: Store, w: Worker, d: Id, x: Id)
    requires WorkerOk(list, base, tasks, w) && Propagated(w)
    requires RanOk(base) && Listed(list, base) && Tracks(base, tasks)
    requires d in w.marked && x in tasks && d in tasks[x].deps
    ensures tasks[x].status == Blocked
  {
    assert x in list;
    var k :| 0 <= k < |list| && list[k] == x;
    var e := w.snap[k];
    assert e.id == x && EntryOk(base, tasks, e) && !Hit(e, w.marked);
    assert base[d].status != Complete;
    assert !Ran(base[x].status);
  }

  lemma {:induction false} BrokenSpreads(list: seq<Id>, start: Shared, s: State, d: Id, x: Id)
    requires Inv(list, start, s) && AllFinished(s) && Consistent(list, start.tasks)
    requires d in s.shared.tasks && x in s.shared.tasks && d in s.shared.tasks[x].deps && Broken(s.shared.tasks[d].status)
    ensures s.shared.tasks[x].status == Blocked
  {
    var base, tasks := start.tasks, s.shared.tasks;
    assert Evolved(base[x].status, tasks[x].status) && Evolved(base[d].status, tasks[d].status);
    if tasks[d].status == base[d].status {
      assert base[x].status == Blocked;
    } else {
      assert Explained(s, d);
      var i :| 0 <= i < |s.workers| && (s.workers[i].task == d || d in s.workers[i].marked);
      assert WorkerOk(list, base, tasks, s.workers[i]) && ControlOk(s.workers[i]);
      DependentBlocked(list, base, tasks, s.workers[i], d, x);
    }
  }

  /** Nothing escapes along a path of dependencies that starts at a failed task. */
  lemma {:induction false} PathBlocked(tasks: Store, p: seq<Id>)
    requires Closed(tasks) && Path(tasks, p) && p[0] in tasks && Broken(tasks[p[0]].status)
    ensures tasks[p[|p| - 1]].status == Blocked
  {
    var init := p[..|p| - 1];
    assert p[|p| - 2] in tasks[p[|p| - 1]].deps;
    if |p| > 2 {
      assert Path(tasks, init);
      PathBlocked(tasks, init);
    }
  }

  /** Some task of the batch failed and `x` needs it. */
  ghost predicate NeedsFailure(start: Shared, s: State, x: Id) {
    exists i :: 0 <= i < |s.workers| && s.workers[i].written == Failed && Needs(start.tasks, x, s.workers[i].task)
  }

  lemma {:induction false} NewlyBlocked(list: seq<Id>, start: Shared, s: State, x: Id)
    requires Inv(list, start, s) && AllFinished(s)
    requires x in start.tasks && start.tasks[x].status != Blocked && s.shared.tasks[x].status == Blocked
    ensures NeedsFailure(start, s, x)
  {
    assert Explained(s, x);
    var i :| 0 <= i < |s.workers| && (s.workers[i].task == x || x in s.workers[i].marked);
    assert WorkerOk(list, start.tasks, s.shared.tasks, s.workers[i]) && ControlOk(s.workers[i]);
  }

  lemma {:induction false} ClosedAgain(list: seq<Id>, start: Shared, s: State)
    requires Inv(list, start, s) && AllFinished(s) && Consistent(list, start.tasks)
    ensures Closed(s.shared.tasks)
  {
    var tasks := s.shared.tasks;
    forall x, d | x in tasks && d in tasks[x].deps && d in tasks && Broken(tasks[d].status) ensures tasks[x].status == Blocked {
      BrokenSpreads(list, start, s, d, x);
    }
  }

  lemma {:induction false} FailureBlocks(list: seq<Id>, start: Shared, s: State, x: Id)
    requires Inv(list, start, s) && Closed(s.shared.tasks) && x in start.tasks && NeedsFailure(start, s, x)
    ensures s.shared.tasks[x].status == Blocked && HasCause(s.shared.tasks, x)
  {
    var base, tasks := start.tasks, s.shared.tasks;
    var i :| 0 <= i < |s.workers| && s.workers[i].written == Failed && Needs(base, x, s.workers[i].task);
    assert WorkerOk(list, base, tasks, s.workers[i]);
    NeedsSameShape(base, tasks, x, s.workers[i].task);
    var p :| Path(tasks, p) && p[0] == s.workers[i].task && p[|p| - 1] == x;
    PathBlocked(tasks, p);
  }

  lemma {:induction false} CauseFound(list: seq<Id>, start: Shared, s: State, x: Id)
    requires Inv(list, start, s) && AllFinished(s) && Closed(s.shared.tasks) && Caused(start.tasks)
    requires x in start.tasks && s.shared.tasks[x].status == Blocked
    ensures HasCause(s.shared.tasks, x)
  {
    if start.tasks[x].status == Blocked {
      var f :| f in start.tasks && start.tasks[f].status == Failed && Needs(start.tasks, x, f);
      NeedsSameShape(start.tasks, s.shared.tasks, x, f);
      assert Evolved(start.tasks[f].status, s.shared.tasks[f].status);
    } else {
      NewlyBlocked(list, start, s, x);
      FailureBlocks(list, start, s, x);
    }
  }

  /** Whatever the order of the steps: when the batch is over the records are consistent again, and
      the tasks it blocked are exactly the pending ones that need one of its failures. */
  lemma {:induction false} BatchOutcome(list: seq<Id>, start: Shared, s: State)
    requires Inv(list, start, s) && AllFinished(s) && Consistent(list, start.tasks)
    ensures Consistent(list, s.shared.tasks)
    ensures forall x :: x in start.tasks && start.tasks[x].status == Pending ==>
      (s.shared.tasks[x].status == Blocked <==> NeedsFailure(start, s, x))
  {
    ClosedAgain(list, start, s);
    RanStaysOk(list, start, s);
    forall x | x in start.tasks && start.tasks[x].status == Pending
      ensures s.shared.tasks[x].status == Blocked <==> NeedsFailure(start, s, x)
    {
      if NeedsFailure(start, s, x) { FailureBlocks(list, start, s, x); }
      if s.shared.tasks[x].status == Blocked { NewlyBlocked(list, start, s, x); }
    }
    forall x | x in s.shared.tasks && s.shared.tasks[x].status == Blocked ensures HasCause(s.shared.tasks, x) {
      CauseFound(list, start, s, x);
    }
  }

  /** The same, said of whole runs. */
  lemma {:induction false} EveryRunEndsAlike(list: seq<Id>, start: Shared, run: seq<State>)
    requires IsRun(list, run) && Launched(start, run[0]) && Consistent(list, start.tasks)
    requires AllFinished(run[|run| - 1])
    ensures
      var end := run[|run| - 1];
      && Consistent(list, end.shared.tasks)
      && forall x :: x in start.tasks && start.tasks[x].status == Pending ==>
           (end.shared.tasks[x].status == Blocked <==> NeedsFailure(start, end, x))
  {
    RunKeepsInv(list, start, run);
    BatchOutcome(list, start, run[|run| - 1]);
  }

  // ---- Every run ends ---------------------------------------------------------------------------

  lemma {:induction false} SomeoneCanMove(list: seq<Id>, start: Shared, s: State) returns (i: nat)
    requires Inv(list, start, s) && !AllFinished(s)
    ensures Enabled(s, i)
  {
    forall j | 0 <= j < |s.workers| && s.workers[j].pc.Gathered? ensures s.workers[j].late {
      assert WorkerOk(list, start.tasks, s.shared.tasks, s.workers[j]) && ControlOk(s.workers[j]);
    }
    i := FirstMover(s);
  }

  lemma {:induction false} FirstMover(s: State) returns (i: nat)
    requires forall j :: 0 <= j < |s.workers| && s.workers[j].pc.Gathered? ==> s.workers[j].late
    requires !AllFinished(s)
    ensures Enabled(s, i)
  {
    if j: nat :| j < |s.workers| && !s.workers[j].pc.Finished? && !s.workers[j].pc.Gathered? {
      return j;
    }
    i := 0;
    while s.workers[i].pc.Finished?
      invariant i < |s.workers| && forall j :: 0 <= j < i ==> s.workers[j].pc.Finished?
      decreases |s.workers| - i
    {
      i := i + 1;
    }
  }

  function OpenEntries(snap: seq<Entry>): nat {
    if snap == [] then 0 else OpenEntries(snap[..|snap| - 1]) + if Open(snap[|snap| - 1].rec.status) then 1 else 0
  }

  lemma {:induction false} CloseEntry(snap: seq<Entry>, k: nat, e: Entry)
    requires k < |snap| && Open(snap[k].rec.status) && !Open(e.rec.status)
    ensures OpenEntries(snap[k := e]) == OpenEntries(snap) - 1
  {
    var init, last := snap[..|snap| - 1], |snap| - 1;
    if k < last {
      CloseEntry(init, k, e);
      assert snap[k := e][..last] == init[k := e];
    } else {
      assert snap[k := e][..last] == init;
    }
  }

  lemma {:induction false} OpenEntriesBound(snap: seq<Entry>)
    ensures OpenEntries(snap) <= |snap|
  {
    if snap != [] { OpenEntriesBound(snap[..|snap| - 1]); }
  }

  function Times(a: nat, b: nat): nat { a * b }

  lemma {:induction false} TimesGrows(a: nat, b: nat, c: nat)
    requires a <= b
    ensures Times(a, c) <= Times(b, c)
    ensures a > 0 ==> Times(a - 1, c) == Times(a, c) - c
  {
  }

  function SpreadRank(n: nat): nat { Times(n, n + 2) + n + 3 }

  /** How many more steps a worker can make at most, in a plan of `n` tasks. */
  function Rank(n: nat, w: Worker): nat {
    var update := n + SpreadRank(n) + 4;
    match w.pc
    case Start => update + 4
    case Agent => update + 3
    case Update(_) => update
    case Write(_, _) => update - 1
    case Snap => (if w.pos <= n then n - w.pos else 0) + SpreadRank(n) + 1
    case Spread => Times(OpenEntries(w.snap), n + 2) + (if w.changed then n + 1 else 0) + (if w.pos <= n then n - w.pos else 0) + 2
    case Release => if w.late then update + 2 else 1
    case Gathered => update + 1
    case Finished => 0
  }

  lemma {:induction false} SnapRankFalls(n: nat, w: Worker)
    requires w.pc.Snap? && w.pos == |w.snap| == n
    ensures Rank(n, w.(pc := Spread, pos := 0, marked := {w.task}, changed := false)) < Rank(n, w)
  {
    OpenEntriesBound(w.snap);
    TimesGrows(OpenEntries(w.snap), n, n + 2);
  }

  lemma {:induction false} SpreadRankFalls(n: nat, w: Worker, e: Entry)
    requires w.pc.Spread? && w.pos < |w.snap| == n && Open(w.snap[w.pos].rec.status) && !Open(e.rec.status)
    ensures Rank(n, w.(snap := w.snap[w.pos := e], marked := w.marked + {e.id}, pos := w.pos + 1, changed := true)) < Rank(n, w)
  {
    CloseEntry(w.snap, w.pos, e);
    TimesGrows(OpenEntries(w.snap), OpenEntries(w.snap), n + 2);
  }

  lemma {:induction false} RankFalls(list: seq<Id>, base: Store, sh: Shared, w: Worker, o: Outcome)
    requires SnapOk(list, base, sh.tasks, w) && ControlOk(w) && !w.pc.Finished? && w.task in sh.tasks
    requires forall x :: x in list ==> x in sh.tasks
    ensures Rank(|list|, Advance(list, sh, w, o).1) < Rank(|list|, w)
  {
    var n := |list|;
    if w.pc.Snap? {
      if w.pos >= n {
        SnapRankFalls(n, w);
      } else {
        assert list[w.pos] in list;
        assert Advance(list, sh, w, o).1.pc.Snap? && Advance(list, sh, w, o).1.pos == w.pos + 1;
      }
    } else if w.pc.Spread? {
      SpreadStepFalls(list, sh, w, o);
    }
  }

  lemma {:induction false} SpreadStepFalls(list: seq<Id>, sh: Shared, w: Worker, o: Outcome)
    requires w.pc.Spread? && w.pos <= |w.snap| == |list| && w.written == Failed
    ensures Rank(|list|, Advance(list, sh, w, o).1) < Rank(|list|, w)
  {
    if w.pos < |w.snap| && Hit(w.snap[w.pos], w.marked) {
      var e := w.snap[w.pos];
      SpreadRankFalls(|list|, w, Entry(e.id, e.rec.(status := Blocked)));
    }
  }

  function TotalRank(n: nat, ws: seq<Worker>): nat {
    if ws == [] then 0 else TotalRank(n, ws[..|ws| - 1]) + Rank(n, ws[|ws| - 1])
  }

  lemma {:induction false} TotalRankUpdate(n: nat, ws: seq<Worker>, i: nat, w: Worker)
    requires i < |ws|
    ensures TotalRank(n, ws[i := w]) == TotalRank(n, ws) - Rank(n, ws[i]) + Rank(n, w)
  {
    var init, last := ws[..|ws| - 1], |ws| - 1;
    if i < last {
      TotalRankUpdate(n, init, i, w);
      assert ws[i := w][..last] == init[i := w];
    } else {
      assert ws[i := w][..last] == init;
    }
  }

  /** No run goes on for ever: every step of a worker lowers the total rank, and no other raises it. */
  lemma {:induction false} StepsEnd(list: seq<Id>, start: Shared, s: State, i: nat, o: Outcome)
    requires Inv(list, start, s) && Listed(list, start.tasks) && Enabled(s, i)
    ensures TotalRank(|list|, Step(list, s, i, o).workers) < TotalRank(|list|, s.workers)
  {
    assert WorkerOk(list, start.tasks, s.shared.tasks, s.workers[i]);
    RankFalls(list, start.tasks, s.shared, s.workers[i], o);
    TotalRankUpdate(|list|, s.workers, i, Step(list, s, i, o).workers[i]);
  }
}
