/** Task leases among any number of workers: SETNX to acquire, an unconditional DEL to release.
    Workers of any number of plan executions may join at any time. */
module Leases {
  import opened Plans

  /** Where a worker of _run_single_task stands. `Lost` returned because the lease was taken;
      `Leaked` raised KeyError between taking the lease and its `try`; `Crashed` is a process that
      died inside. Neither of the last two releases. */
  datatype Pc = Waiting | Inside | Lost | Finished | Leaked | Crashed

  datatype Worker = Worker(task: Id, runnable: bool, pc: Pc)

  /** The lease keys with the worker that set them, and the workers. */
  datatype State = State(lease: map<Id, nat>, workers: seq<Worker>)

  /** `Drop` is a lease key deleted by someone else: its time to live ran out, or load_plan cleared it. */
  datatype Event =
    | Join(task: Id, runnable: bool)
    | Acquire(i: nat)
    | Exit(i: nat)
    | Crash(i: nat)
    | Drop(task: Id)

  const EMPTY := State(map[], [])

  predicate Enabled(s: State, e: Event) {
    match e
    case Join(_, _) => true
    case Acquire(i) => i < |s.workers| && s.workers[i].pc.Waiting?
    case Exit(i) => i < |s.workers| && s.workers[i].pc.Inside?
    case Crash(i) => i < |s.workers| && s.workers[i].pc.Inside?
    case Drop(_) => true
  }

  function Moved(s: State, i: nat, pc: Pc): seq<Worker>
    requires i < |s.workers|
  {
    s.workers[i := s.workers[i].(pc := pc)]
  }

  function Apply(s: State, e: Event): State
    requires Enabled(s, e)
  {
    match e
    case Join(t, runnable) => s.(workers := s.workers + [Worker(t, runnable, Waiting)])
    case Acquire(i) =>
      var t := s.workers[i].task;
      if t in s.lease then s.(workers := Moved(s, i, Lost))
      else State(s.lease[t := i], Moved(s, i, if s.workers[i].runnable then Inside else Leaked))
    case Exit(i) => State(s.lease - {s.workers[i].task}, Moved(s, i, Finished))
    case Crash(i) => s.(workers := Moved(s, i, Crashed))
    case Drop(t) => s.(lease := s.lease - {t})
  }

  /** The lease of `t` belongs to a worker that is still inside. */
  predicate HeldInside(s: State, t: Id) {
    t in s.lease && s.lease[t] < |s.workers| && s.workers[s.lease[t]].pc.Inside? && s.workers[s.lease[t]].task == t
  }

  /** The lease key disappears under the worker that holds it. */
  predicate Early(s: State, e: Event) { e.Drop? && HeldInside(s, e.task) }

  /** Every worker inside holds the lease of its task; every lease belongs to a worker that is inside
      or left without releasing. */
  ghost predicate Inv(s: State) {
    && (forall i :: 0 <= i < |s.workers| && s.workers[i].pc.Inside? ==> s.workers[i].task in s.lease && s.lease[s.workers[i].task] == i)
    && (forall t :: t in s.lease ==>
          && s.lease[t] < |s.workers| && s.workers[s.lease[t]].task == t
          && (s.workers[s.lease[t]].pc.Inside? || s.workers[s.lease[t]].pc.Leaked? || s.workers[s.lease[t]].pc.Crashed?))
  }

  ghost predicate Exclusive(s: State) {
    forall i, j :: 0 <= i < j < |s.workers| && s.workers[i].pc.Inside? && s.workers[j].pc.Inside? ==> s.workers[i].task != s.workers[j].task
  }

  /** Exactly the early drops break the protocol. */
  lemma {:induction false} KeptUnlessEarly(s: State, e: Event)
    requires Inv(s) && Enabled(s, e)
    ensures Inv(Apply(s, e)) <==> !Early(s, e)
  {
    var s' := Apply(s, e);
    if e.Drop? && Early(s, e) {
      var i := s.lease[e.task];
      assert s'.workers[i].pc.Inside? && e.task !in s'.lease;
    }
  }

  ghost predicate IsRun(events: seq<Event>, states: seq<State>) {
    && |states| == |events| + 1 && states[0] == EMPTY
    && forall k :: 0 <= k < |events| ==> Enabled(states[k], events[k]) && states[k + 1] == Apply(states[k], events[k])
  }

  ghost predicate Punctual(events: seq<Event>, states: seq<State>) {
    |states| > |events| && forall k :: 0 <= k < |events| ==> !Early(states[k], events[k])
  }

  lemma {:induction false} RunKeepsInv(events: seq<Event>, states: seq<State>, k: nat)
    requires IsRun(events, states) && Punctual(events, states) && k <= |events|
    ensures Inv(states[k])
  {
    if k > 0 {
      RunKeepsInv(events, states, k - 1);
      KeptUnlessEarly(states[k - 1], events[k - 1]);
    }
  }

  /** In every state of every punctual run at most one worker per task is inside. */
  lemma {:induction false} RunsExclude(events: seq<Event>, states: seq<State>, k: nat)
    requires IsRun(events, states) && Punctual(events, states) && k <= |events|
    ensures Exclusive(states[k])
  {
    RunKeepsInv(events, states, k);
  }

  /** All records are usable and no process dies inside. */
  ghost predicate Orderly(events: seq<Event>) {
    forall e :: e in events ==> (e.Join? ==> e.runnable) && !e.Crash?
  }

  ghost predicate Occupied(s: State, t: Id) {
    exists i :: 0 <= i < |s.workers| && s.workers[i].task == t && s.workers[i].pc.Inside?
  }

  lemma {:induction false} OrderlyWorkers(events: seq<Event>, states: seq<State>, k: nat)
    requires IsRun(events, states) && Orderly(events) && k <= |events|
    ensures forall i :: 0 <= i < |states[k].workers| ==>
      states[k].workers[i].runnable && !states[k].workers[i].pc.Leaked? && !states[k].workers[i].pc.Crashed?
  {
    if k > 0 {
      OrderlyWorkers(events, states, k - 1);
      assert events[k - 1] in events;
    }
  }

  /** Then the lease key exists exactly while a worker is inside. */
  lemma {:induction false} LeaseMeansInside(events: seq<Event>, states: seq<State>, k: nat, t: Id)
    requires IsRun(events, states) && Punctual(events, states) && Orderly(events) && k <= |events|
    ensures t in states[k].lease <==> Occupied(states[k], t)
  {
    RunKeepsInv(events, states, k);
    OrderlyWorkers(events, states, k);
  }

  /** A lease that is gone while its worker is inside lets the next worker in beside it. */
  lemma {:induction false} EarlyDropAdmitsAnother(s: State, t: Id)
    requires Inv(s) && Early(s, Drop(t))
    ensures
      var s1 := Apply(s, Drop(t));
      var s2 := Apply(s1, Join(t, true));
      var next := Acquire(|s.workers|);
      Enabled(s2, next) && !Exclusive(Apply(s2, next))
  {
    var s2 := Apply(Apply(s, Drop(t)), Join(t, true));
    var s3 := Apply(s2, Acquire(|s.workers|));
    var i := s.lease[t];
    assert s3.workers[i] == s.workers[i] && s3.workers[|s.workers|].pc.Inside?;
  }

  /** What the state would be if a worker that lost the race also ran the `finally` block. */
  function LoserReleases(s: State, j: nat): State
    requires j < |s.workers|
  {
    s.(lease := s.lease - {s.workers[j].task})
  }

  /** Releasing is unconditional, so it is only safe because a loser returns before the `try`. */
  lemma {:induction false} LoserMustNotRelease(s: State, i: nat, j: nat)
    requires Inv(s) && i < |s.workers| && j < |s.workers|
    requires s.workers[i].pc.Inside? && s.workers[j].pc.Lost? && s.workers[i].task == s.workers[j].task
    ensures !Inv(LoserReleases(s, j))
    ensures Early(s, Drop(s.workers[j].task)) && LoserReleases(s, j) == Apply(s, Drop(s.workers[j].task))
  {
    assert LoserReleases(s, j).workers[i].pc.Inside?;
  }
}
