/** Any number of callers of enqueue and process_next (process_all is process_next over and over)
    working on one patch queue at the same time. A step goes from one await to the next; the lock
    makes the depth check, the append and the claim of a patch one step each. Redis is written after
    an await of its own. */
module PatchRace {
  import opened Queue = PatchQueue

  /** What has happened to a patch. `SandboxBad` and `LiveBad` are refusals and exceptions alike. */
  datatype Event = Claimed | Clash | Clear | SandboxOk | SandboxBad | LiveOk | LiveBad

  /** A patch and its history. */
  datatype Traced = Traced(status: Status, retries: nat, log: seq<Event>)

  /** What a caller is in the middle of: hashing files between the two locks of enqueue; saving the patch
      it has appended; waiting for the conflict check, the sandbox or the live apply of the patch it has
      claimed; or deleting the key of a patch it has settled. */
  datatype Caller =
    | Idle
    | Hashing
    | Saving(pid: Pid)
    | Checking(pid: Pid)
    | InSandbox(pid: Pid)
    | InLive(pid: Pid)
    | Dropping(pid: Pid)

  /** The patches whose keys have been saved, the patches whose keys have been deleted, and those whose
      keys are there. A key is saved with what the patch was when appended, pending. */
  datatype Redis = Redis(saved: set<Pid>, dropped: set<Pid>, keys: set<Pid>)

  /** The patches by position in the queue, the callers, and Redis. */
  datatype State = State(patches: seq<Traced>, callers: seq<Caller>, redis: Redis)

  /** The next step of caller `c`, with what the outside answers it. */
  datatype Step =
    | BeginEnqueue(c: nat)
    | Append(c: nat)
    | Save(c: nat)
    | Claim(c: nat)
    | Check(c: nat, conflict: bool)
    | Sandbox(c: nat, ok: bool)
    | Live(c: nat, ok: bool)
    | Drop(c: nat)

  function NextPending(patches: seq<Traced>, from: nat): nat
    requires from <= |patches|
    ensures from <= NextPending(patches, from) <= |patches|
    ensures NextPending(patches, from) < |patches| ==> patches[NextPending(patches, from)].status.Pending?
    ensures forall k :: from <= k < NextPending(patches, from) ==> !patches[k].status.Pending?
    decreases |patches| - from
  {
    if from == |patches| || patches[from].status.Pending? then from else NextPending(patches, from + 1)
  }

  predicate Enabled(depth: nat, s: State, e: Step) {
    && e.c < |s.callers|
    && match e
       case BeginEnqueue(c) => s.callers[c].Idle? && |s.patches| < depth
       case Append(c) => s.callers[c].Hashing?
       case Save(c) => s.callers[c].Saving?
       case Claim(c) => s.callers[c].Idle? && NextPending(s.patches, 0) < |s.patches|
       case Check(c, _) => s.callers[c].Checking? && s.callers[c].pid < |s.patches|
       case Sandbox(c, _) => s.callers[c].InSandbox? && s.callers[c].pid < |s.patches|
       case Live(c, _) => s.callers[c].InLive? && s.callers[c].pid < |s.patches|
       case Drop(c) => s.callers[c].Dropping?
  }

  function Put(s: State, c: nat, pid: Pid, status: Status, retries: nat, e: Event, next: Caller): State
    requires c < |s.callers| && pid < |s.patches|
  {
    State(s.patches[pid := Traced(status, retries, s.patches[pid].log + [e])], s.callers[c := next], s.redis)
  }

  function Apply(depth: nat, s: State, e: Step): State
    requires Enabled(depth, s, e)
  {
    match e
    case BeginEnqueue(c) => s.(callers := s.callers[c := Hashing])
    case Append(c) => State(s.patches + [Traced(Pending, 0, [])], s.callers[c := Saving(|s.patches|)], s.redis)
    case Save(c) =>
      var pid := s.callers[c].pid;
      s.(callers := s.callers[c := Idle], redis := s.redis.(saved := s.redis.saved + {pid}, keys := s.redis.keys + {pid}))
    case Claim(c) =>
      var pid := NextPending(s.patches, 0);
      Put(s, c, pid, Processing, s.patches[pid].retries, Claimed, Checking(pid))
    case Check(c, conflict) =>
      var pid := s.callers[c].pid;
      var p := s.patches[pid];
      if !conflict then Put(s, c, pid, p.status, p.retries, Clear, InSandbox(pid))
      else if p.retries + 1 >= MAX_RETRIES then Put(s, c, pid, Conflict, p.retries + 1, Clash, Dropping(pid))
      else Put(s, c, pid, Pending, p.retries + 1, Clash, Idle)
    case Sandbox(c, ok) =>
      var pid := s.callers[c].pid;
      var p := s.patches[pid];
      if ok then Put(s, c, pid, p.status, p.retries, SandboxOk, InLive(pid)) else Put(s, c, pid, Rejected, p.retries, SandboxBad, Dropping(pid))
    case Live(c, ok) =>
      var pid := s.callers[c].pid;
      Put(s, c, pid, if ok then Applied else Rejected, s.patches[pid].retries, if ok then LiveOk else LiveBad, Dropping(pid))
    case Drop(c) =>
      var pid := s.callers[c].pid;
      s.(callers := s.callers[c := Idle], redis := s.redis.(dropped := s.redis.dropped + {pid}, keys := s.redis.keys - {pid}))
  }

  // ---- One caller on its own ------------------------------------------------------------------------

  /** Caller `c` takes its next patch through all its steps, with nobody else moving. */
  function Alone(depth: nat, s: State, c: nat, conflict: bool, sandboxOk: bool, liveOk: bool): State
    requires Enabled(depth, s, Claim(c))
  {
    var claimed := Apply(depth, s, Claim(c));
    var checked := Apply(depth, claimed, Check(c, conflict));
    if conflict then AllDropped(depth, checked, c)
    else
      var tried := Apply(depth, checked, Sandbox(c, sandboxOk));
      AllDropped(depth, if !sandboxOk then tried else Apply(depth, tried, Live(c, liveOk)), c)
  }

  function AllDropped(depth: nat, s: State, c: nat): State {
    if Enabled(depth, s, Drop(c)) then Apply(depth, s, Drop(c)) else s
  }

  /** Those steps come to one application of the first pending patch, as a single caller makes it. */
  lemma {:induction false} AloneIsOutcome(depth: nat, s: State, c: nat, p: Queue.Patch, a: Answers)
    requires Enabled(depth, s, Claim(c))
    requires var first := s.patches[NextPending(s.patches, 0)]; p.status == first.status && p.retries == first.retries
    ensures
      var pid := NextPending(s.patches, 0);
      var after := Alone(depth, s, c, Conflicts(p.baseline, a.disk), a.sandbox.Ok?, a.live.Ok?);
      && |after.patches| == |s.patches| && after.callers == s.callers
      && after.patches[pid].status == Outcome(p, a).0.status && after.patches[pid].retries == Outcome(p, a).0.retries
      && (forall q :: 0 <= q < |s.patches| && q != pid ==> after.patches[q] == s.patches[q])
      && after.redis.keys == if Outcome(p, a).1 == Requeued then s.redis.keys else s.redis.keys - {pid}
  {
    var after := Alone(depth, s, c, Conflicts(p.baseline, a.disk), a.sandbox.Ok?, a.live.Ok?);
    assert after.callers == s.callers;
  }

  // ---- The life of a patch ------------------------------------------------------------------------

  /** Where a history leaves a patch. */
  datatype Phase = Waiting | AtCheck | AtSandbox | AtLive | Ended(status: Status) | Impossible

  function Following(phase: Phase, retries: nat, e: Event): (Phase, nat) {
    match (phase, e)
    case (Waiting, Claimed) => (AtCheck, retries)
    case (AtCheck, Clash) => (if retries + 1 >= MAX_RETRIES then Ended(Conflict) else Waiting, retries + 1)
    case (AtCheck, Clear) => (AtSandbox, retries)
    case (AtSandbox, SandboxOk) => (AtLive, retries)
    case (AtSandbox, SandboxBad) => (Ended(Rejected), retries)
    case (AtLive, LiveOk) => (Ended(Applied), retries)
    case (AtLive, LiveBad) => (Ended(Rejected), retries)
    case _ => (Impossible, retries)
  }

  function Replay(log: seq<Event>): (Phase, nat) {
    if log == [] then (Waiting, 0)
    else
      var (phase, retries) := Replay(log[..|log| - 1]);
      Following(phase, retries, log[|log| - 1])
  }

  function StatusOf(phase: Phase): Status {
    match phase
    case Waiting => Pending
    case Ended(status) => status
    case _ => Processing
  }

  function LiveCalls(log: seq<Event>): nat {
    if log == [] then 0
    else LiveCalls(log[..|log| - 1]) + if log[|log| - 1] == LiveOk || log[|log| - 1] == LiveBad then 1 else 0
  }

  /** The live apply comes last in a history without impossible steps, and so at most once. */
  lemma {:induction false} LiveAtMostOnce(log: seq<Event>)
    requires !Replay(log).0.Impossible?
    ensures LiveCalls(log) <= 1
    ensures LiveCalls(log) == 1 ==> Replay(log).0 == Ended(Applied) || Replay(log).0 == Ended(Rejected)
    ensures Replay(log).0.Ended? ==> Final(Replay(log).0.status)
  {
    if log != [] { LiveAtMostOnce(log[..|log| - 1]); }
  }

  lemma {:induction false} EndsSnoc(log: seq<Event>, end: seq<Event>, e: Event)
    ensures EndsWith(log, end + [e]) <==> log != [] && log[|log| - 1] == e && EndsWith(log[..|log| - 1], end)
  {
    if log != [] && |end| < |log| {
      var init := log[..|log| - 1];
      assert log[|log| - |end| - 1..] == init[|init| - |end|..] + [log[|log| - 1]];
    }
  }

  lemma {:induction false} CheckedHistory(log: seq<Event>)
    requires !Replay(log).0.Impossible?
    ensures Replay(log).0.AtCheck? <==> EndsWith(log, [Claimed])
  {
    EndsSnoc(log, [], Claimed);
    assert [] + [Claimed] == [Claimed];
  }

  lemma {:induction false} SandboxedHistory(log: seq<Event>)
    requires !Replay(log).0.Impossible?
    ensures Replay(log).0.AtSandbox? <==> EndsWith(log, [Claimed, Clear])
  {
    EndsSnoc(log, [Claimed], Clear);
    assert [Claimed] + [Clear] == [Claimed, Clear];
    if log != [] { CheckedHistory(log[..|log| - 1]); }
  }

  lemma {:induction false} LiveHistory(log: seq<Event>)
    requires !Replay(log).0.Impossible?
    ensures Replay(log).0.AtLive? <==> EndsWith(log, [Claimed, Clear, SandboxOk])
  {
    EndsSnoc(log, [Claimed, Clear], SandboxOk);
    assert [Claimed, Clear] + [SandboxOk] == [Claimed, Clear, SandboxOk];
    if log != [] { SandboxedHistory(log[..|log| - 1]); }
  }

  /** A patch is applied exactly when its history ends with a clear check and both applications
      succeeding. */
  lemma {:induction false} AppliedHistory(log: seq<Event>)
    requires !Replay(log).0.Impossible?
    ensures Replay(log).0 == Ended(Applied) <==> EndsWith(log, [Claimed, Clear, SandboxOk, LiveOk])
  {
    EndsSnoc(log, [Claimed, Clear, SandboxOk], LiveOk);
    assert [Claimed, Clear, SandboxOk] + [LiveOk] == [Claimed, Clear, SandboxOk, LiveOk];
    if log != [] { LiveHistory(log[..|log| - 1]); }
  }

  predicate EndsWith(log: seq<Event>, end: seq<Event>) {
    |end| <= |log| && log[|log| - |end|..] == end
  }

  // ---- The invariant ------------------------------------------------------------------------------

  function PhaseOf(c: Caller): Phase {
    match c
    case Checking(_) => AtCheck
    case InSandbox(_) => AtSandbox
    case InLive(_) => AtLive
    case _ => Waiting
  }

  predicate Free(c: Caller) { !c.Checking? && !c.InSandbox? && !c.InLive? }

  predicate Holds(c: Caller, pid: Pid) { !Free(c) && c.pid == pid }

  /** A patch's record is what its history says. */
  predicate PatchOk(p: Traced) {
    var (phase, retries) := Replay(p.log);
    !phase.Impossible? && p.status == StatusOf(phase) && p.retries == retries
  }

  /** A caller waits for what its patch is due. */
  predicate CallerOk(patches: seq<Traced>, c: Caller) {
    !Free(c) ==> c.pid < |patches| && Replay(patches[c.pid].log).0 == PhaseOf(c)
  }

  ghost predicate Inv(s: State) {
    && (forall pid :: 0 <= pid < |s.patches| ==> PatchOk(s.patches[pid]))
    && (forall c :: 0 <= c < |s.callers| ==> CallerOk(s.patches, s.callers[c]))
    && OneHolder(s)
    && (forall pid :: 0 <= pid < |s.patches| && s.patches[pid].status.Processing? ==> Held(s, pid))
  }

  /** No patch is held by two callers. */
  ghost predicate OneHolder(s: State) {
    forall c, d, pid :: 0 <= c < d < |s.callers| && Holds(s.callers[c], pid) ==> !Holds(s.callers[d], pid)
  }

  ghost predicate Held(s: State, pid: Pid) {
    exists c :: 0 <= c < |s.callers| && Holds(s.callers[c], pid)
  }

  /** Moving a patch that the caller holds, or takes, to the next phase of its life. */
  lemma {:induction false} PutKeepsInv(s: State, c: nat, pid: Pid, status: Status, retries: nat, e: Event, next: Caller)
    requires Inv(s) && c < |s.callers| && pid < |s.patches|
    requires (s.callers[c].Idle? && s.patches[pid].status.Pending?) || Holds(s.callers[c], pid)
    requires
      var (before, tried) := Replay(s.patches[pid].log);
      var (phase, tried') := Following(before, tried, e);
      !phase.Impossible? && status == StatusOf(phase) && retries == tried'
      && if next.Idle? || next.Dropping? then status != Processing else Holds(next, pid) && PhaseOf(next) == phase
    ensures Inv(Put(s, c, pid, status, retries, e, next))
  {
    var s' := Put(s, c, pid, status, retries, e, next);
    assert (s.patches[pid].log + [e])[..|s.patches[pid].log|] == s.patches[pid].log;
    assert PatchOk(s.patches[pid]) && PatchOk(s'.patches[pid]);
    NoOtherHolder(s, c, pid);
    forall d | 0 <= d < |s'.callers| ensures CallerOk(s'.patches, s'.callers[d]) {
      if d != c { assert CallerOk(s.patches, s.callers[d]) && !Holds(s.callers[d], pid); }
    }
    HeldKept(s, s', c, pid);
  }

  lemma {:induction false} NoOtherHolder(s: State, c: nat, pid: Pid)
    requires Inv(s) && c < |s.callers| && pid < |s.patches|
    requires (s.callers[c].Idle? && s.patches[pid].status.Pending?) || Holds(s.callers[c], pid)
    ensures forall d :: 0 <= d < |s.callers| && d != c ==> !Holds(s.callers[d], pid)
  {
    forall d | 0 <= d < |s.callers| && d != c ensures !Holds(s.callers[d], pid) {
      assert CallerOk(s.patches, s.callers[d]) && PatchOk(s.patches[pid]);
    }
  }

  lemma {:induction false} HeldKept(s: State, s': State, c: nat, pid: Pid)
    requires Inv(s) && c < |s.callers| == |s'.callers| && |s'.patches| >= |s.patches|
    requires forall d :: 0 <= d < |s.callers| && d != c ==> s'.callers[d] == s.callers[d]
    requires forall q :: 0 <= q < |s'.patches| && q != pid && s'.patches[q].status.Processing? ==>
      q < |s.patches| && s.patches[q].status.Processing? && !Holds(s.callers[c], q)
    requires pid < |s'.patches| && s'.patches[pid].status.Processing? ==> Holds(s'.callers[c], pid)
    ensures forall q :: 0 <= q < |s'.patches| && s'.patches[q].status.Processing? ==> Held(s', q)
  {
    forall q | 0 <= q < |s'.patches| && s'.patches[q].status.Processing? ensures Held(s', q) {
      if q != pid {
        var d :| 0 <= d < |s.callers| && Holds(s.callers[d], q);
        assert Holds(s'.callers[d], q);
      }
    }
  }

  /** Steps of a caller that holds no patch, neither before nor after: they touch no patch already queued. */
  lemma {:induction false} OtherKeepsInv(s: State, c: nat, s': State)
    requires Inv(s) && c < |s.callers| == |s'.callers| && Free(s.callers[c]) && Free(s'.callers[c])
    requires s'.callers == s.callers[c := s'.callers[c]] && (s'.patches == s.patches || s'.patches == s.patches + [Traced(Pending, 0, [])])
    ensures Inv(s')
  {
    assert PatchOk(Traced(Pending, 0, []));
    forall d | 0 <= d < |s'.callers| ensures CallerOk(s'.patches, s'.callers[d]) {
      if d != c { assert CallerOk(s.patches, s.callers[d]); }
    }
    HeldKept(s, s', c, |s'.patches|);
  }

  lemma {:induction false} InvKept(depth: nat, s: State, e: Step)
    requires Inv(s) && Enabled(depth, s, e)
    ensures Inv(Apply(depth, s, e))
  {
    var s' := Apply(depth, s, e);
    if e.BeginEnqueue? || e.Append? || e.Save? || e.Drop? {
      OtherKeepsInv(s, e.c, s');
    } else {
      var pid := if e.Claim? then NextPending(s.patches, 0) else s.callers[e.c].pid;
      assert PatchOk(s.patches[pid]) && CallerOk(s.patches, s.callers[e.c]);
      var p' := s'.patches[pid];
      PutKeepsInv(s, e.c, pid, p'.status, p'.retries, p'.log[|s.patches[pid].log|], s'.callers[e.c]);
    }
  }

  // ---- Every run ------------------------------------------------------------------------------------

  predicate Initial(s: State) { s.patches == [] && s.redis == Redis({}, {}, {}) && forall c <- s.callers :: c.Idle? }

  ghost predicate IsRun(depth: nat, steps: seq<Step>, states: seq<State>) {
    && |states| == |steps| + 1 && Initial(states[0])
    && forall k :: 0 <= k < |steps| ==> Enabled(depth, states[k], steps[k]) && states[k + 1] == Apply(depth, states[k], steps[k])
  }

  lemma {:induction false} InitialHoldsInv(s: State)
    requires Initial(s)
    ensures Inv(s) && forall c :: 0 <= c < |s.callers| ==> s.callers[c].Idle?
  {
    assert forall c :: 0 <= c < |s.callers| ==> s.callers[c] in s.callers;
  }

  lemma {:induction false} RunKeepsInv(depth: nat, steps: seq<Step>, states: seq<State>, k: nat)
    requires IsRun(depth, steps, states) && k <= |steps|
    ensures Inv(states[k])
  {
    if k == 0 {
      InitialHoldsInv(states[0]);
    } else {
      RunKeepsInv(depth, steps, states, k - 1);
      InvKept(depth, states[k - 1], steps[k - 1]);
    }
  }

  /** In every state of every run: no patch has two holders, no patch has been sent to the live
      workspace twice, and an applied patch was last claimed, found clear and accepted twice. */
  lemma {:induction false} RunsAreSafe(depth: nat, steps: seq<Step>, states: seq<State>, k: nat, pid: Pid)
    requires IsRun(depth, steps, states) && k <= |steps| && pid < |states[k].patches|
    ensures OneHolder(states[k])
    ensures states[k].patches[pid].status.Processing? <==> Held(states[k], pid)
    ensures LiveCalls(states[k].patches[pid].log) <= 1
    ensures states[k].patches[pid].status.Applied? <==> EndsWith(states[k].patches[pid].log, [Claimed, Clear, SandboxOk, LiveOk])
    ensures states[k].patches[pid].status.Pending? ==> states[k].patches[pid].retries < MAX_RETRIES
  {
    RunKeepsInv(depth, steps, states, k);
    assert PatchOk(states[k].patches[pid]);
    LiveAtMostOnce(states[k].patches[pid].log);
    AppliedHistory(states[k].patches[pid].log);
    RetriesBound(states[k].patches[pid].log);
    if c :| 0 <= c < |states[k].callers| && Holds(states[k].callers[c], pid) {
      assert CallerOk(states[k].patches, states[k].callers[c]);
    }
  }

  lemma {:induction false} RetriesBound(log: seq<Event>)
    requires !Replay(log).0.Impossible?
    ensures !Replay(log).0.Ended? ==> Replay(log).1 < MAX_RETRIES
  {
    if log != [] { RetriesBound(log[..|log| - 1]); }
  }

  lemma {:induction false} FinalUntouched(depth: nat, s: State, e: Step, pid: Pid)
    requires Inv(s) && Enabled(depth, s, e) && pid < |s.patches| && Final(s.patches[pid].status)
    ensures pid < |Apply(depth, s, e).patches| && Apply(depth, s, e).patches[pid] == s.patches[pid]
  {
    assert PatchOk(s.patches[pid]) && CallerOk(s.patches, s.callers[e.c]);
    assert Replay(s.patches[pid].log).0.Ended?;
    assert !Holds(s.callers[e.c], pid);
  }

  /** Applied, rejected and conflict are final: no later step touches such a patch. */
  lemma {:induction false} SettledForGood(depth: nat, steps: seq<Step>, states: seq<State>, k: nat, later: nat, pid: Pid)
    requires IsRun(depth, steps, states) && k <= later <= |steps| && pid < |states[k].patches|
    requires Final(states[k].patches[pid].status)
    ensures pid < |states[later].patches| && states[later].patches[pid] == states[k].patches[pid]
  {
    if k < later {
      SettledForGood(depth, steps, states, k, later - 1, pid);
      RunKeepsInv(depth, steps, states, later - 1);
      FinalUntouched(depth, states[later - 1], steps[later - 1], pid);
    }
  }

  // ---- The saved keys under concurrency ---------------------------------------------------------------

  /** Each patch in `duties`, and no other, is some one caller's duty, which shows in the caller's state. */
  ghost predicate OneEach(duties: set<Pid>, callers: seq<Caller>, duty: Pid -> Caller) {
    && (forall pid :: pid in duties <==> duty(pid) in callers)
    && (forall c, d, pid :: 0 <= c < d < |callers| && callers[c] == duty(pid) ==> callers[d] != duty(pid))
  }

  lemma {:induction false} DutySame(duties: set<Pid>, callers: seq<Caller>, duty: Pid -> Caller, c: nat, next: Caller)
    requires OneEach(duties, callers, duty) && c < |callers| && forall pid :: callers[c] != duty(pid) && next != duty(pid)
    ensures OneEach(duties, callers[c := next], duty)
  {
    forall pid ensures duty(pid) in callers <==> duty(pid) in callers[c := next] { Replaced(callers, c, next, duty(pid)); }
  }

  lemma {:induction false} DutyTaken(duties: set<Pid>, callers: seq<Caller>, duty: Pid -> Caller, c: nat, pid: Pid)
    requires OneEach(duties, callers, duty) && c < |callers| && pid !in duties
    requires (forall q :: callers[c] != duty(q)) && forall q :: duty(q) == duty(pid) ==> q == pid
    ensures OneEach(duties + {pid}, callers[c := duty(pid)], duty)
  {
    forall q ensures duty(q) in callers[c := duty(pid)] <==> q == pid || duty(q) in callers { Replaced(callers, c, duty(pid), duty(q)); }
  }

  lemma {:induction false} DutyDone(duties: set<Pid>, callers: seq<Caller>, duty: Pid -> Caller, c: nat, pid: Pid, next: Caller)
    requires OneEach(duties, callers, duty) && c < |callers| && callers[c] == duty(pid)
    requires (forall q :: next != duty(q)) && forall q :: duty(q) == duty(pid) ==> q == pid
    ensures OneEach(duties - {pid}, callers[c := next], duty)
  {
    forall q ensures duty(q) in callers[c := next] <==> q != pid && duty(q) in callers {
      Replaced(callers, c, next, duty(q));
    }
  }

  /** Where a state is found after one caller has moved on. */
  lemma {:induction false} Replaced(callers: seq<Caller>, c: nat, next: Caller, x: Caller)
    requires c < |callers|
    ensures x in callers[c := next] <==> x == next || exists d :: 0 <= d < |callers| && d != c && callers[d] == x
    ensures x in callers <==> x == callers[c] || exists d :: 0 <= d < |callers| && d != c && callers[d] == x
  {
    if x == next { assert callers[c := next][c] == x; }
    if d :| 0 <= d < |callers| && d != c && callers[d] == x { assert callers[c := next][d] == x; }
    if x in callers[c := next] && x != next { var d :| 0 <= d < |callers| && callers[c := next][d] == x; }
    if x in callers && x != callers[c] { var d :| 0 <= d < |callers| && callers[d] == x; }
  }

  function Unsaved(s: State): set<Pid> { set pid: Pid | pid < |s.patches| && pid !in s.redis.saved }

  /** Settled, with the key still to be deleted. */
  function Undropped(s: State): set<Pid> { set pid: Pid | pid < |s.patches| && Final(s.patches[pid].status) && pid !in s.redis.dropped }

  /** A key goes in when it is saved and out when it is dropped; it is dropped once its patch is settled. */
  ghost predicate KeysOk(s: State) {
    && (forall pid :: pid in s.redis.keys ==> pid in s.redis.saved)
    && (forall pid :: pid in s.redis.saved && pid !in s.redis.dropped ==> pid in s.redis.keys)
    && (forall pid :: pid in s.redis.saved ==> pid < |s.patches|)
    && (forall pid :: pid in s.redis.dropped ==> pid < |s.patches| && Final(s.patches[pid].status))
  }

  ghost predicate StoreInv(s: State) {
    OneEach(Unsaved(s), s.callers, (pid: Pid) => Saving(pid)) && OneEach(Undropped(s), s.callers, (pid: Pid) => Dropping(pid)) && KeysOk(s)
  }

  lemma {:induction false} InitialHoldsStore(s: State)
    requires Initial(s)
    ensures StoreInv(s)
  {
    InitialHoldsInv(s);
  }

  /** The caller's state before or after a step that has to do with neither saving nor dropping. */
  lemma {:induction false} NoDuty(callers: seq<Caller>, c: nat, next: Caller, unsaved: set<Pid>, undropped: set<Pid>)
    requires c < |callers| && !callers[c].Saving? && !callers[c].Dropping? && !next.Saving? && !next.Dropping?
    requires OneEach(unsaved, callers, (pid: Pid) => Saving(pid)) && OneEach(undropped, callers, (pid: Pid) => Dropping(pid))
    ensures OneEach(unsaved, callers[c := next], (pid: Pid) => Saving(pid)) && OneEach(undropped, callers[c := next], (pid: Pid) => Dropping(pid))
  {
    DutySame(unsaved, callers, (pid: Pid) => Saving(pid), c, next);
    DutySame(undropped, callers, (pid: Pid) => Dropping(pid), c, next);
  }

  /** A held patch that is not settled yet, or is, and then is the caller's to drop. */
  lemma {:induction false} PutKeepsStore(s: State, c: nat, pid: Pid, status: Status, retries: nat, e: Event, next: Caller)
    requires StoreInv(s) && c < |s.callers| && pid < |s.patches| && !s.callers[c].Saving? && !s.callers[c].Dropping?
    requires !Final(s.patches[pid].status) && if Final(status) then next == Dropping(pid) else !next.Saving? && !next.Dropping?
    ensures StoreInv(Put(s, c, pid, status, retries, e, next))
  {
    var t := Put(s, c, pid, status, retries, e, next);
    assert Unsaved(t) == Unsaved(s);
    if Final(status) {
      assert Undropped(t) == Undropped(s) + {pid};
      DutySame(Unsaved(s), s.callers, (q: Pid) => Saving(q), c, next);
      DutyTaken(Undropped(s), s.callers, (q: Pid) => Dropping(q), c, pid);
    } else {
      assert Undropped(t) == Undropped(s);
      NoDuty(s.callers, c, next, Unsaved(s), Undropped(s));
    }
  }

  lemma {:induction false} AppendKeepsStore(s: State, c: nat)
    requires StoreInv(s) && c < |s.callers| && s.callers[c].Hashing?
    ensures StoreInv(Apply(0, s, Append(c)))
  {
    var t := Apply(0, s, Append(c));
    assert Unsaved(t) == Unsaved(s) + {|s.patches|} && Undropped(t) == Undropped(s);
    DutyTaken(Unsaved(s), s.callers, (q: Pid) => Saving(q), c, |s.patches|);
    DutySame(Undropped(s), s.callers, (q: Pid) => Dropping(q), c, Saving(|s.patches|));
  }

  lemma {:induction false} SaveKeepsStore(s: State, c: nat)
    requires StoreInv(s) && c < |s.callers| && s.callers[c].Saving?
    ensures StoreInv(Apply(0, s, Save(c))) && s.callers[c].pid in Unsaved(s)
  {
    var t, pid := Apply(0, s, Save(c)), s.callers[c].pid;
    var duty := (q: Pid) => Saving(q);
    assert duty(pid) in s.callers;
    assert Unsaved(t) == Unsaved(s) - {pid} && Undropped(t) == Undropped(s);
    DutyDone(Unsaved(s), s.callers, duty, c, pid, Idle);
    DutySame(Undropped(s), s.callers, (q: Pid) => Dropping(q), c, Idle);
  }

  lemma {:induction false} DropKeepsStore(s: State, c: nat)
    requires StoreInv(s) && c < |s.callers| && s.callers[c].Dropping?
    ensures StoreInv(Apply(0, s, Drop(c))) && s.callers[c].pid in Undropped(s)
  {
    var t, pid := Apply(0, s, Drop(c)), s.callers[c].pid;
    var duty := (q: Pid) => Dropping(q);
    assert duty(pid) in s.callers;
    assert Unsaved(t) == Unsaved(s) && Undropped(t) == Undropped(s) - {pid};
    DutySame(Unsaved(s), s.callers, (q: Pid) => Saving(q), c, Idle);
    DutyDone(Undropped(s), s.callers, duty, c, pid, Idle);
  }

  lemma {:induction false} StoreKept(depth: nat, s: State, e: Step)
    requires Inv(s) && StoreInv(s) && Enabled(depth, s, e)
    ensures StoreInv(Apply(depth, s, e))
  {
    if e.Append? {
      AppendKeepsStore(s, e.c);
    } else if e.Save? {
      SaveKeepsStore(s, e.c);
    } else if e.Drop? {
      DropKeepsStore(s, e.c);
    } else if e.BeginEnqueue? {
      NoDuty(s.callers, e.c, Hashing, Unsaved(s), Undropped(s));
    } else {
      var pid := if e.Claim? then NextPending(s.patches, 0) else s.callers[e.c].pid;
      assert PatchOk(s.patches[pid]) && CallerOk(s.patches, s.callers[e.c]);
      var t := Apply(depth, s, e);
      PutKeepsStore(s, e.c, pid, t.patches[pid].status, t.patches[pid].retries, t.patches[pid].log[|s.patches[pid].log|], t.callers[e.c]);
    }
  }

  lemma {:induction false} RunKeepsStore(depth: nat, steps: seq<Step>, states: seq<State>, k: nat)
    requires IsRun(depth, steps, states) && k <= |steps|
    ensures Inv(states[k]) && StoreInv(states[k])
  {
    RunKeepsInv(depth, steps, states, k);
    if k == 0 {
      InitialHoldsStore(states[0]);
    } else {
      RunKeepsStore(depth, steps, states, k - 1);
      StoreKept(depth, states[k - 1], steps[k - 1]);
    }
  }

  /** Step `j` saves the key of patch `pid`, which has been deleted before. */
  ghost predicate SavedLate(steps: seq<Step>, states: seq<State>, j: nat, pid: Pid) {
    && j < |steps| && j < |states| && steps[j].Save? && steps[j].c < |states[j].callers|
    && states[j].callers[steps[j].c] == Saving(pid) && pid in states[j].redis.dropped
  }

  /** A key that is there although it was deleted was saved late. */
  lemma {:induction false} StaleKey(depth: nat, steps: seq<Step>, states: seq<State>, k: nat, pid: Pid)
    requires IsRun(depth, steps, states) && k <= |steps|
    ensures pid in states[k].redis.keys && pid in states[k].redis.dropped <==> exists j :: 0 <= j < k && SavedLate(steps, states, j, pid)
  {
    if k > 0 {
      var s, e := states[k - 1], steps[k - 1];
      StaleKey(depth, steps, states, k - 1, pid);
      RunKeepsStore(depth, steps, states, k - 1);
      if e.Save? { SaveKeepsStore(s, e.c); }
      if e.Drop? { DropKeepsStore(s, e.c); }
      NewlyStale(depth, s, e, pid);
      assert states[k] == Apply(depth, s, e);
      if j :| 0 <= j < k && SavedLate(steps, states, j, pid) && j < k - 1 { assert 0 <= j < k - 1; }
      if Late(s, e, pid) { assert SavedLate(steps, states, k - 1, pid); }
    }
  }

  predicate Late(s: State, e: Step, pid: Pid) {
    e.Save? && e.c < |s.callers| && s.callers[e.c] == Saving(pid) && pid in s.redis.dropped
  }

  lemma {:induction false} NewlyStale(depth: nat, s: State, e: Step, pid: Pid)
    requires StoreInv(s) && Enabled(depth, s, e)
    requires e.Save? ==> s.callers[e.c].pid in Unsaved(s)
    requires e.Drop? ==> s.callers[e.c].pid in Undropped(s)
    ensures var t := Apply(depth, s, e).redis;
            pid in t.keys && pid in t.dropped <==> (pid in s.redis.keys && pid in s.redis.dropped) || Late(s, e, pid)
  {
  }

  predicate AllIdle(s: State) { forall c :: 0 <= c < |s.callers| ==> s.callers[c].Idle? }

  /** Between calls the saved keys are those of the unsettled patches, except for those saved late. */
  lemma {:induction false} IdleKeys(s: State)
    requires Inv(s) && StoreInv(s) && AllIdle(s)
    ensures forall pid: Pid :: pid < |s.patches| ==> pid in s.redis.saved && !s.patches[pid].status.Processing?
    ensures forall pid: Pid :: pid < |s.patches| ==> (Final(s.patches[pid].status) <==> pid in s.redis.dropped)
  {
    forall pid: Pid | pid < |s.patches|
      ensures pid in s.redis.saved && !s.patches[pid].status.Processing? && (Final(s.patches[pid].status) <==> pid in s.redis.dropped)
    {
      var saving, dropping := (q: Pid) => Saving(q), (q: Pid) => Dropping(q);
      assert pid in Unsaved(s) <==> saving(pid) in s.callers;
      assert pid in Undropped(s) <==> dropping(pid) in s.callers;
    }
  }

  /** The key of a patch is there exactly while the patch is unsettled. */
  ghost predicate KeyRight(s: State, pid: Pid) {
    pid in s.redis.keys <==> pid < |s.patches| && !Final(s.patches[pid].status)
  }

  ghost predicate NeverLate(steps: seq<Step>, states: seq<State>, k: nat, pid: Pid) {
    forall j: nat :: j < k ==> !SavedLate(steps, states, j, pid)
  }

  /** Whenever no call is under way, the saved keys are exactly those of the unsettled patches if and only
      if no enqueue has saved its patch after another caller had settled it and deleted its key. */
  lemma {:induction false} KeysMatchUnlessLate(depth: nat, steps: seq<Step>, states: seq<State>, k: nat)
    requires IsRun(depth, steps, states) && k <= |steps| && AllIdle(states[k])
    ensures forall pid: Pid :: KeyRight(states[k], pid) <==> NeverLate(steps, states, k, pid)
    ensures (forall pid: Pid :: KeyRight(states[k], pid)) <==> forall pid: Pid :: NeverLate(steps, states, k, pid)
  {
    RunKeepsStore(depth, steps, states, k);
    IdleKeys(states[k]);
    forall pid: Pid ensures KeyRight(states[k], pid) <==> NeverLate(steps, states, k, pid) {
      StaleKey(depth, steps, states, k, pid);
    }
  }

  /** Two callers: the second settles the first's patch before the first has saved it. */
  lemma {:induction false} SettledBeforeSaved(s0: State)
    requires s0 == State([], [Idle, Idle], Redis({}, {}, {}))
    ensures
      var s1 := Apply(1, s0, BeginEnqueue(0));
      var s2 := Apply(1, s1, Append(0));
      var s3 := Apply(1, s2, Claim(1));
      var s4 := Apply(1, s3, Check(1, false));
      var s5 := Apply(1, s4, Sandbox(1, true));
      var s6 := Apply(1, s5, Live(1, true));
      var s7 := Apply(1, s6, Drop(1));
      var s8 := Apply(1, s7, Save(0));
      AllIdle(s8) && s8.patches[0].status.Applied? && s8.redis.keys == {0}
  {
  }

  // ---- The depth limit under concurrency --------------------------------------------------------------

  function Hashers(callers: seq<Caller>): nat {
    if callers == [] then 0 else Hashers(callers[..|callers| - 1]) + if callers[|callers| - 1].Hashing? then 1 else 0
  }

  lemma {:induction false} HashersUpdate(callers: seq<Caller>, c: nat, next: Caller)
    requires c < |callers|
    ensures Hashers(callers[c := next]) == Hashers(callers) - (if callers[c].Hashing? then 1 else 0) + (if next.Hashing? then 1 else 0)
    ensures Hashers(callers) <= |callers|
  {
    var init, last := callers[..|callers| - 1], |callers| - 1;
    if c < last {
      HashersUpdate(init, c, next);
      assert callers[c := next][..last] == init[c := next];
    } else {
      HashersBound(init);
      assert callers[c := next][..last] == init;
    }
  }

  lemma {:induction false} HashersBound(callers: seq<Caller>)
    ensures Hashers(callers) <= |callers|
    ensures (forall c <- callers :: !c.Hashing?) ==> Hashers(callers) == 0
  {
    if callers != [] { HashersBound(callers[..|callers| - 1]); }
  }

  /** The depth is checked under one lock and the patch appended under another, so `n` callers can
      take the queue up to n - 1 beyond the limit, and no further. */
  lemma {:induction false} DepthBound(depth: nat, steps: seq<Step>, states: seq<State>, k: nat)
    requires IsRun(depth, steps, states) && k <= |steps| && depth > 0
    ensures |states[k].callers| == |states[0].callers|
    ensures |states[k].patches| + Hashers(states[k].callers) <= depth - 1 + |states[0].callers|
  {
    if k == 0 {
      HashersBound(states[0].callers);
    } else {
      DepthBound(depth, steps, states, k - 1);
      var s, s' := states[k - 1], states[k];
      HashersUpdate(s.callers, steps[k - 1].c, s'.callers[steps[k - 1].c]);
      assert s'.callers == s.callers[steps[k - 1].c := s'.callers[steps[k - 1].c]];
      HashersBound(s'.callers);
    }
  }

  /** With a limit of zero nothing is ever queued. */
  lemma {:induction false} NothingQueued(steps: seq<Step>, states: seq<State>, k: nat)
    requires IsRun(0, steps, states) && k <= |steps|
    ensures states[k].patches == [] && forall c :: 0 <= c < |states[k].callers| ==> states[k].callers[c].Idle?
  {
    if k > 0 { NothingQueued(steps, states, k - 1); }
  }

  ghost predicate IsRunTo(depth: nat, n: nat, steps: seq<Step>, states: seq<State>, s: State) {
    IsRun(depth, steps, states) && |states[0].callers| == n && states[|steps|] == s
  }

  /** Some run of `n` callers ends in `s`. */
  ghost predicate Reaches(depth: nat, n: nat, s: State) {
    exists steps, states :: IsRunTo(depth, n, steps, states, s)
  }

  lemma {:induction false} ReachesStart(depth: nat, n: nat)
    ensures Reaches(depth, n, State([], seq(n, _ => Idle), Redis({}, {}, {})))
  {
    assert IsRunTo(depth, n, [], [State([], seq(n, _ => Idle), Redis({}, {}, {}))], State([], seq(n, _ => Idle), Redis({}, {}, {})));
  }

  lemma {:induction false} ReachesNext(depth: nat, n: nat, s: State, e: Step)
    requires Reaches(depth, n, s) && Enabled(depth, s, e)
    ensures Reaches(depth, n, Apply(depth, s, e))
  {
    var steps, states :| IsRunTo(depth, n, steps, states, s);
    RunExtends(depth, steps, states, e);
    assert IsRunTo(depth, n, steps + [e], states + [Apply(depth, s, e)], Apply(depth, s, e));
  }

  lemma {:induction false} RunExtends(depth: nat, steps: seq<Step>, states: seq<State>, e: Step)
    requires IsRun(depth, steps, states) && Enabled(depth, states[|steps|], e)
    ensures IsRun(depth, steps + [e], states + [Apply(depth, states[|steps|], e)])
  {
    var steps', states' := steps + [e], states + [Apply(depth, states[|steps|], e)];
    forall k | 0 <= k < |steps'| ensures Enabled(depth, states'[k], steps'[k]) && states'[k + 1] == Apply(depth, states'[k], steps'[k]) {
      if k < |steps| { assert Enabled(depth, states[k], steps[k]) && states[k + 1] == Apply(depth, states[k], steps[k]); }
    }
  }

  /** `hashing` callers hash, the others idle. */
  function Crowd(hashing: nat, n: nat): seq<Caller> {
    seq(n, c => if 0 <= c < hashing then Hashing else Idle)
  }

  function UpTo(count: nat): set<Pid> { if count == 0 then {} else UpTo(count - 1) + {count - 1} }

  /** A queue of `count` patches, all of them saved and pending. */
  function Filled(count: nat, hashing: nat, n: nat): State {
    State(seq(count, _ => Traced(Pending, 0, [])), Crowd(hashing, n), Redis(UpTo(count), {}, UpTo(count)))
  }

  lemma {:induction false} ReachesBegin(depth: nat, n: nat, count: nat, c: nat)
    requires c < n && count < depth && Reaches(depth, n, Filled(count, c, n))
    ensures Reaches(depth, n, Filled(count, c + 1, n))
  {
    ReachesNext(depth, n, Filled(count, c, n), BeginEnqueue(c));
    assert Apply(depth, Filled(count, c, n), BeginEnqueue(c)) == Filled(count, c + 1, n);
  }

  lemma {:induction false} ReachesSaved(depth: nat, n: nat, count: nat, c: nat)
    requires c < n && Reaches(depth, n, Filled(count, c + 1, n))
    ensures Reaches(depth, n, Filled(count + 1, c, n))
  {
    var s := Filled(count, c + 1, n);
    ReachesNext(depth, n, s, Append(c));
    var t := Apply(depth, s, Append(c));
    ReachesNext(depth, n, t, Save(c));
    assert Apply(depth, t, Save(c)) == Filled(count + 1, c, n);
  }

  /** One caller fills the queue up to the last place. */
  lemma {:induction false} FillUp(depth: nat, n: nat, count: nat)
    requires n >= 1 && count < depth
    ensures Reaches(depth, n, Filled(count, 0, n))
  {
    if count == 0 {
      ReachesStart(depth, n);
      assert Filled(0, 0, n) == State([], seq(n, _ => Idle), Redis({}, {}, {}));
    } else {
      FillUp(depth, n, count - 1);
      ReachesBegin(depth, n, count - 1, 0);
      ReachesSaved(depth, n, count - 1, 0);
    }
  }

  /** Then callers begin, each finding one place left. */
  lemma {:induction false} AllBegin(depth: nat, n: nat, hashing: nat)
    requires n >= 1 && depth >= 1 && hashing <= n
    ensures Reaches(depth, n, Filled(depth - 1, hashing, n))
  {
    if hashing == 0 {
      FillUp(depth, n, depth - 1);
    } else {
      AllBegin(depth, n, hashing - 1);
      ReachesBegin(depth, n, depth - 1, hashing - 1);
    }
  }

  /** And all of them append. */
  lemma {:induction false} AllAppend(depth: nat, n: nat, left: nat)
    requires n >= 1 && depth >= 1 && left <= n
    ensures Reaches(depth, n, Filled(depth - 1 + (n - left), left, n))
    decreases n - left
  {
    if left == n {
      AllBegin(depth, n, n);
    } else {
      AllAppend(depth, n, left + 1);
      ReachesSaved(depth, n, depth - 1 + (n - left - 1), left);
    }
  }

  /** `n` callers do get the queue n - 1 patches beyond the limit, whatever the limit. */
  lemma {:induction false} DepthReached(depth: nat, n: nat)
    requires n >= 1 && depth >= 1
    ensures exists s :: Reaches(depth, n, s) && |s.patches| == depth - 1 + n
  {
    AllAppend(depth, n, 0);
    assert |Filled(depth - 1 + n, 0, n).patches| == depth - 1 + n;
  }

  /** The limit holds in all runs exactly when at most one caller enqueues, or when nothing may be queued
      at all. */
  lemma {:induction false} DepthHeld(depth: nat, n: nat)
    ensures (forall s :: Reaches(depth, n, s) ==> |s.patches| <= depth) <==> n <= 1 || depth == 0
  {
    forall s | Reaches(depth, n, s) ensures depth == 0 || |s.patches| <= depth - 1 + n
                                    ensures depth == 0 ==> s.patches == []
    {
      var steps, states :| IsRunTo(depth, n, steps, states, s);
      if depth == 0 { NothingQueued(steps, states, |steps|); } else { DepthBound(depth, steps, states, |steps|); }
    }
    if n > 1 && depth >= 1 { DepthReached(depth, n); }
  }

  /** Two callers, a limit of one, and two patches queued. */
  lemma {:induction false} DepthExceeded()
    ensures exists s :: Reaches(1, 2, s) && |s.patches| == 2
  {
    DepthReached(1, 2);
  }
}
