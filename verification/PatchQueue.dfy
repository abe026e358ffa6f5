/** PatchQueue run by one caller at a time: enqueue, process_next, process_all and test_fix_loop, with
    the patch records kept in Redis. Executor answers, file contents and agent output are inputs. */
module PatchQueue {
  import opened Text
  import Plans
  import Diffs

  const MAX_RETRIES: nat := 2

  /** Patch ids, in the order they were drawn; the original draws them at random. */
  type Pid = nat
  type Session = string

  datatype Hash = New | Sha(hex: string)

  datatype Status = Pending | Processing | Applied | Rejected | Conflict

  datatype Patch = Patch(session: Session, diff: string, baseline: map<string, Hash>, status: Status, retries: nat)

  /** What one call of the executor comes to; `Error` is an exception. */
  datatype Reply = Ok | Refused | Error

  /** What the outside answers during one _apply_patch: the hashes of the readable files, and the
      sandbox and live replies. */
  datatype Answers = Answers(disk: map<string, Hash>, sandbox: Reply, live: Reply)

  datatype Action = DidApply | DidReject | DidFail | Requeued | NeedsReview

  // ---- File hashes ------------------------------------------------------------------------------

  /** A file that cannot be read counts as new. */
  function Current(disk: map<string, Hash>, path: string): Hash {
    if path in disk then disk[path] else New
  }

  predicate Conflicts(baseline: map<string, Hash>, disk: map<string, Hash>) {
    exists path <- baseline.Keys :: Current(disk, path) != baseline[path]
  }

  method SnapshotFileHashes(paths: seq<string>, disk: map<string, Hash>) returns (hashes: map<string, Hash>)
    ensures forall path :: path in hashes <==> path in paths
    ensures forall path :: path in hashes ==> hashes[path] == Current(disk, path)
  {
    hashes := map[];
    for i := 0 to |paths|
      invariant forall path :: path in hashes <==> path in paths[..i]
      invariant forall path :: path in hashes ==> hashes[path] == Current(disk, path)
    {
      hashes := hashes[paths[i] := if paths[i] in disk then disk[paths[i]] else New];
    }
  }

  method CheckConflict(patch: Patch, disk: map<string, Hash>) returns (conflict: bool)
    ensures conflict <==> Conflicts(patch.baseline, disk)
  {
    var left := patch.baseline.Keys;
    while left != {}
      invariant left <= patch.baseline.Keys
      invariant forall path :: path in patch.baseline.Keys - left ==> Current(disk, path) == patch.baseline[path]
      decreases left
    {
      var path :| path in left;
      if (if path in disk then disk[path] else New) != patch.baseline[path] { return true; }
      left := left - {path};
    }
    return false;
  }

  // ---- One application --------------------------------------------------------------------------

  /** What _apply_patch makes of a patch. */
  function Outcome(p: Patch, a: Answers): (Patch, Action) {
    if Conflicts(p.baseline, a.disk) then
      var tried := p.(retries := p.retries + 1);
      if tried.retries >= MAX_RETRIES then (tried.(status := Conflict), NeedsReview) else (tried.(status := Pending), Requeued)
    else if a.sandbox.Ok? && a.live.Ok? then (p.(status := Applied), DidApply)
    else (p.(status := Rejected), if a.sandbox.Error? || (a.sandbox.Ok? && a.live.Error?) then DidFail else DidReject)
  }

  /** What an application means for the caller. A file in the way puts the patch back once, and then makes it
      a conflict; otherwise it is applied if both replies are good, and rejected with the word of the first
      that is not. */
  lemma {:induction false} OutcomeMeaning(p: Patch, a: Answers)
    ensures
      var (after, action) := Outcome(p, a);
      var conflict := exists path :: path in p.baseline && p.baseline[path] != (if path in a.disk then a.disk[path] else New);
      && after.session == p.session && after.diff == p.diff && after.baseline == p.baseline
      && after.retries == (if conflict then p.retries + 1 else p.retries)
      && (action == Requeued <==> conflict && p.retries == 0) && (action == Requeued <==> after.status.Pending?)
      && (action == NeedsReview <==> conflict && p.retries >= 1) && (action == NeedsReview <==> after.status.Conflict?)
      && (action == DidApply <==> !conflict && a.sandbox == Ok && a.live == Ok) && (action == DidApply <==> after.status.Applied?)
      && (action == DidReject <==> !conflict && (a.sandbox == Refused || (a.sandbox == Ok && a.live == Refused)))
      && (action == DidFail <==> !conflict && (a.sandbox == Error || (a.sandbox == Ok && a.live == Error)))
      && (action == DidReject || action == DidFail <==> after.status.Rejected?)
  {
    if path :| path in p.baseline && p.baseline[path] != (if path in a.disk then a.disk[path] else New) {
      assert path in p.baseline.Keys && Current(a.disk, path) != p.baseline[path];
    }
  }

  predicate Final(s: Status) { s.Applied? || s.Rejected? || s.Conflict? }

  // ---- All applications of one process_all --------------------------------------------------------

  /** The successive states of one pending patch; `answers(c)` is what call number `c` is answered. */
  function Attempts(p: Patch, answers: nat -> Answers, c: nat): (states: seq<Patch>)
    decreases p.status.Pending?, if p.retries < MAX_RETRIES then MAX_RETRIES - p.retries else 0
  {
    if !p.status.Pending? then []
    else
      var next := Outcome(p, answers(c)).0;
      [next] + Attempts(next, answers, c + 1)
  }

  /** A pending patch is settled after at most MAX_RETRIES - retries calls, all but the last of which
      put it back. */
  lemma {:induction false} AttemptsEnd(p: Patch, answers: nat -> Answers, c: nat)
    requires p.status.Pending? && p.retries < MAX_RETRIES
    ensures
      var states := Attempts(p, answers, c);
      && 1 <= |states| <= MAX_RETRIES - p.retries
      && Final(states[|states| - 1].status)
      && forall k :: 0 <= k < |states| - 1 ==> states[k].status.Pending?
    decreases MAX_RETRIES - p.retries
  {
    var next := Outcome(p, answers(c)).0;
    if next.status.Pending? {
      AttemptsEnd(next, answers, c + 1);
    } else {
      assert Attempts(next, answers, c + 1) == [];
    }
  }

  datatype Call = Call(pid: Pid, after: Patch)

  function Tag(pid: Pid, states: seq<Patch>): seq<Call> {
    seq(|states|, k requires 0 <= k < |states| => Call(pid, states[k]))
  }

  function AttemptsOn(pid: Pid, patches: map<Pid, Patch>, answers: nat -> Answers, c: nat): seq<Patch> {
    if pid in patches then Attempts(patches[pid], answers, c) else []
  }

  /** All calls of process_all: patch after patch in queue order, each until it is settled. */
  function Drain(queue: seq<Pid>, patches: map<Pid, Patch>, answers: nat -> Answers, c: nat): seq<Call>
    decreases queue, 1
  {
    if queue == [] then [] else DrainAfter(queue, patches, answers, c, AttemptsOn(queue[0], patches, answers, c))
  }

  /** The same, given the successive states of the first patch. */
  function DrainAfter(queue: seq<Pid>, patches: map<Pid, Patch>, answers: nat -> Answers, c: nat, states: seq<Patch>): seq<Call>
    requires queue != []
    decreases queue, 0
  {
    Tag(queue[0], states) + Drain(queue[1..], patches, answers, c + |states|)
  }

  /** `patches`, where `pid` has gone through `states`. */
  function After(patches: map<Pid, Patch>, pid: Pid, states: seq<Patch>): map<Pid, Patch> {
    if states == [] then patches else patches[pid := states[|states| - 1]]
  }

  /** The patches once all those calls are over. */
  function Drained(queue: seq<Pid>, patches: map<Pid, Patch>, answers: nat -> Answers, c: nat): map<Pid, Patch>
    decreases queue, 1
  {
    if queue == [] then patches else DrainedAfter(queue, patches, answers, c, AttemptsOn(queue[0], patches, answers, c))
  }

  function DrainedAfter(queue: seq<Pid>, patches: map<Pid, Patch>, answers: nat -> Answers, c: nat, states: seq<Patch>): map<Pid, Patch>
    requires queue != []
    decreases queue, 0
  {
    Drained(queue[1..], After(patches, queue[0], states), answers, c + |states|)
  }

  function FirstPending(queue: seq<Pid>, patches: map<Pid, Patch>): (pid: int)
    ensures pid >= -1
    ensures pid >= 0 ==> pid in queue && pid in patches && patches[pid].status.Pending?
  {
    if queue == [] then -1
    else if queue[0] in patches && patches[queue[0]].status.Pending? then queue[0]
    else FirstPending(queue[1..], patches)
  }

  /** The first in the queue. */
  lemma {:induction false} FirstPendingMeaning(queue: seq<Pid>, patches: map<Pid, Patch>) returns (i: nat)
    requires FirstPending(queue, patches) >= 0
    ensures i < |queue| && queue[i] == FirstPending(queue, patches) && queue[i] in patches && patches[queue[i]].status.Pending?
    ensures forall j :: 0 <= j < i && queue[j] in patches ==> !patches[queue[j]].status.Pending?
  {
    if queue[0] in patches && patches[queue[0]].status.Pending? {
      i := 0;
    } else {
      i := FirstPendingMeaning(queue[1..], patches);
      assert forall j :: 1 <= j < i + 1 ==> queue[j] == queue[1..][j - 1];
      i := i + 1;
    }
  }

  lemma {:induction false} NoneFirst(queue: seq<Pid>, patches: map<Pid, Patch>)
    ensures FirstPending(queue, patches) == -1 <==> forall pid :: pid in queue && pid in patches ==> !patches[pid].status.Pending?
  {
    if queue != [] { NoneFirst(queue[1..], patches); }
  }

  lemma {:induction false} DrainFrame(queue: seq<Pid>, patches: map<Pid, Patch>, pid: Pid, p: Patch, answers: nat -> Answers, c: nat)
    requires pid !in queue
    ensures Drain(queue, patches[pid := p], answers, c) == Drain(queue, patches, answers, c)
  {
    if queue != [] {
      var states := AttemptsOn(queue[0], patches, answers, c);
      AttemptsFrame(queue[0], patches, pid, p, answers, c);
      DrainFrame(queue[1..], patches, pid, p, answers, c + |states|);
      assert DrainAfter(queue, patches[pid := p], answers, c, states) == DrainAfter(queue, patches, answers, c, states);
    }
  }

  lemma {:induction false} AttemptsFrame(head: Pid, patches: map<Pid, Patch>, pid: Pid, p: Patch, answers: nat -> Answers, c: nat)
    requires head != pid
    ensures AttemptsOn(head, patches[pid := p], answers, c) == AttemptsOn(head, patches, answers, c)
  {
  }

  lemma {:induction false} TagFirst(pid: Pid, next: Patch, more: seq<Patch>, tail: seq<Call>)
    ensures Tag(pid, [next] + more) + tail == [Call(pid, next)] + (Tag(pid, more) + tail)
  {
    assert Tag(pid, [next] + more) == [Call(pid, next)] + Tag(pid, more);
  }

  lemma {:induction false} AfterFirst(patches: map<Pid, Patch>, pid: Pid, next: Patch, more: seq<Patch>)
    ensures After(patches, pid, [next] + more) == After(patches[pid := next], pid, more)
  {
  }

  lemma {:induction false} AttemptsFirst(pid: Pid, patches: map<Pid, Patch>, answers: nat -> Answers, c: nat, next: Patch)
    requires pid in patches && patches[pid].status.Pending? && next == Outcome(patches[pid], answers(c)).0
    ensures AttemptsOn(pid, patches, answers, c) == [next] + AttemptsOn(pid, patches[pid := next], answers, c + 1)
  {
  }

  /** The head's first call leads to `next`, the others are `more`. */
  lemma {:induction false} DrainHead(queue: seq<Pid>, patches: map<Pid, Patch>, answers: nat -> Answers, c: nat, next: Patch, more: seq<Patch>)
    requires queue != [] && queue[0] !in queue[1..]
    requires AttemptsOn(queue[0], patches, answers, c) == [next] + more
    requires AttemptsOn(queue[0], patches[queue[0] := next], answers, c + 1) == more
    ensures Drain(queue, patches, answers, c) == [Call(queue[0], next)] + Drain(queue, patches[queue[0] := next], answers, c + 1)
    ensures Drained(queue, patches, answers, c) == Drained(queue, patches[queue[0] := next], answers, c + 1)
  {
    HeadOfDrain(queue, patches, answers, c, next, more);
  }

  lemma {:induction false} HeadOfDrain(queue: seq<Pid>, patches: map<Pid, Patch>, answers: nat -> Answers, c: nat, next: Patch, more: seq<Patch>)
    requires queue != [] && queue[0] !in queue[1..]
    ensures var after := patches[queue[0] := next];
            && DrainAfter(queue, patches, answers, c, [next] + more) == [Call(queue[0], next)] + DrainAfter(queue, after, answers, c + 1, more)
            && DrainedAfter(queue, patches, answers, c, [next] + more) == DrainedAfter(queue, after, answers, c + 1, more)
  {
    var end := c + 1 + |more|;
    assert c + |[next] + more| == end;
    DrainFrame(queue[1..], patches, queue[0], next, answers, end);
    TagFirst(queue[0], next, more, Drain(queue[1..], patches, answers, end));
    AfterFirst(patches, queue[0], next, more);
  }

  /** Processing the first pending patch takes the first call off the list. */
  lemma {:induction false} DrainStep(queue: seq<Pid>, patches: map<Pid, Patch>, answers: nat -> Answers, c: nat)
    requires Plans.Distinct(queue) && FirstPending(queue, patches) >= 0
    ensures
      var pid := FirstPending(queue, patches);
      var next := Outcome(patches[pid], answers(c)).0;
      && Drain(queue, patches, answers, c) == [Call(pid, next)] + Drain(queue, patches[pid := next], answers, c + 1)
      && Drained(queue, patches, answers, c) == Drained(queue, patches[pid := next], answers, c + 1)
  {
    var pid, rest := FirstPending(queue, patches), queue[1..];
    var next := Outcome(patches[pid], answers(c)).0;
    if queue[0] == pid {
      AttemptsFirst(pid, patches, answers, c, next);
      DrainHead(queue, patches, answers, c, next, AttemptsOn(pid, patches[pid := next], answers, c + 1));
    } else {
      DrainStep(rest, patches, answers, c);
      SkipHead(queue, patches, answers, c);
      SkipHead(queue, patches[pid := next], answers, c + 1);
    }
  }

  lemma {:induction false} SkipHead(queue: seq<Pid>, patches: map<Pid, Patch>, answers: nat -> Answers, c: nat)
    requires queue != [] && (queue[0] in patches ==> !patches[queue[0]].status.Pending?)
    ensures Drain(queue, patches, answers, c) == Drain(queue[1..], patches, answers, c)
    ensures Drained(queue, patches, answers, c) == Drained(queue[1..], patches, answers, c)
  {
    assert AttemptsOn(queue[0], patches, answers, c) == [];
  }

  lemma {:induction false} NothingToDrain(queue: seq<Pid>, patches: map<Pid, Patch>, answers: nat -> Answers, c: nat)
    requires FirstPending(queue, patches) == -1
    ensures Drain(queue, patches, answers, c) == [] && Drained(queue, patches, answers, c) == patches
  {
    if queue != [] {
      assert AttemptsOn(queue[0], patches, answers, c) == [];
      NothingToDrain(queue[1..], patches, answers, c);
    }
  }

  // ---- What those calls amount to -----------------------------------------------------------------

  /** The pending patches in queue order. */
  function PendingIn(queue: seq<Pid>, patches: map<Pid, Patch>): seq<Pid> {
    if queue == [] then []
    else if queue[0] in patches && patches[queue[0]].status.Pending? then [queue[0]] + PendingIn(queue[1..], patches)
    else PendingIn(queue[1..], patches)
  }

  /** The patches settled by `calls`, in the order they were. */
  function Settled(calls: seq<Call>): seq<Pid> {
    if calls == [] then []
    else if Final(calls[0].after.status) then [calls[0].pid] + Settled(calls[1..])
    else Settled(calls[1..])
  }

  /** The number of calls that concern `pid`. */
  function CallsOn(calls: seq<Call>, pid: Pid): nat {
    if calls == [] then 0 else (if calls[0].pid == pid then 1 else 0) + CallsOn(calls[1..], pid)
  }

  /** A pending patch has retries left. */
  ghost predicate Retryable(patches: map<Pid, Patch>) {
    forall pid :: pid in patches && patches[pid].status.Pending? ==> patches[pid].retries < MAX_RETRIES
  }

  lemma {:induction false} SettledConcat(a: seq<Call>, b: seq<Call>)
    ensures Settled(a + b) == Settled(a) + Settled(b)
  {
    if a == [] {
      assert a + b == b;
    } else {
      assert (a + b)[1..] == a[1..] + b;
      SettledConcat(a[1..], b);
    }
  }

  lemma {:induction false} CallsConcat(a: seq<Call>, b: seq<Call>, pid: Pid)
    ensures CallsOn(a + b, pid) == CallsOn(a, pid) + CallsOn(b, pid)
  {
    if a == [] {
      assert a + b == b;
    } else {
      assert (a + b)[1..] == a[1..] + b;
      CallsConcat(a[1..], b, pid);
    }
  }

  lemma {:induction false} TagSettles(pid: Pid, states: seq<Patch>)
    requires states != [] && Final(states[|states| - 1].status)
    requires forall k :: 0 <= k < |states| - 1 ==> states[k].status.Pending?
    ensures Settled(Tag(pid, states)) == [pid]
  {
    var calls := Tag(pid, states);
    assert calls[1..] == Tag(pid, states[1..]);
    if |states| > 1 {
      TagSettles(pid, states[1..]);
    } else {
      assert calls[1..] == [];
    }
  }

  lemma {:induction false} TagCalls(pid: Pid, states: seq<Patch>, other: Pid)
    ensures CallsOn(Tag(pid, states), other) == if pid == other then |states| else 0
  {
    if states != [] {
      assert Tag(pid, states)[1..] == Tag(pid, states[1..]);
      TagCalls(pid, states[1..], other);
    }
  }

  /** process_all settles the pending patches, each once, in enqueue order. */
  lemma {:induction false} DrainSettlesInOrder(queue: seq<Pid>, patches: map<Pid, Patch>, answers: nat -> Answers, c: nat)
    requires Retryable(patches)
    ensures Settled(Drain(queue, patches, answers, c)) == PendingIn(queue, patches)
  {
    if queue != [] {
      var pid, states := queue[0], AttemptsOn(queue[0], patches, answers, c);
      DrainSettlesInOrder(queue[1..], patches, answers, c + |states|);
      SettledConcat(Tag(pid, states), Drain(queue[1..], patches, answers, c + |states|));
      if pid in patches && patches[pid].status.Pending? {
        AttemptsEnd(patches[pid], answers, c);
        TagSettles(pid, states);
      } else {
        assert states == [] && Tag(pid, states) == [];
      }
    }
  }

  /** It calls for each pending patch at least once and at most MAX_RETRIES - retries times, and for no other. */
  lemma {:induction false} DrainCalls(queue: seq<Pid>, patches: map<Pid, Patch>, answers: nat -> Answers, c: nat, pid: Pid)
    requires Retryable(patches) && Plans.Distinct(queue)
    ensures
      var calls := CallsOn(Drain(queue, patches, answers, c), pid);
      if pid in queue && pid in patches && patches[pid].status.Pending? then 1 <= calls <= MAX_RETRIES - patches[pid].retries
      else calls == 0
  {
    if queue != [] {
      var head, rest := queue[0], queue[1..];
      CallsOnHead(queue, patches, answers, c, pid);
      HeadCalls(head, patches, answers, c);
      assert head !in rest && Plans.Distinct(rest) && queue == [head] + rest;
      DrainCalls(rest, patches, answers, c + |AttemptsOn(head, patches, answers, c)|, pid);
    }
  }

  lemma {:induction false} CallsOnHead(queue: seq<Pid>, patches: map<Pid, Patch>, answers: nat -> Answers, c: nat, pid: Pid)
    requires queue != []
    ensures var calls := |AttemptsOn(queue[0], patches, answers, c)|;
            CallsOn(Drain(queue, patches, answers, c), pid)
            == (if queue[0] == pid then calls else 0) + CallsOn(Drain(queue[1..], patches, answers, c + calls), pid)
  {
    var states := AttemptsOn(queue[0], patches, answers, c);
    CallsConcat(Tag(queue[0], states), Drain(queue[1..], patches, answers, c + |states|), pid);
    TagCalls(queue[0], states, pid);
  }

  lemma {:induction false} HeadCalls(pid: Pid, patches: map<Pid, Patch>, answers: nat -> Answers, c: nat)
    requires Retryable(patches)
    ensures var calls := |AttemptsOn(pid, patches, answers, c)|;
            if pid in patches && patches[pid].status.Pending? then 1 <= calls <= MAX_RETRIES - patches[pid].retries else calls == 0
  {
    if pid in patches && patches[pid].status.Pending? { AttemptsEnd(patches[pid], answers, c); }
  }

  /** process_all has made `calls` so far, on the way from `before` to `now`. */
  ghost predicate Underway(queue: seq<Pid>, before: map<Pid, Patch>, now: map<Pid, Patch>, answers: nat -> Answers, calls: seq<Call>) {
    && Drain(queue, before, answers, 0) == calls + Drain(queue, now, answers, |calls|)
    && Drained(queue, before, answers, 0) == Drained(queue, now, answers, |calls|)
  }

  lemma {:induction false} UnderwayStep(queue: seq<Pid>, before: map<Pid, Patch>, now: map<Pid, Patch>, answers: nat -> Answers, calls: seq<Call>)
    requires Plans.Distinct(queue) && Underway(queue, before, now, answers, calls) && FirstPending(queue, now) >= 0
    ensures
      var pid := FirstPending(queue, now);
      var next := Outcome(now[pid], answers(|calls|)).0;
      && Underway(queue, before, now[pid := next], answers, calls + [Call(pid, next)])
      && |Drain(queue, now[pid := next], answers, |calls| + 1)| < |Drain(queue, now, answers, |calls|)|
  {
    DrainStep(queue, now, answers, |calls|);
    var pid := FirstPending(queue, now);
    var next := Outcome(now[pid], answers(|calls|)).0;
    Regroup(calls, Call(pid, next), Drain(queue, now[pid := next], answers, |calls| + 1));
  }

  lemma {:induction false} Regroup(a: seq<Call>, x: Call, b: seq<Call>)
    ensures a + ([x] + b) == (a + [x]) + b && |[x] + b| == |b| + 1
  {}

  lemma {:induction false} Over(queue: seq<Pid>, before: map<Pid, Patch>, now: map<Pid, Patch>, answers: nat -> Answers, calls: seq<Call>)
    requires Underway(queue, before, now, answers, calls) && FirstPending(queue, now) == -1
    ensures calls == Drain(queue, before, answers, 0) && now == Drained(queue, before, answers, 0)
    ensures forall pid :: pid in queue && pid in now ==> !now[pid].status.Pending?
  {
    NothingToDrain(queue, now, answers, |calls|);
    NoneFirst(queue, now);
  }

  // ---- Persistence ------------------------------------------------------------------------------

  function Prefix(session: Session): string { "patches:" + (session + ":") }

  function KeyText(session: Session, name: string): string { Prefix(session) + name }

  /** The pattern patches:{session}:* that recovery lists keys by. */
  function Pattern(session: Session): string { Prefix(session) + "*" }

  /** Session ids without glob characters. */
  predicate Literal(s: string) { forall c <- s :: c != '*' && c != '?' && c != '[' && c != '\\' }

  /** Redis's matching of a pattern and a key; of its syntax only a final '*' matters here. */
  ghost predicate MatchesGlobs(glob: (string, string) -> bool) {
    forall prefix, text :: Literal(prefix) ==> (glob(prefix + "*", text) <==> StartsWith(text, prefix))
  }

  /** Patch names are drawn from the hexadecimal digits, and no two are the same. */
  ghost predicate ProperNames(name: Pid -> string) {
    && (forall pid :: ':' !in name(pid))
    && (forall pid, other :: name(pid) == name(other) ==> pid == other)
  }

  /** Session `other` is `session`, or its id goes on after `session` and a colon. */
  predicate Extends(session: Session, other: Session) { session == other || StartsWith(other, session + ":") }

  lemma {:induction false} SamePrefix(common: string, a: string, b: string)
    ensures StartsWith(common + b, common + a) <==> StartsWith(b, a)
  {
    if common + a <= common + b {
      assert (common + b)[|common|..] == b && (common + a)[|common|..] == a;
      assert (common + b)[..|common + a|][|common|..] == b[..|a|];
    }
    if a <= b { assert (common + b)[..|common + a|] == common + b[..|a|]; }
  }

  /** Session ids may hold colons, names do not. */
  lemma {:induction false} ColonPosition(session: string, other: string, name: string)
    requires ':' !in name
    ensures StartsWith((other + ":") + name, session + ":") <==> Extends(session, other)
  {
    var s, t := session + ":", (other + ":") + name;
    assert forall i :: |other| < i < |t| ==> t[i] == name[i - |other| - 1];
    if s <= t {
      assert s[|session|] == ':' == t[|session|];
      if |session| > |other| {
        assert false;
      } else if |session| == |other| {
        assert t[..|other|] == other && s[..|session|] == session;
      } else {
        assert t[..|s|] == other[..|s|];
      }
    }
    if session == other { assert t[..|s|] == s; }
    if s <= other { assert t[..|s|] == other[..|s|]; }
  }

  /** Which sessions' keys begin like those of `session`: for all ids, its own and those of the sessions
      whose ids go on after a colon. */
  lemma {:induction false} PrefixFinds(session: Session, other: Session, name: string)
    requires ':' !in name
    ensures StartsWith(KeyText(other, name), Prefix(session)) <==> Extends(session, other)
  {
    assert KeyText(other, name) == "patches:" + ((other + ":") + name);
    SamePrefix("patches:", session + ":", (other + ":") + name);
    ColonPosition(session, other, name);
  }

  /** Whatever the session ids, different patches have different keys. */
  lemma {:induction false} KeysDiffer(session: Session, other: Session, name: string, otherName: string)
    requires ':' !in name && ':' !in otherName
    ensures KeyText(session, name) == KeyText(other, otherName) <==> session == other && name == otherName
  {
    if KeyText(session, name) == KeyText(other, otherName) {
      assert KeyText(session, name)[..|Prefix(session)|] == Prefix(session);
      assert KeyText(other, otherName)[..|Prefix(other)|] == Prefix(other);
      PrefixFinds(session, other, otherName);
      PrefixFinds(other, session, name);
      assert KeyText(session, name)[|Prefix(session)|..] == name && KeyText(other, otherName)[|Prefix(other)|..] == otherName;
    }
  }

  /** The pattern of a session without glob characters finds the keys of another session's patches exactly
      when that session's id extends its own. */
  lemma {:induction false} PatternFinds(glob: (string, string) -> bool, session: Session, other: Session, name: string)
    requires MatchesGlobs(glob) && Literal(session) && ':' !in name
    ensures glob(Pattern(session), KeyText(other, name)) <==> Extends(session, other)
  {
    PrefixFinds(session, other, name);
    assert forall c <- "patches:" :: c != '*' && c != '?' && c != '[' && c != '\\';
    assert Literal(Prefix(session));
  }

  /** Recovering session "a" finds the patches of session "a:b". */
  lemma {:induction false} ColonsMix(glob: (string, string) -> bool, name: string)
    requires MatchesGlobs(glob) && ':' !in name
    ensures glob(Pattern("a"), KeyText("a:b", name))
  {
    PatternFinds(glob, "a", "a:b", name);
    assert "a:b"[..2] == "a:";
  }

  /** A key patches:{session}:{name of the patch} of Redis; by KeysDiffer its text determines it. */
  datatype Key = Key(session: Session, pid: Pid)

  // ---- The queue --------------------------------------------------------------------------------

  datatype Enqueued = Accepted(pid: Pid) | Invalid | Full

  /** A diff produced by a coder agent; `valid` is what validate_patch says of it. */
  datatype Fix = NoDiff | Fix(diff: string, valid: bool, disk: map<string, Hash>)

  /** The outside during one round of test_fix_loop. */
  datatype Round = Round(answers: Answers, testsPass: bool, fix: Fix)

  /** `pid` is the patch the answer describes: the last one applied, or tried. */
  datatype LoopResult = LoopResult(action: Action, pid: Pid, testPassed: bool, attempts: nat)

  ghost predicate WellFormed(queue: seq<Pid>, patches: map<Pid, Patch>, nextPid: Pid) {
    && Plans.Distinct(queue)
    && (forall pid :: pid in queue <==> pid in patches)
    && (forall pid :: pid in patches ==> pid < nextPid && !patches[pid].status.Processing?)
    && Retryable(patches)
  }

  ghost predicate Mirrors(patches: map<Pid, Patch>, store: map<Key, Status>) {
    && (forall pid :: pid in patches ==> (Key(patches[pid].session, pid) in store <==> patches[pid].status.Pending?))
    && (forall k :: k in store ==> k.pid in patches && patches[k.pid].session == k.session && store[k].Pending?)
  }

  /** What one application of patch `pid` leaves in Redis. */
  function StoreAfter(patches: map<Pid, Patch>, store: map<Key, Status>, pid: Pid, a: Answers): map<Key, Status>
    requires pid in patches
  {
    if Outcome(patches[pid], a).1 == Requeued then store else store - {Key(patches[pid].session, pid)}
  }

  /** The saved keys stay those of the unsettled patches unless a patch that was already settled, and
      so no longer saved, is applied again, conflicts, and is put back. */
  lemma {:induction false} ApplyMirrors(patches: map<Pid, Patch>, store: map<Key, Status>, pid: Pid, a: Answers)
    requires pid in patches && Mirrors(patches, store)
    ensures
      Mirrors(patches[pid := Outcome(patches[pid], a).0], StoreAfter(patches, store, pid, a)) <==> !Revives(patches[pid], a)
  {
    var p' := Outcome(patches[pid], a).0;
    var patches', store' := patches[pid := p'], StoreAfter(patches, store, pid, a);
    if Revives(patches[pid], a) {
      assert Key(patches[pid].session, pid) !in store';
      assert patches'[pid].status.Pending? && Key(patches'[pid].session, pid) !in store';
    } else {
      assert p'.status.Pending? ==> patches[pid].status.Pending?;
      forall q | q in patches' ensures Key(patches'[q].session, q) in store' <==> patches'[q].status.Pending? {
        assert Key(patches[q].session, q) in store <==> patches[q].status.Pending?;
      }
    }
  }

  /** A settled patch that an application would put back. */
  predicate Revives(p: Patch, a: Answers) {
    !p.status.Pending? && Conflicts(p.baseline, a.disk) && p.retries + 1 < MAX_RETRIES
  }

  /** Such a patch: applied, so no longer saved, with the file it changed no longer as it was hashed. */
  lemma {:induction false} AppliedPatchRevived(p: Patch, a: Answers)
    requires p.status.Applied? && p.retries == 0 && p.baseline == map["a.py" := Sha("before")]
    requires a.disk == map["a.py" := Sha("after")]
    ensures Revives(p, a) && Outcome(p, a).0.status.Pending?
  {
    assert Current(a.disk, "a.py") == Sha("after");
    assert "a.py" in p.baseline.Keys && Current(a.disk, "a.py") != p.baseline["a.py"];
  }

  lemma {:induction false} ApplyMirrorsPending(patches: map<Pid, Patch>, store: map<Key, Status>, pid: Pid, a: Answers)
    requires pid in patches && patches[pid].status.Pending?
    ensures Mirrors(patches, store) ==>
      Mirrors(patches[pid := Outcome(patches[pid], a).0], StoreAfter(patches, store, pid, a))
  {
    if Mirrors(patches, store) { ApplyMirrors(patches, store, pid, a); }
  }

  lemma {:induction false} ApplyWellFormed(queue: seq<Pid>, patches: map<Pid, Patch>, nextPid: Pid, pid: Pid, a: Answers)
    requires pid in patches && WellFormed(queue, patches, nextPid)
    ensures WellFormed(queue, patches[pid := Outcome(patches[pid], a).0], nextPid)
  {
  }

  // ---- The calls as functions ---------------------------------------------------------------------

  /** The queue without its Redis mirror. */
  datatype Core = Core(queue: seq<Pid>, patches: map<Pid, Patch>, nextPid: Pid)

  function Baseline(paths: seq<string>, disk: map<string, Hash>): map<string, Hash> {
    if paths == [] then map[] else Baseline(paths[..|paths| - 1], disk)[paths[|paths| - 1] := Current(disk, paths[|paths| - 1])]
  }

  lemma {:induction false} BaselineMeaning(paths: seq<string>, disk: map<string, Hash>)
    ensures forall path :: path in Baseline(paths, disk) <==> path in paths
    ensures forall path :: path in Baseline(paths, disk) ==> Baseline(paths, disk)[path] == Current(disk, path)
  {
    if paths != [] {
      BaselineMeaning(paths[..|paths| - 1], disk);
      assert paths == paths[..|paths| - 1] + [paths[|paths| - 1]];
    }
  }

  /** The patch that enqueue makes of a diff. */
  function NewPatch(session: Session, diff: string, disk: map<string, Hash>): Patch {
    Patch(session, Diffs.NormalizeDiff(diff), Baseline(Diffs.FilePaths(Diffs.NormalizeDiff(diff)), disk), Pending, 0)
  }

  function Added(s: Core, p: Patch): Core {
    Core(s.queue + [s.nextPid], s.patches[s.nextPid := p], s.nextPid + 1)
  }

  function Flagged(s: Core, pid: Pid): Core
    requires pid in s.patches
  {
    s.(patches := s.patches[pid := s.patches[pid].(status := Conflict)])
  }

  predicate Usable(depth: nat, s: Core, fix: Fix) { fix.Fix? && fix.valid && |s.queue| < depth }

  /** The patches made of the coders' fixes, round by round, in the session of the first patch. */
  function Fixes(session: Session, rounds: nat -> Round): nat -> Patch {
    (k: nat) => var fix := rounds(k).fix; if fix.Fix? then NewPatch(session, fix.diff, fix.disk) else NewPatch(session, "", map[])
  }

  lemma {:induction false} FixesAreMade(session: Session, rounds: nat -> Round)
    ensures AreFixes(Fixes(session, rounds), session, rounds)
  {
  }

  /** `made` are these patches. */
  ghost predicate AreFixes(made: nat -> Patch, session: Session, rounds: nat -> Round) {
    forall k: nat {:trigger NewPatch(session, rounds(k).fix.diff, rounds(k).fix.disk)} ::
      rounds(k).fix.Fix? ==> made(k) == NewPatch(session, rounds(k).fix.diff, rounds(k).fix.disk)
  }

  predicate NewlyMade(p: Patch, session: Session) { p.session == session && p.status.Pending? }

  ghost predicate IsFix(made: Patch, session: Session, fix: Fix) {
    fix.Fix? ==> made == NewPatch(session, fix.diff, fix.disk)
  }

  lemma {:induction false} FreshFix(made: nat -> Patch, session: Session, rounds: nat -> Round, k: nat)
    requires AreFixes(made, session, rounds)
    ensures IsFix(made(k), session, rounds(k).fix) && (rounds(k).fix.Fix? ==> NewlyMade(made(k), session))
  {
    if rounds(k).fix.Fix? { assert NewPatch(session, rounds(k).fix.diff, rounds(k).fix.disk) == made(k); }
  }

  /** One round of test_fix_loop: the queue after it, what became of the patch, and the next patch, or -1.
      `made` is the patch that is made of the fix. */
  function RoundOn(depth: nat, s: Core, current: Pid, round: Round, made: Patch, more: bool): (Core, Action, int)
    requires current in s.patches
  {
    var (p, action) := Outcome(s.patches[current], round.answers);
    var s1 := s.(patches := s.patches[current := p]);
    if action == DidApply && !round.testsPass && more && Usable(depth, s1, round.fix) then
      (Added(s1, made), action, s1.nextPid as int)
    else (s1, action, -1)
  }

  /** test_fix_loop from attempt number `attempt` on. */
  function FixLoop(depth: nat, s: Core, current: Pid, rounds: nat -> Round, made: nat -> Patch, attempt: nat, maxAttempts: int): (Core, LoopResult)
    requires current in s.patches
    decreases maxAttempts - attempt, 1
  {
    if attempt >= maxAttempts then (Flagged(s, current), LoopResult(NeedsReview, current, false, attempt))
    else NextAttempt(depth, s, current, rounds, made, attempt, maxAttempts)
  }

  function NextAttempt(depth: nat, s: Core, current: Pid, rounds: nat -> Round, made: nat -> Patch, attempt: nat, maxAttempts: int): (Core, LoopResult)
    requires current in s.patches && attempt < maxAttempts
    decreases maxAttempts - attempt, 0
  {
    var (s1, action, next) := RoundOn(depth, s, current, rounds(attempt), made(attempt), attempt + 1 < maxAttempts);
    if action != DidApply then (s1, LoopResult(action, current, false, attempt + 1))
    else if rounds(attempt).testsPass then (s1, LoopResult(DidApply, current, true, attempt + 1))
    else if next < 0 then (Flagged(s1, current), LoopResult(NeedsReview, current, false, attempt + 1))
    else FixLoop(depth, s1, next, rounds, made, attempt + 1, maxAttempts)
  }

  lemma {:induction false} LoopStep(depth: nat, s: Core, current: Pid, rounds: nat -> Round, made: nat -> Patch, attempt: nat, maxAttempts: int)
    requires current in s.patches && attempt < maxAttempts
    ensures
      var (s1, action, next) := RoundOn(depth, s, current, rounds(attempt), made(attempt), attempt + 1 < maxAttempts);
      && current in s1.patches && (next >= 0 ==> next in s1.patches)
      && FixLoop(depth, s, current, rounds, made, attempt, maxAttempts) ==
         if action != DidApply then (s1, LoopResult(action, current, false, attempt + 1))
         else if rounds(attempt).testsPass then (s1, LoopResult(DidApply, current, true, attempt + 1))
         else if next < 0 then (Flagged(s1, current), LoopResult(NeedsReview, current, false, attempt + 1))
         else FixLoop(depth, s1, next, rounds, made, attempt + 1, maxAttempts)
  {
  }

  /** An attempt of test_fix_loop: the patch it was made on, as it was before. */
  datatype Tried = Tried(pid: Pid, before: Patch)

  /** `p` is a patch made from a coder's fix of the patch `before`. */
  ghost predicate FixOf(before: Patch, fix: Fix, p: Patch) {
    && fix.Fix? && fix.valid && p.session == before.session && p.diff == Diffs.NormalizeDiff(fix.diff)
    && p.status == Pending && p.retries == 0
    && (forall path :: path in p.baseline <==> path in Diffs.FilePaths(fix.diff))
    && (forall path :: path in p.baseline ==> p.baseline[path] == Current(fix.disk, path))
  }

  /** An attempt that another follows: its patch was applied, the tests failed, the fix was usable. */
  ghost predicate Continues(t: Tried, round: Round, next: Tried) {
    && Outcome(t.before, round.answers).1 == DidApply && !round.testsPass
    && FixOf(t.before, round.fix, next.before) && next.pid > t.pid
  }

  /** The last attempt, and what it makes the answer: that its patch was not applied; that the tests pass;
      or that they fail, with no attempt left, no usable fix, or no room for one. */
  ghost predicate Ends(depth: nat, t: Tried, round: Round, attempts: nat, maxAttempts: int, queued: nat, r: LoopResult) {
    var action := Outcome(t.before, round.answers).1;
    && r.pid == t.pid && r.attempts == attempts
    && (action != DidApply ==> r.action == action && !r.testPassed)
    && (action == DidApply && round.testsPass ==> r.action == DidApply && r.testPassed)
    && (action == DidApply && !round.testsPass ==>
          && r.action == NeedsReview && !r.testPassed
          && (attempts >= maxAttempts || round.fix.NoDiff? || !round.fix.valid || queued >= depth))
  }

  /** What an attempt leaves of its patch: what the application made of it, except that a patch whose tests
      fail in the end is called a conflict. */
  ghost predicate Leaves(t: Tried, round: Round, last: bool, end: map<Pid, Patch>) {
    var (p, action) := Outcome(t.before, round.answers);
    t.pid in end && end[t.pid] == if last && action == DidApply && !round.testsPass then p.(status := Conflict) else p
  }

  /** The attempts of test_fix_loop from number `attempt` on. Each after the first is made on a new patch,
      the fix of the one before, and the loop goes on as long as it may. */
  ghost predicate Trail(depth: nat, tried: seq<Tried>, rounds: nat -> Round, attempt: nat, maxAttempts: int, end: Core, r: LoopResult)
    decreases |tried|
  {
    tried != [] &&
    if |tried| == 1 then
      Leaves(tried[0], rounds(attempt), true, end.patches) && Ends(depth, tried[0], rounds(attempt), attempt + 1, maxAttempts, |end.queue|, r)
    else
      && Leaves(tried[0], rounds(attempt), false, end.patches) && Continues(tried[0], rounds(attempt), tried[1])
      && Trail(depth, tried[1..], rounds, attempt + 1, maxAttempts, end, r)
  }

  /** test_fix_loop makes such attempts, the first on the patch it is given, and changes no other patch. */
  lemma {:induction false} FixLoopMeaning(depth: nat, s: Core, current: Pid, rounds: nat -> Round, made: nat -> Patch, attempt: nat, maxAttempts: int)
    returns (tried: seq<Tried>)
    requires current in s.patches && attempt < maxAttempts && forall pid :: pid in s.patches ==> pid < s.nextPid
    requires AreFixes(made, s.patches[current].session, rounds)
    ensures tried != [] && tried[0] == Tried(current, s.patches[current])
    ensures
      var (end, r) := FixLoop(depth, s, current, rounds, made, attempt, maxAttempts);
      && Trail(depth, tried, rounds, attempt, maxAttempts, end, r)
      && r.attempts == attempt + |tried| <= maxAttempts
      && Grown(s.patches, end.patches, current)
    decreases maxAttempts - attempt
  {
    var (s1, action, next) := RoundOn(depth, s, current, rounds(attempt), made(attempt), attempt + 1 < maxAttempts);
    var first := Tried(current, s.patches[current]);
    tried := [first];
    if next >= 0 {
      assert made(attempt) == NewPatch(s.patches[current].session, rounds(attempt).fix.diff, rounds(attempt).fix.disk);
      FixIsFresh(depth, s, current, rounds(attempt), made(attempt));
      var later := FixLoopMeaning(depth, s1, next, rounds, made, attempt + 1, maxAttempts);
      tried := [first] + later;
      assert tried[1..] == later && Continues(first, rounds(attempt), later[0]);
    }
  }

  lemma {:induction false} FixIsFresh(depth: nat, s: Core, current: Pid, round: Round, made: Patch)
    requires current in s.patches && forall pid :: pid in s.patches ==> pid < s.nextPid
    requires round.fix.Fix? ==> made == NewPatch(s.patches[current].session, round.fix.diff, round.fix.disk)
    ensures
      var (s1, action, next) := RoundOn(depth, s, current, round, made, true);
      next >= 0 ==> next in s1.patches && s1.patches[next].session == s.patches[current].session && Continues(Tried(current, s.patches[current]), round, Tried(next, s1.patches[next]))
  {
    if round.fix.Fix? {
      Diffs.NormalizingIsInvisible(round.fix.diff);
      BaselineMeaning(Diffs.FilePaths(round.fix.diff), round.fix.disk);
    }
  }

  /** The patches that were applied. */
  function AppliedPids(tried: seq<Tried>, rounds: nat -> Round, attempt: nat): seq<Pid> {
    if tried == [] then []
    else (if Outcome(tried[0].before, rounds(attempt).answers).1 == DidApply then [tried[0].pid] else []) + AppliedPids(tried[1..], rounds, attempt + 1)
  }

  /** All of them stay applied, but for the one that is flagged. */
  lemma {:induction false} TrailSummary(depth: nat, tried: seq<Tried>, rounds: nat -> Round, attempt: nat, maxAttempts: int, end: Core, r: LoopResult)
    requires Trail(depth, tried, rounds, attempt, maxAttempts, end, r)
    ensures
      var applied := AppliedPids(tried, rounds, attempt);
      && |tried| - 1 <= |applied| <= |tried|
      && (r.testPassed <==> r.action == DidApply) && r.pid in end.patches && r.pid >= tried[0].pid
      && (r.action == DidApply ==> r.pid in applied) && (|tried| > 1 ==> r.pid > tried[0].pid)
      && (forall q :: q in applied ==> q in end.patches && end.patches[q].status == if q == r.pid && r.action == NeedsReview then Conflict else Applied)
      && r.attempts == attempt + |tried|
    decreases |tried|
  {
    if |tried| == 1 {
      assert AppliedPids(tried[1..], rounds, attempt + 1) == [];
    } else {
      TrailSummary(depth, tried[1..], rounds, attempt + 1, maxAttempts, end, r);
    }
  }

  /** A call made on the queue. */
  datatype Op =
    | Submit(session: Session, diff: string, valid: bool, disk: map<string, Hash>)
    | Next(answers: Answers)
    | All(replies: nat -> Answers)
    | Test(session: Session, diff: string, valid: bool, disk: map<string, Hash>, rounds: nat -> Round, attempts: int)

  /** Patches have come in, and of those there were only `pid` has changed. */
  ghost predicate Grown(before: map<Pid, Patch>, now: map<Pid, Patch>, pid: Pid) {
    before.Keys <= now.Keys && forall q :: q in before && q != pid ==> now[q] == before[q]
  }

  /** What the first round decides of the answer: if its patch is not applied, that is the answer; if the
      tests pass, too; and if it was the only round, the patch is flagged. */
  ghost predicate FirstRound(p: Patch, pid: Pid, round: Round, maxAttempts: int, r: LoopResult, applied: seq<Pid>) {
    var action := Outcome(p, round.answers).1;
    && (action != DidApply ==> r == LoopResult(action, pid, false, 1) && applied == [])
    && (action == DidApply && round.testsPass ==> r == LoopResult(DidApply, pid, true, 1) && applied == [pid])
    && (action == DidApply && !round.testsPass && maxAttempts == 1 ==> r == LoopResult(NeedsReview, pid, false, 1) && applied == [pid])
  }

  /** The answer of test_fix_loop and the patches it has applied: each stays applied, except that one that is
      flagged after failing tests becomes a conflict; no other patch that was there changes, but the first. */
  ghost predicate LoopSummary(before: Core, pid: Pid, rounds: nat -> Round, maxAttempts: int, end: Core, r: LoopResult, applied: seq<Pid>)
    requires pid in before.patches
  {
    var (p, action) := Outcome(before.patches[pid], rounds(0).answers);
    && Grown(before.patches, end.patches, pid)
    && (r.testPassed <==> r.action == DidApply)
    && r.attempts <= (if maxAttempts < 0 then 0 else maxAttempts) && r.attempts - 1 <= |applied| <= r.attempts
    && r.pid in end.patches && (r.action == DidApply ==> r.pid in applied)
    && (forall q :: q in applied ==>
          q in end.patches && end.patches[q].status == if q == r.pid && r.action == NeedsReview then Conflict else Applied)
    && (maxAttempts <= 0 ==> r == LoopResult(NeedsReview, pid, false, 0) && end == Flagged(before, pid))
    && (maxAttempts > 0 ==> FirstRound(before.patches[pid], pid, rounds(0), maxAttempts, r, applied))
    && (maxAttempts > 0 && action != DidApply ==> end.patches == before.patches[pid := p])
  }

  /** What a call makes of the queue. */
  function Performed(depth: nat, s: Core, op: Op): Core {
    match op
    case Submit(session, diff, valid, disk) => if valid && |s.queue| < depth then Added(s, NewPatch(session, diff, disk)) else s
    case Next(a) =>
      var pid := FirstPending(s.queue, s.patches);
      if pid < 0 then s else s.(patches := s.patches[pid := Outcome(s.patches[pid], a).0])
    case All(replies) => s.(patches := Drained(s.queue, s.patches, replies, 0))
    case Test(session, diff, valid, disk, rounds, n) =>
      if valid && |s.queue| < depth then FixLoop(depth, Added(s, NewPatch(session, diff, disk)), s.nextPid, rounds, Fixes(session, rounds), 0, n).0 else s
  }

  function AllPerformed(depth: nat, s: Core, ops: seq<Op>): Core
    decreases |ops|
  {
    if ops == [] then s else AllPerformed(depth, Performed(depth, s, ops[0]), ops[1..])
  }

  class PatchQueue {
    const maxDepth: nat               // MAX_PATCH_QUEUE_DEPTH
    const name: Pid -> string         // patch_id
    var queue: seq<Pid>               // _queue
    var patches: map<Pid, Patch>      // _patches
    var store: map<Key, Status>       // the patches:* keys of Redis and the status saved under them
    var nextPid: Pid

    /** Every patch is queued once; between calls none is being processed. */
    ghost predicate Valid()
      reads this
    {
      WellFormed(queue, patches, nextPid) && ProperNames(name)
    }

    ghost function View(): Core
      reads this
    {
      Core(queue, patches, nextPid)
    }

    /** The saved keys are exactly those of the unsettled patches, saved as pending. */
    ghost predicate Mirrored()
      reads this
    {
      Mirrors(patches, store)
    }

    constructor (depth: nat, name: Pid -> string)
      requires ProperNames(name)
      ensures Valid() && Mirrored() && queue == [] && maxDepth == depth && this.name == name
    {
      maxDepth, this.name, queue, patches, store, nextPid := depth, name, [], map[], map[], 0;
    }

    /** Hashes the files of the raw diff and stores the normalized one. The depth limit counts every
        patch ever enqueued: nothing takes a patch off the queue. */
    method Enqueue(session: Session, diff: string, valid: bool, disk: map<string, Hash>) returns (r: Enqueued)
      requires Valid()
      modifies this
      ensures Valid() && (old(Mirrored()) ==> Mirrored())
      ensures r.Invalid? <==> !valid
      ensures r.Full? <==> valid && |old(queue)| >= maxDepth
      ensures !r.Accepted? ==> unchanged(this)
      ensures r.Accepted? ==>
        && r.pid !in old(patches) && queue == old(queue) + [r.pid]
        && patches.Keys == old(patches).Keys + {r.pid}
        && (forall pid :: pid in old(patches) ==> patches[pid] == old(patches)[pid])
        && patches[r.pid].session == session && patches[r.pid].diff == Diffs.NormalizeDiff(diff)
        && patches[r.pid].status == Pending && patches[r.pid].retries == 0
        && (forall path :: path in patches[r.pid].baseline <==> path in Diffs.FilePaths(patches[r.pid].diff))
        && (forall path :: path in patches[r.pid].baseline ==> patches[r.pid].baseline[path] == Current(disk, path))
        && store == old(store)[Key(session, r.pid) := Pending]
      ensures r.Accepted? ==> r.pid == old(nextPid) && View() == Added(old(View()), NewPatch(session, diff, disk))
    {
      if !valid { return Invalid; }
      if |queue| >= maxDepth { return Full; }
      var paths := Diffs.ExtractFilePaths(diff);
      Diffs.NormalizingIsInvisible(diff);
      var hashes := SnapshotFileHashes(paths, disk);
      BaselineMeaning(paths, disk);
      assert hashes == Baseline(paths, disk);
      var pid := nextPid;
      nextPid := nextPid + 1;
      assert pid !in queue;
      queue := queue + [pid];
      patches := patches[pid := Patch(session, Diffs.NormalizeDiff(diff), hashes, Pending, 0)];
      store := store[Key(session, pid) := Pending];
      return Accepted(pid);
    }

    method Unpersist(pid: Pid)
      requires pid in patches
      modifies this`store
      ensures store == old(store) - {Key(patches[pid].session, pid)}
    {
      store := store - {Key(patches[pid].session, pid)};
    }

    method ApplyPatch(pid: Pid, a: Answers) returns (action: Action)
      requires pid in patches
      modifies this`patches, this`store
      ensures patches == old(patches)[pid := Outcome(old(patches)[pid], a).0]
      ensures action == Outcome(old(patches)[pid], a).1
      ensures store == StoreAfter(old(patches), old(store), pid, a)
    {
      var conflict := CheckConflict(patches[pid], a.disk);
      if conflict {
        patches := patches[pid := patches[pid].(retries := patches[pid].retries + 1)];
        if patches[pid].retries >= MAX_RETRIES {
          patches := patches[pid := patches[pid].(status := Conflict)];
          Unpersist(pid);
          return NeedsReview;
        }
        patches := patches[pid := patches[pid].(status := Pending)];
        return Requeued;
      }
      if !a.sandbox.Ok? {
        patches := patches[pid := patches[pid].(status := Rejected)];
        Unpersist(pid);
        return if a.sandbox.Error? then DidFail else DidReject;
      }
      if !a.live.Ok? {
        patches := patches[pid := patches[pid].(status := Rejected)];
        Unpersist(pid);
        return if a.live.Error? then DidFail else DidReject;
      }
      patches := patches[pid := patches[pid].(status := Applied)];
      Unpersist(pid);
      return DidApply;
    }

    /** Takes the first pending patch of the queue, if any, through one application. */
    method ProcessNext(a: Answers) returns (pid: int, action: Action)
      requires Valid()
      modifies this`patches, this`store
      ensures pid == FirstPending(queue, old(patches))
      ensures pid < 0 ==> unchanged(this)
      ensures pid >= 0 ==> patches == old(patches)[pid := Outcome(old(patches)[pid], a).0] && action == Outcome(old(patches)[pid], a).1
      ensures Valid() && (old(Mirrored()) ==> Mirrored())
    {
      action := NeedsReview;
      pid := FindPending();
      if pid < 0 { return; }
      ApplyMirrorsPending(patches, store, pid, a);
      ApplyWellFormed(queue, patches, nextPid, pid, a);
      patches := patches[pid := patches[pid].(status := Processing)];
      assert patches[pid := Outcome(patches[pid], a).0] == old(patches)[pid := Outcome(old(patches)[pid], a).0];
      action := ApplyPatch(pid, a);
    }

    /** The scan of process_next. */
    method FindPending() returns (pid: int)
      requires Valid()
      ensures pid == FirstPending(queue, patches)
    {
      var i := 0;
      while i < |queue|
        invariant i <= |queue| && FirstPending(queue, patches) == FirstPending(queue[i..], patches)
      {
        assert queue[i] in queue;
        if patches[queue[i]].status.Pending? { return queue[i]; }
        i := i + 1;
      }
      return -1;
    }

    /** Processes until nothing is pending; `answers(c)` is what the outside answers call number c. */
    method ProcessAll(answers: nat -> Answers) returns (calls: seq<Call>)
      requires Valid()
      modifies this`patches, this`store
      ensures calls == Drain(queue, old(patches), answers, 0) && patches == Drained(queue, old(patches), answers, 0)
      ensures forall pid :: pid in patches ==> Final(patches[pid].status)
      ensures Valid() && (old(Mirrored()) ==> Mirrored())
    {
      calls := [];
      while true
        invariant Valid() && (old(Mirrored()) ==> Mirrored())
        invariant Underway(queue, old(patches), patches, answers, calls)
        decreases |Drain(queue, patches, answers, |calls|)|
      {
        ghost var before := patches;
        var pid, action := ProcessNext(answers(|calls|));
        if pid < 0 {
          Over(queue, old(patches), patches, answers, calls);
          return;
        }
        UnderwayStep(queue, old(patches), before, answers, calls);
        calls := calls + [Call(pid, patches[pid])];
      }
    }

    /** One application inside test_fix_loop. */
    method TryPatch(pid: Pid, a: Answers) returns (action: Action)
      requires Valid() && pid in patches
      modifies this`patches, this`store
      ensures Valid()
      ensures patches == old(patches)[pid := Outcome(old(patches)[pid], a).0] && action == Outcome(old(patches)[pid], a).1
      ensures old(Mirrored()) ==> (Mirrored() <==> !Revives(old(patches)[pid], a))
      ensures action == DidApply ==> !Revives(old(patches)[pid], a) && patches[pid].status == Applied
    {
      if Mirrored() { ApplyMirrors(patches, store, pid, a); }
      ApplyWellFormed(queue, patches, nextPid, pid, a);
      action := ApplyPatch(pid, a);
    }

    /** The patch is left to a human. */
    method FlagForReview(pid: Pid)
      requires Valid() && pid in patches
      modifies this`patches, this`store
      ensures Valid() && patches == old(patches)[pid := old(patches)[pid].(status := Conflict)]
      ensures old(Mirrored()) ==> Mirrored()
    {
      patches := patches[pid := patches[pid].(status := Conflict)];
      Unpersist(pid);
    }

    /** Applies, tests, and asks for a fix, at most `maxAttempts` times. Unlike the queue's own calls it
        does not check that its patch is still pending, and it may call a patch a conflict that is live
        in the workspace. `applied` lists the patches it has applied there. */
    method TestFixLoop(pid: Pid, rounds: nat -> Round, maxAttempts: int) returns (r: LoopResult, ghost applied: seq<Pid>)
      requires Valid() && pid in patches
      modifies this
      ensures Valid() && LoopSummary(old(View()), pid, rounds, maxAttempts, View(), r, applied)
      ensures old(Mirrored()) ==> (Mirrored() <==> !(maxAttempts > 0 && Revives(old(patches)[pid], rounds(0).answers)))
      ensures (View(), r) == FixLoop(maxDepth, old(View()), pid, rounds, Fixes(old(patches)[pid].session, rounds), 0, maxAttempts)
    {
      ghost var before := View();
      assert forall q :: q in before.patches ==> q < before.nextPid;
      ghost var made := Fixes(patches[pid].session, rounds);
      FixesAreMade(patches[pid].session, rounds);
      r := RunLoop(pid, rounds, made, maxAttempts);
      applied := Summary(before, pid, rounds, made, maxAttempts, View(), r);
    }

    /** The loop and, if it has come to no answer, the flagging of its last patch. */
    method RunLoop(pid: Pid, rounds: nat -> Round, ghost made: nat -> Patch, maxAttempts: int) returns (r: LoopResult)
      requires Valid() && pid in patches && AreFixes(made, patches[pid].session, rounds)
      modifies this
      ensures Valid() && (View(), r) == FixLoop(maxDepth, old(View()), pid, rounds, made, 0, maxAttempts)
      ensures old(Mirrored()) ==> (Mirrored() <==> !(maxAttempts > 0 && Revives(old(patches)[pid], rounds(0).answers)))
    {
      var answered;
      answered, r := FixRounds(pid, rounds, made, maxAttempts);
      if !answered {
        FlagForReview(r.pid);
      }
    }

    /** What the functional description of the loop says of the patches applied. */
    lemma {:induction false} Summary(before: Core, pid: Pid, rounds: nat -> Round, made: nat -> Patch, maxAttempts: int, end: Core, r: LoopResult) returns (applied: seq<Pid>)
      requires pid in before.patches && forall q :: q in before.patches ==> q < before.nextPid
      requires AreFixes(made, before.patches[pid].session, rounds) && (end, r) == FixLoop(maxDepth, before, pid, rounds, made, 0, maxAttempts)
      ensures LoopSummary(before, pid, rounds, maxAttempts, end, r, applied)
    {
      applied := [];
      if maxAttempts > 0 {
        var tried := FixLoopMeaning(maxDepth, before, pid, rounds, made, 0, maxAttempts);
        TrailSummary(maxDepth, tried, rounds, 0, maxAttempts, end, r);
        applied := AppliedPids(tried, rounds, 0);
        if |tried| == 1 { assert AppliedPids(tried[1..], rounds, 1) == []; }
      }
    }

    /** The loop. It may come to an answer, or leave its last patch, applied with failing tests, to be
        flagged. */
    method FixRounds(pid: Pid, rounds: nat -> Round, ghost made: nat -> Patch, maxAttempts: int) returns (answered: bool, r: LoopResult)
      requires Valid() && pid in patches && AreFixes(made, patches[pid].session, rounds)
      modifies this
      ensures Valid() && r.pid in patches
      ensures (if answered then View() else Flagged(View(), r.pid), r) == FixLoop(maxDepth, old(View()), pid, rounds, made, 0, maxAttempts)
      ensures answered ==> r.attempts > 0
      ensures !answered && r.attempts > 0 ==> patches[r.pid].status == Applied
      ensures old(Mirrored()) ==> (Mirrored() <==> !(maxAttempts > 0 && Revives(old(patches)[pid], rounds(0).answers)))
    {
      var attempt: nat, current := 0, pid;
      ghost var target, session := FixLoop(maxDepth, View(), pid, rounds, made, 0, maxAttempts), patches[pid].session;
      ghost var revives := Revives(patches[pid], rounds(0).answers);
      while attempt < maxAttempts
        invariant Valid() && current in patches
        invariant attempt == 0 ==> unchanged(this) && current == pid
        invariant attempt > 0 ==> patches[current].status.Pending? && !revives && attempt < maxAttempts
        invariant old(Mirrored()) ==> Mirrored()
        invariant patches[current].session == session
        invariant FixLoop(maxDepth, View(), current, rounds, made, attempt, maxAttempts) == target
      {
        var done, next;
        done, answered, r, next := OneAttempt(current, rounds, made, attempt, maxAttempts);
        if done { return; }
        attempt, current := attempt + 1, next;
      }
      return false, LoopResult(NeedsReview, current, false, attempt);
    }

    /** One turn of the loop: done, or on to the next patch. */
    method OneAttempt(current: Pid, rounds: nat -> Round, ghost made: nat -> Patch, attempt: nat, maxAttempts: int)
      returns (done: bool, answered: bool, r: LoopResult, next: Pid)
      requires Valid() && current in patches && attempt < maxAttempts && AreFixes(made, patches[current].session, rounds)
      modifies this
      ensures Valid()
      ensures done ==>
        && r.pid in patches && r.attempts == attempt + 1 && (!answered ==> patches[r.pid].status == Applied)
        && (if answered then View() else Flagged(View(), r.pid), r) == FixLoop(maxDepth, old(View()), current, rounds, made, attempt, maxAttempts)
      ensures !done ==>
        && next in patches && patches[next].status.Pending? && attempt + 1 < maxAttempts && !Revives(old(patches)[current], rounds(attempt).answers)
        && patches[next].session == old(patches)[current].session
        && FixLoop(maxDepth, View(), next, rounds, made, attempt + 1, maxAttempts) == FixLoop(maxDepth, old(View()), current, rounds, made, attempt, maxAttempts)
      ensures old(Mirrored()) ==> (Mirrored() <==> !Revives(old(patches)[current], rounds(attempt).answers))
    {
      LoopStep(maxDepth, View(), current, rounds, made, attempt, maxAttempts);
      FreshFix(made, patches[current].session, rounds, attempt);
      var action, following := TryRound(current, rounds(attempt), made(attempt), attempt + 1 < maxAttempts);
      next := current;
      if action != DidApply { return true, true, LoopResult(action, current, false, attempt + 1), current; }
      if rounds(attempt).testsPass { return true, true, LoopResult(DidApply, current, true, attempt + 1), current; }
      if following < 0 { return true, false, LoopResult(NeedsReview, current, false, attempt + 1), current; }
      return false, false, LoopResult(NeedsReview, current, false, attempt + 1), following;
    }

    /** Applies the current patch; if the tests fail and attempts are left, enqueues the coder's next. */
    method TryRound(current: Pid, round: Round, ghost made: Patch, more: bool) returns (action: Action, next: int)
      requires Valid() && current in patches && IsFix(made, patches[current].session, round.fix) && (round.fix.Fix? ==> NewlyMade(made, patches[current].session))
      modifies this
      ensures Valid() && (View(), action, next) == RoundOn(maxDepth, old(View()), current, round, made, more)
      ensures old(Mirrored()) && !Revives(old(patches)[current], round.answers) ==> Mirrored()
      ensures old(Mirrored()) && Revives(old(patches)[current], round.answers) ==> !Mirrored() && next < 0
      ensures action == DidApply ==> !Revives(old(patches)[current], round.answers) && current in patches && patches[current].status == Applied
      ensures next >= 0 ==> next in patches && patches[next].status.Pending? && patches[next].session == old(patches)[current].session
    {
      next := -1;
      action := TryPatch(current, round.answers);
      if action == DidApply && !round.testsPass && more {
        next := EnqueueFix(patches[current].session, round.fix, made);
      }
    }

    /** Enqueues a coder's diff as the patch `made`; -1 if there is none or it is refused. */
    method EnqueueFix(session: Session, fix: Fix, ghost made: Patch) returns (next: int)
      requires Valid() && IsFix(made, session, fix)
      modifies this
      ensures Valid() && (old(Mirrored()) ==> Mirrored())
      ensures if Usable(maxDepth, old(View()), fix) then next == old(nextPid) && View() == Added(old(View()), made)
              else next == -1 && unchanged(this)
    {
      if fix.NoDiff? { return -1; }
      var enqueued := Enqueue(session, fix.diff, fix.valid, fix.disk);
      return if enqueued.Accepted? then enqueued.pid else -1;
    }

    /** POST /v1/patches/test: the loop is run on a patch that has just been enqueued. */
    method SubmitAndTest(session: Session, diff: string, valid: bool, disk: map<string, Hash>, rounds: nat -> Round, maxAttempts: int)
      returns (e: Enqueued, r: LoopResult)
      requires Valid()
      modifies this
      ensures Valid() && (old(Mirrored()) ==> Mirrored())
      ensures e.Accepted? ==> (r.testPassed <==> r.action == DidApply)
      ensures e.Accepted? <==> valid && |old(queue)| < maxDepth
      ensures !e.Accepted? ==> unchanged(this)
      ensures e.Accepted? ==>
        (View(), r) == FixLoop(maxDepth, Added(old(View()), NewPatch(session, diff, disk)), old(nextPid), rounds, Fixes(session, rounds), 0, maxAttempts)
    {
      r := LoopResult(DidReject, 0, false, 0);
      e := Enqueue(session, diff, valid, disk);
      if e.Accepted? {
        ghost var applied;
        r, applied := TestFixLoop(e.pid, rounds, maxAttempts);
      }
    }

    /** Any sequence of these calls, one after the other, leaves exactly the unsettled patches saved. */
    method Run(ops: seq<Op>)
      requires Valid() && Mirrored()
      modifies this
      ensures Valid() && Mirrored() && View() == AllPerformed(maxDepth, old(View()), ops)
    {
      ghost var target := AllPerformed(maxDepth, View(), ops);
      assert ops[0..] == ops;
      for i := 0 to |ops|
        invariant Valid() && Mirrored() && AllPerformed(maxDepth, View(), ops[i..]) == target
      {
        assert ops[i..][1..] == ops[i + 1..];
        Perform(ops[i]);
      }
    }

    method Perform(op: Op)
      requires Valid() && Mirrored()
      modifies this
      ensures Valid() && Mirrored() && View() == Performed(maxDepth, old(View()), op)
    {
      match op
      case Submit(session, diff, valid, disk) => var _ := Enqueue(session, diff, valid, disk);
      case Next(a) => var _, _ := ProcessNext(a);
      case All(answers) => var _ := ProcessAll(answers);
      case Test(session, diff, valid, disk, rounds, n) => var _, _ := SubmitAndTest(session, diff, valid, disk, rounds, n);
    }

    /** The depth limit is about patches ever enqueued: once it is reached, settling every one of them
        does not make room for the next. */
    method SettleThenEnqueue(answers: nat -> Answers, session: Session, diff: string, disk: map<string, Hash>) returns (r: Enqueued)
      requires Valid()
      modifies this
      ensures forall pid :: pid in old(patches) ==> pid in patches && Final(patches[pid].status)
      ensures r.Full? <==> |old(queue)| >= maxDepth
    {
      var _ := ProcessAll(answers);
      r := Enqueue(session, diff, true, disk);
    }

    /** Counts the saved patches that are pending and whose keys the session's pattern finds. Those are
        the session's own exactly when no other session with a pending patch has an id that goes on after
        this one and a colon. */
    method RecoverFromRedis(session: Session, glob: (string, string) -> bool) returns (recovered: nat)
      requires Valid() && Mirrored() && MatchesGlobs(glob)
      ensures recovered == |Found(session, glob)|
      ensures Literal(session) ==> forall pid :: pid in Found(session, glob) <==> IsPending(pid) && Extends(session, patches[pid].session)
      ensures Literal(session) ==>
        (recovered == |Unsettled(session)| <==> forall pid :: IsPending(pid) ==> !StartsWith(patches[pid].session, session + ":"))
    {
      var keys := set k | k in store && glob(Pattern(session), KeyText(k.session, name(k.pid)));
      var left := keys;
      ghost var counted: set<Pid> := {};
      recovered := 0;
      while left != {}
        invariant left <= keys && recovered == |counted|
        invariant forall pid :: pid in counted <==> IsPending(pid) && Key(patches[pid].session, pid) in keys - left
        decreases left
      {
        var k :| k in left;
        left := left - {k};
        if store[k].Pending? {
          recovered := recovered + 1;
        }
        counted := counted + {k.pid};
      }
      CountedAreFound(counted, keys, session, glob);
      if Literal(session) { FoundAndUnsettled(session, glob); }
    }

    lemma {:induction false} CountedAreFound(counted: set<Pid>, keys: set<Key>, session: Session, glob: (string, string) -> bool)
      requires Mirrored() && keys == set k | k in store && glob(Pattern(session), KeyText(k.session, name(k.pid)))
      requires forall pid :: pid in counted <==> IsPending(pid) && Key(patches[pid].session, pid) in keys
      ensures counted == Found(session, glob)
    {
      forall pid ensures pid in counted <==> pid in Found(session, glob) {
        if IsPending(pid) { assert Key(patches[pid].session, pid) in store; }
      }
    }

    lemma {:induction false} FoundAndUnsettled(session: Session, glob: (string, string) -> bool)
      requires Valid() && MatchesGlobs(glob) && Literal(session)
      ensures forall pid :: pid in Found(session, glob) <==> IsPending(pid) && Extends(session, patches[pid].session)
      ensures |Found(session, glob)| == |Unsettled(session)| <==> forall pid :: IsPending(pid) ==> !StartsWith(patches[pid].session, session + ":")
    {
      forall pid ensures pid in Found(session, glob) <==> IsPending(pid) && Extends(session, patches[pid].session) {
        if IsPending(pid) { PatternFinds(glob, session, patches[pid].session, name(pid)); }
      }
      Plans.SubsetSize(Unsettled(session), Found(session, glob));
      if forall pid :: IsPending(pid) ==> !StartsWith(patches[pid].session, session + ":") {
        assert Found(session, glob) == Unsettled(session);
      } else {
        var pid :| IsPending(pid) && StartsWith(patches[pid].session, session + ":");
        assert pid in Found(session, glob) && pid !in Unsettled(session);
      }
    }

    ghost predicate IsPending(pid: Pid)
      reads this
    {
      pid in patches && patches[pid].status.Pending?
    }

    /** The unsettled patches whose keys the pattern of `session` finds. */
    ghost function Found(session: Session, glob: (string, string) -> bool): set<Pid>
      reads this
    {
      set pid | pid in patches && IsPending(pid) && glob(Pattern(session), KeyText(patches[pid].session, name(pid)))
    }

    /** The unsettled patches of `session` itself. */
    ghost function Unsettled(session: Session): set<Pid>
      reads this
    {
      set pid | pid in patches && IsPending(pid) && patches[pid].session == session
    }
  }
}
