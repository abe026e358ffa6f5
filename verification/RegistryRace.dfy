/** The file watcher once more, with the awaits of _process_event: one path, its events, timers and
    coroutines. Paths do not affect each other. Timers all run equally long, so they fire in the order
    they were scheduled. */
module RegistryRace {
  import opened Wrappers
  import opened Sequences
  import W = FileWatcher

  type Version = nat

  /** An event: what it says, and the version of the file it reports. */
  datatype Note = Note(kind: W.Kind, version: Version)

  datatype Timer = Timer(handle: nat, note: Note)

  /** A coroutine of _process_event: scheduled, waiting for the hash of the file, about to delete the
      entry or to write the hash of the version it has read, or over. */
  datatype Worker = Started(note: Note) | Looking(note: Note) | Deleting(version: Version) | Writing(hash: W.Hash, version: Version) | Over

  /** `contents` are the versions of the file, None where there is none; the last is on the disk. `stamp`
      is the version the entry shows, `shown` are all that were ever shown. */
  datatype State = State(
    contents: seq<Option<W.Content>>, queue: seq<Note>, pending: Option<nat>, timers: seq<Timer>, workers: seq<Worker>,
    entry: Option<W.Hash>, nextHandle: nat, stamp: Version, shown: set<Version>)

  datatype Step = Change(content: Option<W.Content>) | Take | Fire | Begin(i: nat) | Look(i: nat) | Write(i: nat)

  function Hashed(sha: W.Content -> W.Hash, c: Option<W.Content>): Option<W.Hash> {
    if c.Some? then Some(sha(c.value)) else None
  }

  function Last(s: State): Version
    requires s.contents != []
  {
    |s.contents| - 1
  }

  function Start(sha: W.Content -> W.Hash, c: Option<W.Content>): State {
    State([c], [], None, [], [], Hashed(sha, c), 0, 0, {0})
  }

  predicate Enabled(s: State, e: Step) {
    && s.contents != []
    && match e
       case Change(c) => c.Some? || s.contents[Last(s)].Some?
       case Take => s.queue != []
       case Fire => s.timers != []
       case Begin(i) => i < |s.workers| && s.workers[i].Started?
       case Look(i) => i < |s.workers| && s.workers[i].Looking?
       case Write(i) => i < |s.workers| && (s.workers[i].Deleting? || s.workers[i].Writing?)
  }

  function Kind(before: Option<W.Content>, now: Option<W.Content>): W.Kind {
    if now.None? then W.Deleted else if before.None? then W.Created else W.Modified
  }

  function Cancelled(timers: seq<Timer>, pending: Option<nat>): seq<Timer> {
    if timers == [] then []
    else Cancelled(timers[..|timers| - 1], pending) + if pending == Some(timers[|timers| - 1].handle) then [] else [timers[|timers| - 1]]
  }

  /** The timer with that handle goes, and no other; those that stay keep their order. */
  lemma {:induction false} CancelledMeaning(timers: seq<Timer>, pending: Option<nat>)
    ensures forall t :: t in Cancelled(timers, pending) <==> t in timers && pending != Some(t.handle)
    ensures Subsequence(Cancelled(timers, pending), timers)
    ensures (forall k :: 0 <= k < |timers| ==> pending != Some(timers[k].handle)) ==> Cancelled(timers, pending) == timers
  {
    if timers != [] {
      var init, last := timers[..|timers| - 1], timers[|timers| - 1];
      CancelledMeaning(init, pending);
      assert timers == init + [last];
      var kept := Cancelled(init, pending);
      if pending != Some(last.handle) {
        assert (kept + [last])[..|kept|] == kept;
      } else {
        assert Cancelled(timers, pending) == kept;
        if kept != [] && kept[|kept| - 1] == last { PrefixOfSubsequence(kept, init); }
      }
    }
  }

  function Apply(sha: W.Content -> W.Hash, s: State, e: Step): State
    requires Enabled(s, e)
  {
    match e
    case Change(c) => s.(contents := s.contents + [c], queue := s.queue + [Note(Kind(s.contents[Last(s)], c), |s.contents|)])
    case Take =>
      s.(queue := s.queue[1..], timers := Cancelled(s.timers, s.pending) + [Timer(s.nextHandle, s.queue[0])],
         pending := Some(s.nextHandle), nextHandle := s.nextHandle + 1)
    case Fire => s.(timers := s.timers[1..], workers := s.workers + [Started(s.timers[0].note)])
    case Begin(i) =>
      var note := s.workers[i].note;
      s.(pending := None, workers := s.workers[i := if note.kind == W.Deleted then Deleting(note.version) else Looking(note)])
    case Look(i) =>
      var now := s.contents[Last(s)];
      s.(workers := s.workers[i := if now.Some? then Writing(sha(now.value), Last(s)) else Over])
    case Write(i) =>
      var w := s.workers[i];
      s.(entry := if w.Writing? then Some(w.hash) else None, stamp := w.version, shown := s.shown + {w.version}, workers := s.workers[i := Over])
  }

  /** A run; a step that cannot happen is passed over. */
  function After(sha: W.Content -> W.Hash, s: State, steps: seq<Step>): State
    decreases |steps|
  {
    if steps == [] then s
    else After(sha, if Enabled(s, steps[0]) then Apply(sha, s, steps[0]) else s, steps[1..])
  }

  // ---- What every run keeps ------------------------------------------------------------------------

  /** A note says rightly whether the version it reports is a file. */
  predicate NoteOk(contents: seq<Option<W.Content>>, n: Note) {
    n.version < |contents| && (n.kind == W.Deleted <==> contents[n.version].None?)
  }

  predicate WorkerOk(sha: W.Content -> W.Hash, contents: seq<Option<W.Content>>, w: Worker) {
    match w
    case Started(n) => NoteOk(contents, n)
    case Looking(n) => NoteOk(contents, n) && n.kind != W.Deleted
    case Deleting(v) => v < |contents| && contents[v].None?
    case Writing(h, v) => v < |contents| && contents[v].Some? && h == sha(contents[v].value)
    case Over => true
  }

  ghost predicate Inv(sha: W.Content -> W.Hash, s: State) {
    && s.stamp < |s.contents| && s.entry == Hashed(sha, s.contents[s.stamp]) && s.stamp in s.shown
    && (forall k :: 0 <= k < |s.queue| ==> NoteOk(s.contents, s.queue[k]))
    && (forall k :: 0 <= k < |s.timers| ==> NoteOk(s.contents, s.timers[k].note))
    && (forall k :: 0 <= k < |s.workers| ==> WorkerOk(sha, s.contents, s.workers[k]))
    && (s.queue != [] ==> s.queue[|s.queue| - 1].version == Last(s))
    && (s.queue == [] && s.timers != [] ==> s.timers[|s.timers| - 1].note.version == Last(s))
  }

  lemma {:induction false} CancelledOk(contents: seq<Option<W.Content>>, timers: seq<Timer>, pending: Option<nat>)
    requires forall k :: 0 <= k < |timers| ==> NoteOk(contents, timers[k].note)
    ensures forall k :: 0 <= k < |Cancelled(timers, pending)| ==> NoteOk(contents, Cancelled(timers, pending)[k].note)
  {
    if timers != [] { CancelledOk(contents, timers[..|timers| - 1], pending); }
  }

  lemma {:induction false} InvKept(sha: W.Content -> W.Hash, s: State, e: Step)
    requires Inv(sha, s) && Enabled(s, e)
    ensures Inv(sha, Apply(sha, s, e))
  {
    var t := Apply(sha, s, e);
    match e
    case Change(c) => ChangeKeeps(sha, s, c);
    case Take => CancelledOk(s.contents, s.timers, s.pending);
    case Fire => assert WorkerOk(sha, s.contents, Started(s.timers[0].note));
    case Begin(i) => assert WorkerOk(sha, s.contents, s.workers[i]);
    case Look(i) =>
    case Write(i) => assert WorkerOk(sha, s.contents, s.workers[i]);
  }

  lemma {:induction false} ChangeKeeps(sha: W.Content -> W.Hash, s: State, c: Option<W.Content>)
    requires Inv(sha, s) && Enabled(s, Change(c))
    ensures Inv(sha, Apply(sha, s, Change(c)))
  {
    var t := Apply(sha, s, Change(c));
    forall k | 0 <= k < |s.workers| ensures WorkerOk(sha, t.contents, t.workers[k]) { assert WorkerOk(sha, s.contents, s.workers[k]); }
    forall k | 0 <= k < |s.timers| ensures NoteOk(t.contents, t.timers[k].note) { assert NoteOk(s.contents, s.timers[k].note); }
    forall k | 0 <= k < |t.queue| ensures NoteOk(t.contents, t.queue[k]) { if k < |s.queue| { assert NoteOk(s.contents, s.queue[k]); } }
  }

  lemma {:induction false} StartHoldsInv(sha: W.Content -> W.Hash, c: Option<W.Content>)
    ensures Inv(sha, Start(sha, c))
  {
  }

  /** In every run the entry is the hash of some version the file has had. */
  lemma {:induction false} EntryIsSomeVersion(sha: W.Content -> W.Hash, s: State, steps: seq<Step>)
    requires Inv(sha, s)
    ensures Inv(sha, After(sha, s, steps))
    decreases |steps|
  {
    if steps != [] {
      if Enabled(s, steps[0]) { InvKept(sha, s, steps[0]); }
      EntryIsSomeVersion(sha, if Enabled(s, steps[0]) then Apply(sha, s, steps[0]) else s, steps[1..]);
    }
  }

  // ---- When nothing is outstanding -------------------------------------------------------------------

  predicate Active(s: State, i: nat) { i < |s.workers| && !s.workers[i].Over? }

  /** Coroutine `i` will show version `v`, unless the file changes before it looks. */
  predicate Sees(s: State, i: nat, v: Version) {
    && Active(s, i)
    && match s.workers[i]
       case Started(n) => n.version == v
       case Looking(n) => n.version == v
       case Deleting(version) => version == v
       case Writing(_, version) => version == v
       case Over => false
  }

  /** Once all events are taken and all timers have fired, the last version has been shown or will be. */
  ghost predicate LastSeen(s: State)
    requires s.contents != []
  {
    s.queue == [] && s.timers == [] ==> Last(s) in s.shown || exists i :: Sees(s, i, Last(s))
  }

  lemma {:induction false} LastSeenKept(sha: W.Content -> W.Hash, s: State, e: Step)
    requires Inv(sha, s) && LastSeen(s) && Enabled(s, e)
    ensures LastSeen(Apply(sha, s, e))
  {
    var t := Apply(sha, s, e);
    if t.queue == [] && t.timers == [] {
      if e.Fire? {
        assert t.workers[|s.workers|] == Started(s.timers[0].note);
        assert Sees(t, |s.workers|, Last(t));
      } else if Last(s) !in s.shown {
        var i: nat :| Sees(s, i, Last(s));
        assert WorkerOk(sha, s.contents, s.workers[i]);
        if e == Write(i) { assert Last(s) in t.shown; } else { assert Sees(t, i, Last(t)); }
      }
    }
  }

  predicate Quiet(s: State) { s.queue == [] && s.timers == [] && forall i :: 0 <= i < |s.workers| ==> s.workers[i].Over? }

  predicate Exact(sha: W.Content -> W.Hash, s: State)
    requires s.contents != []
  {
    s.entry == Hashed(sha, s.contents[Last(s)])
  }

  lemma {:induction false} RunKeepsLastSeen(sha: W.Content -> W.Hash, s: State, steps: seq<Step>)
    requires Inv(sha, s) && LastSeen(s)
    ensures Inv(sha, After(sha, s, steps)) && LastSeen(After(sha, s, steps))
    decreases |steps|
  {
    if steps != [] {
      if Enabled(s, steps[0]) {
        InvKept(sha, s, steps[0]);
        LastSeenKept(sha, s, steps[0]);
      }
      RunKeepsLastSeen(sha, if Enabled(s, steps[0]) then Apply(sha, s, steps[0]) else s, steps[1..]);
    }
  }

  /** When nothing is outstanding, the last version has been shown at some time; and the entry is exact if
      and only if the coroutine that wrote last has written that version, or one with the same hash. */
  lemma {:induction false} ExactUnlessOvertaken(sha: W.Content -> W.Hash, c: Option<W.Content>, steps: seq<Step>)
    ensures
      var s := After(sha, Start(sha, c), steps);
      s.contents != [] && s.stamp < |s.contents| &&
      (Quiet(s) ==>
         && Last(s) in s.shown
         && (Exact(sha, s) <==> Hashed(sha, s.contents[s.stamp]) == Hashed(sha, s.contents[Last(s)])))
  {
    StartHoldsInv(sha, c);
    RunKeepsLastSeen(sha, Start(sha, c), steps);
  }

  // ---- Coroutines one after the other ------------------------------------------------------------------

  /** In no run does a timer fire while a coroutine of the path is under way. */
  predicate Orderly(sha: W.Content -> W.Hash, s: State, steps: seq<Step>)
    decreases |steps|
  {
    steps == [] ||
    if !Enabled(s, steps[0]) then Orderly(sha, s, steps[1..])
    else
      && (steps[0].Fire? ==> forall i :: 0 <= i < |s.workers| ==> s.workers[i].Over?)
      && Orderly(sha, Apply(sha, s, steps[0]), steps[1..])
  }

  /** At most one is, and once all events are taken and all timers have fired, it is the one for the last
      version, or that has been written last. */
  ghost predicate InTurn(s: State)
    requires s.contents != []
  {
    && (forall i, j :: Active(s, i) && Active(s, j) ==> i == j)
    && (s.queue == [] && s.timers == [] ==>
          (forall i :: Active(s, i) ==> Sees(s, i, Last(s))) && (s.stamp == Last(s) || exists i :: Active(s, i)))
  }

  lemma {:induction false} InTurnKept(sha: W.Content -> W.Hash, s: State, e: Step)
    requires Inv(sha, s) && InTurn(s) && Enabled(s, e)
    requires e.Fire? ==> forall i :: 0 <= i < |s.workers| ==> s.workers[i].Over?
    ensures InTurn(Apply(sha, s, e))
  {
    var t := Apply(sha, s, e);
    assert forall i :: Active(t, i) && !e.Fire? ==> Active(s, i);
    if e.Begin? || e.Look? || e.Write? {
      assert Active(s, e.i) && WorkerOk(sha, s.contents, s.workers[e.i]);
      if t.queue == [] && t.timers == [] {
        assert Sees(s, e.i, Last(s));
        if !e.Write? { assert Active(t, e.i); }
      }
    } else if e.Fire? {
      assert Active(t, |s.workers|);
    }
  }

  lemma {:induction false} OrderlyKeepsTurn(sha: W.Content -> W.Hash, s: State, steps: seq<Step>)
    requires Inv(sha, s) && InTurn(s) && Orderly(sha, s, steps)
    ensures Inv(sha, After(sha, s, steps)) && InTurn(After(sha, s, steps))
    decreases |steps|
  {
    if steps != [] {
      if Enabled(s, steps[0]) {
        InvKept(sha, s, steps[0]);
        InTurnKept(sha, s, steps[0]);
      }
      OrderlyKeepsTurn(sha, if Enabled(s, steps[0]) then Apply(sha, s, steps[0]) else s, steps[1..]);
    }
  }

  /** If coroutines of the path never overlap, the entry is exact whenever nothing is outstanding. */
  lemma {:induction false} OrderlySettles(sha: W.Content -> W.Hash, c: Option<W.Content>, steps: seq<Step>)
    requires Orderly(sha, Start(sha, c), steps)
    ensures var s := After(sha, Start(sha, c), steps); s.contents != [] && (Quiet(s) ==> Exact(sha, s))
  {
    StartHoldsInv(sha, c);
    OrderlyKeepsTurn(sha, Start(sha, c), steps);
  }

  /** The file is written, and the event taken. */
  function Taken(sha: W.Content -> W.Hash, s: State, content: W.Content): State
    requires s.contents != []
  {
    Apply(sha, Apply(sha, s, Change(Some(content))), Take)
  }

  /** With nothing queued, that leaves the event's timer behind those that it does not cancel. */
  lemma {:induction false} TakenMeaning(sha: W.Content -> W.Hash, s: State, content: W.Content)
    requires s.contents != [] && s.queue == []
    ensures
      var note := Note(Kind(s.contents[Last(s)], Some(content)), |s.contents|);
      Taken(sha, s, content) == s.(contents := s.contents + [Some(content)], timers := Cancelled(s.timers, s.pending) + [Timer(s.nextHandle, note)],
                                   pending := Some(s.nextHandle), nextHandle := s.nextHandle + 1)
  {
  }

  /** The event's timer fires, and its coroutine reads the file. */
  function Read(sha: W.Content -> W.Hash, s: State): State
    requires s.contents != [] && s.timers != [] && s.timers[0].note.kind != W.Deleted
  {
    var i := |s.workers|;
    Apply(sha, Apply(sha, Apply(sha, s, Fire), Begin(i)), Look(i))
  }

  lemma {:induction false} ReadMeaning(sha: W.Content -> W.Hash, s: State)
    requires s.contents != [] && s.contents[Last(s)].Some? && s.timers != [] && s.timers[0].note.kind != W.Deleted
    ensures Read(sha, s) == s.(timers := s.timers[1..], pending := None,
                               workers := s.workers + [Writing(sha(s.contents[Last(s)].value), Last(s))])
  {
  }

  /** If they do, an older hash can be written last: the first coroutine reads one version, the second the
      next, and the first writes after the second. */
  lemma {:induction false} Overtaken(sha: W.Content -> W.Hash, older: W.Content, newer: W.Content)
    ensures
      var s1 := Taken(sha, Start(sha, None), older);
      s1.timers != [] && s1.timers[0].note.kind != W.Deleted &&
      var s2 := Taken(sha, Read(sha, s1), newer);
      s2.timers != [] && s2.timers[0].note.kind != W.Deleted &&
      var s3 := Read(sha, s2);
      Enabled(s3, Write(1)) && Enabled(Apply(sha, s3, Write(1)), Write(0)) &&
      var s4 := Apply(sha, Apply(sha, s3, Write(1)), Write(0));
      Quiet(s4) && s4.contents == [None, Some(older), Some(newer)] && s4.entry == Some(sha(older))
      && (Exact(sha, s4) <==> sha(older) == sha(newer))
  {
    var s1 := Taken(sha, Start(sha, None), older);
    TakenMeaning(sha, Start(sha, None), older);
    assert s1.timers == [Timer(0, Note(W.Created, 1))];
    ReadMeaning(sha, s1);
    var r1 := Read(sha, s1);
    assert r1.timers == [] && r1.workers == [Writing(sha(older), 1)];
    TakenMeaning(sha, r1, newer);
    var s2 := Taken(sha, r1, newer);
    assert s2.timers == [Timer(1, Note(W.Modified, 2))];
    ReadMeaning(sha, s2);
    assert Read(sha, s2).workers == [Writing(sha(older), 1), Writing(sha(newer), 2)];
  }

  /** A coroutine that begins after the next event has been taken removes that event's timer from the
      dictionary, so that the event after it does not cancel it: two timers for one path. */
  lemma {:induction false} TwoTimers(sha: W.Content -> W.Hash, s: State, first: W.Content, second: W.Content, i: nat)
    requires s.contents != [] && s.queue == [] && s.timers == [] && i < |s.workers| && s.workers[i].Started?
    ensures
      var s1 := Taken(sha, s, first);
      Enabled(s1, Begin(i)) && |Taken(sha, Apply(sha, s1, Begin(i)), second).timers| == 2
  {
    TakenMeaning(sha, s, first);
    var s2 := Apply(sha, Taken(sha, s, first), Begin(i));
    assert |s2.timers| == 1 && s2.timers[..0] == [] && s2.pending == None;
    assert Cancelled(s2.timers, None) == s2.timers;
    TakenMeaning(sha, s2, second);
  }
}
