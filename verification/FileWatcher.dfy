/** FileWatcher: the registry of file hashes against the disk it describes, with events queued by the
    observer thread, debounced per path by timers, and processed when a timer fires. */
module FileWatcher {
  import opened Wrappers

  datatype Path = Path(text: string)
  datatype Content = Content(text: string)
  datatype Hash = Hash(hex: string)

  datatype Kind = Created | Modified | Deleted

  datatype Event = Event(path: Path, kind: Kind)

  /** A scheduled call of _process_event; a cancelled one is no longer scheduled. */
  datatype Timer = Timer(path: Path, kind: Kind, due: nat)

  type Handle = nat

  /** DEBOUNCE_SECONDS, in milliseconds. */
  const DEBOUNCE: nat := 500

  /** Something that happens to the files, to the watcher, or to the clock. */
  datatype Action =
    | Write(path: Path, content: Content)
    | Delete(path: Path)
    | Move(src: Path, dst: Path)
    | Take
    | FireTimer(handle: Handle)
    | Pass(ms: nat)

  /** The kind of the last queued event for `p`. */
  function LastQueued(queue: seq<Event>, p: Path): Option<Kind> {
    if queue == [] then None
    else if queue[|queue| - 1].path == p then Some(queue[|queue| - 1].kind)
    else LastQueued(queue[..|queue| - 1], p)
  }

  lemma {:induction false} LastQueuedTail(queue: seq<Event>, p: Path)
    requires queue != []
    ensures LastQueued(queue, p) ==
            if LastQueued(queue[1..], p).Some? then LastQueued(queue[1..], p)
            else if queue[0].path == p then Some(queue[0].kind) else None
  {
    var init := queue[..|queue| - 1];
    if |queue| == 1 {
      assert init == [] && queue[1..] == [];
    } else {
      LastQueuedTail(init, p);
      assert queue[1..][..|queue| - 2] == init[1..];
    }
  }

  lemma {:induction false} LastQueuedAppend(queue: seq<Event>, e: Event, p: Path)
    ensures LastQueued(queue + [e], p) == if e.path == p then Some(e.kind) else LastQueued(queue, p)
  {
    assert (queue + [e])[..|queue|] == queue;
  }

  /** The hashes of the files in `paths` that are not skipped. */
  ghost function ScanOf(disk: map<Path, Content>, paths: set<Path>, skip: Path -> bool, sha: Content -> Hash): map<Path, Hash>
    requires paths <= disk.Keys
  {
    map p | p in paths && !skip(p) :: sha(disk[p])
  }

  lemma {:induction false} ScanOne(disk: map<Path, Content>, done: set<Path>, p: Path, skip: Path -> bool, sha: Content -> Hash)
    requires done <= disk.Keys && p in disk
    ensures ScanOf(disk, done + {p}, skip, sha) ==
            if skip(p) then ScanOf(disk, done, skip, sha) else ScanOf(disk, done, skip, sha)[p := sha(disk[p])]
  {}

  lemma {:induction false} OverlayExact(before: map<Path, Hash>, scan: map<Path, Hash>)
    ensures before + scan == scan <==> forall p :: p in before ==> p in scan
  {
    if p :| p in before && p !in scan {
      assert p in before + scan;
    }
  }

  /** The kind of the last event for `p` still to be processed, queued ones coming after timers. */
  ghost function Outstanding(queue: seq<Event>, pending: map<Path, Handle>, scheduled: map<Handle, Timer>, p: Path): Option<Kind> {
    if LastQueued(queue, p).Some? then LastQueued(queue, p)
    else if p in pending && pending[p] in scheduled then Some(scheduled[pending[p]].kind)
    else None
  }

  ghost predicate Agrees(disk: map<Path, Content>, registry: map<Path, Hash>, sha: Content -> Hash, p: Path) {
    if p in disk then p in registry && registry[p] == sha(disk[p]) else p !in registry
  }

  /** A path either agrees with the disk, or is about to be looked at by an event, the `last` of those
      outstanding, that says rightly whether the file is there. */
  ghost predicate InStep(disk: map<Path, Content>, registry: map<Path, Hash>, sha: Content -> Hash, p: Path, last: Option<Kind>) {
    if last.None? then Agrees(disk, registry, sha, p) else last.value == Deleted <==> p !in disk
  }

  /** At most one timer per path, and none that is not the path's pending one. */
  ghost predicate OneTimerEach(pending: map<Path, Handle>, scheduled: map<Handle, Timer>) {
    && (forall p :: p in pending ==> pending[p] in scheduled && scheduled[pending[p]].path == p)
    && (forall h :: h in scheduled ==> scheduled[h].path in pending && pending[scheduled[h].path] == h)
  }

  /** Timers run out one debounce window after the last event of their path was taken. */
  ghost predicate TimersTimed(scheduled: map<Handle, Timer>, taken: map<Path, nat>, now: nat, nextHandle: Handle) {
    forall h :: h in scheduled ==>
      && h < nextHandle && scheduled[h].path in taken
      && scheduled[h].due == taken[scheduled[h].path] + DEBOUNCE && taken[scheduled[h].path] <= now
  }

  /** The timers after event `e` has been taken. */
  function Rescheduled(pending: map<Path, Handle>, scheduled: map<Handle, Timer>, h: Handle, t: Timer): map<Handle, Timer> {
    (if t.path in pending then scheduled - {pending[t.path]} else scheduled)[h := t]
  }

  lemma {:induction false} TakeInStep(disk: map<Path, Content>, registry: map<Path, Hash>, sha: Content -> Hash,
                   queue: seq<Event>, pending: map<Path, Handle>, scheduled: map<Handle, Timer>, h: Handle, t: Timer, p: Path)
    requires queue != [] && t.path == queue[0].path && t.kind == queue[0].kind && h !in scheduled && OneTimerEach(pending, scheduled)
    requires InStep(disk, registry, sha, p, Outstanding(queue, pending, scheduled, p))
    ensures InStep(disk, registry, sha, p, Outstanding(queue[1..], pending[t.path := h], Rescheduled(pending, scheduled, h, t), p))
  {
    LastQueuedTail(queue, p);
  }

  lemma {:induction false} TakeTimers(pending: map<Path, Handle>, scheduled: map<Handle, Timer>, h: Handle, t: Timer)
    requires OneTimerEach(pending, scheduled) && h !in scheduled
    ensures OneTimerEach(pending[t.path := h], Rescheduled(pending, scheduled, h, t))
  {}

  /** The registry after event `kind` of `p` has been processed. */
  function Processed(disk: map<Path, Content>, registry: map<Path, Hash>, sha: Content -> Hash, p: Path, kind: Kind): map<Path, Hash> {
    if kind == Deleted then registry - {p} else if p in disk then registry[p := sha(disk[p])] else registry
  }

  lemma {:induction false} FireInStep(disk: map<Path, Content>, registry: map<Path, Hash>, sha: Content -> Hash,
                   queue: seq<Event>, pending: map<Path, Handle>, scheduled: map<Handle, Timer>, h: Handle, p: Path)
    requires h in scheduled && OneTimerEach(pending, scheduled)
    requires InStep(disk, registry, sha, p, Outstanding(queue, pending, scheduled, p))
    ensures
      var t := scheduled[h];
      InStep(disk, Processed(disk, registry, sha, t.path, t.kind), sha, p, Outstanding(queue, pending - {t.path}, scheduled - {h}, p))
  {}

  /** A change of file `q`, rightly reported. */
  lemma {:induction false} ReportInStep(disk: map<Path, Content>, disk': map<Path, Content>, registry: map<Path, Hash>, sha: Content -> Hash, skip: Path -> bool,
                     queue: seq<Event>, pending: map<Path, Handle>, scheduled: map<Handle, Timer>, q: Path, kind: Kind, p: Path)
    requires !skip(p) && InStep(disk, registry, sha, p, Outstanding(queue, pending, scheduled, p))
    requires if p == q then kind == Deleted <==> q !in disk' else (p in disk <==> p in disk') && (p in disk ==> disk[p] == disk'[p])
    ensures InStep(disk', registry, sha, p, Outstanding(if skip(q) then queue else queue + [Event(q, kind)], pending, scheduled, p))
  {
    LastQueuedAppend(queue, Event(q, kind), p);
  }

  lemma {:induction false} MoveInStep(disk: map<Path, Content>, registry: map<Path, Hash>, sha: Content -> Hash, skip: Path -> bool,
                   queue: seq<Event>, pending: map<Path, Handle>, scheduled: map<Handle, Timer>, src: Path, dst: Path, p: Path)
    requires src in disk && src != dst && !skip(p)
    requires InStep(disk, registry, sha, p, Outstanding(queue, pending, scheduled, p))
    ensures
      var q1 := if skip(src) then queue else queue + [Event(src, Deleted)];
      var q2 := if skip(dst) then q1 else q1 + [Event(dst, Created)];
      InStep((disk - {src})[dst := disk[src]], registry, sha, p, Outstanding(q2, pending, scheduled, p))
  {
    var q1 := if skip(src) then queue else queue + [Event(src, Deleted)];
    var gone := disk - {src};
    ReportInStep(disk, gone, registry, sha, skip, queue, pending, scheduled, src, Deleted, p);
    ReportInStep(gone, gone[dst := disk[src]], registry, sha, skip, q1, pending, scheduled, dst, Created, p);
  }

  /** The whole state; `taken` says when the last event of each path was taken from the queue. */
  datatype Watch = Watch(disk: map<Path, Content>, registry: map<Path, Hash>, queue: seq<Event>, pending: map<Path, Handle>,
                         scheduled: map<Handle, Timer>, now: nat, nextHandle: Handle, taken: map<Path, nat>)

  /** _Handler._enqueue */
  function Reported(queue: seq<Event>, skip: Path -> bool, p: Path, kind: Kind): seq<Event> {
    if skip(p) then queue else queue + [Event(p, kind)]
  }

  /** What an action does; one that cannot happen does nothing. */
  function Step(skip: Path -> bool, sha: Content -> Hash, w: Watch, a: Action): Watch {
    match a
    case Write(p, content) => w.(disk := w.disk[p := content], queue := Reported(w.queue, skip, p, if p in w.disk then Modified else Created))
    case Delete(p) => if p in w.disk then w.(disk := w.disk - {p}, queue := Reported(w.queue, skip, p, Deleted)) else w
    case Move(src, dst) =>
      if src in w.disk && src != dst then
        w.(disk := (w.disk - {src})[dst := w.disk[src]], queue := Reported(Reported(w.queue, skip, src, Deleted), skip, dst, Created))
      else w
    case Take =>
      if w.queue == [] then w
      else
        var e := w.queue[0];
        w.(queue := w.queue[1..], pending := w.pending[e.path := w.nextHandle],
           scheduled := Rescheduled(w.pending, w.scheduled, w.nextHandle, Timer(e.path, e.kind, w.now + DEBOUNCE)),
           nextHandle := w.nextHandle + 1, taken := w.taken[e.path := w.now])
    case FireTimer(h) =>
      if h in w.scheduled && w.scheduled[h].due <= w.now then
        var t := w.scheduled[h];
        w.(scheduled := w.scheduled - {h}, pending := w.pending - {t.path}, registry := Processed(w.disk, w.registry, sha, t.path, t.kind))
      else w
    case Pass(ms) => w.(now := w.now + ms)
  }

  function After(skip: Path -> bool, sha: Content -> Hash, w: Watch, actions: seq<Action>): Watch
    decreases |actions|
  {
    if actions == [] then w else After(skip, sha, Step(skip, sha, w, actions[0]), actions[1..])
  }

  ghost predicate TimersRight(w: Watch) {
    OneTimerEach(w.pending, w.scheduled) && TimersTimed(w.scheduled, w.taken, w.now, w.nextHandle)
  }

  ghost predicate SkipsRight(skip: Path -> bool, w: Watch) {
    && (forall k :: 0 <= k < |w.queue| ==> !skip(w.queue[k].path))
    && (forall p :: p in w.pending || p in w.registry ==> !skip(p))
  }

  ghost predicate PathsInStep(skip: Path -> bool, sha: Content -> Hash, w: Watch) {
    forall p :: !skip(p) ==> InStep(w.disk, w.registry, sha, p, Outstanding(w.queue, w.pending, w.scheduled, p))
  }

  ghost predicate Right(skip: Path -> bool, sha: Content -> Hash, w: Watch) {
    TimersRight(w) && SkipsRight(skip, w) && PathsInStep(skip, sha, w)
  }

  lemma {:induction false} ReportSkips(skip: Path -> bool, queue: seq<Event>, p: Path, kind: Kind)
    requires forall k :: 0 <= k < |queue| ==> !skip(queue[k].path)
    ensures forall k :: 0 <= k < |Reported(queue, skip, p, kind)| ==> !skip(Reported(queue, skip, p, kind)[k].path)
  {
  }

  /** A write or a deletion. */
  lemma {:induction false} ChangeKeeps(skip: Path -> bool, sha: Content -> Hash, w: Watch, q: Path, disk: map<Path, Content>, kind: Kind)
    requires Right(skip, sha, w) && (kind == Deleted <==> q !in disk)
    requires forall p :: p != q ==> (p in w.disk <==> p in disk) && (p in w.disk ==> w.disk[p] == disk[p])
    ensures Right(skip, sha, w.(disk := disk, queue := Reported(w.queue, skip, q, kind)))
  {
    ReportSkips(skip, w.queue, q, kind);
    forall p | !skip(p)
      ensures InStep(disk, w.registry, sha, p, Outstanding(Reported(w.queue, skip, q, kind), w.pending, w.scheduled, p))
    {
      ReportInStep(w.disk, disk, w.registry, sha, skip, w.queue, w.pending, w.scheduled, q, kind, p);
    }
  }

  lemma {:induction false} MoveKeeps(skip: Path -> bool, sha: Content -> Hash, w: Watch, src: Path, dst: Path)
    requires Right(skip, sha, w) && src in w.disk && src != dst
    ensures Right(skip, sha, Step(skip, sha, w, Move(src, dst)))
  {
    ReportSkips(skip, w.queue, src, Deleted);
    ReportSkips(skip, Reported(w.queue, skip, src, Deleted), dst, Created);
    forall p | !skip(p)
      ensures InStep((w.disk - {src})[dst := w.disk[src]], w.registry, sha, p,
                     Outstanding(Reported(Reported(w.queue, skip, src, Deleted), skip, dst, Created), w.pending, w.scheduled, p))
    {
      MoveInStep(w.disk, w.registry, sha, skip, w.queue, w.pending, w.scheduled, src, dst, p);
    }
  }

  lemma {:induction false} TakeKeeps(skip: Path -> bool, sha: Content -> Hash, w: Watch)
    requires Right(skip, sha, w) && w.queue != []
    ensures Right(skip, sha, Step(skip, sha, w, Take))
  {
    TakeTimersRight(skip, sha, w);
    TakeSkips(skip, sha, w);
    TakePaths(skip, sha, w);
  }

  lemma {:induction false} TakeTimersRight(skip: Path -> bool, sha: Content -> Hash, w: Watch)
    requires TimersRight(w) && w.queue != []
    ensures TimersRight(Step(skip, sha, w, Take)) && w.nextHandle !in w.scheduled
  {
    var t := Timer(w.queue[0].path, w.queue[0].kind, w.now + DEBOUNCE);
    TakeTimers(w.pending, w.scheduled, w.nextHandle, t);
    TakeTimed(w, t);
  }

  lemma {:induction false} TakeSkips(skip: Path -> bool, sha: Content -> Hash, w: Watch)
    requires SkipsRight(skip, w) && w.queue != []
    ensures SkipsRight(skip, Step(skip, sha, w, Take))
  {
    assert forall k :: 0 <= k < |w.queue| - 1 ==> w.queue[1..][k] == w.queue[k + 1];
  }

  lemma {:induction false} TakePaths(skip: Path -> bool, sha: Content -> Hash, w: Watch)
    requires PathsInStep(skip, sha, w) && OneTimerEach(w.pending, w.scheduled) && w.nextHandle !in w.scheduled && w.queue != []
    ensures PathsInStep(skip, sha, Step(skip, sha, w, Take))
  {
    var t := Timer(w.queue[0].path, w.queue[0].kind, w.now + DEBOUNCE);
    forall p | !skip(p)
      ensures InStep(w.disk, w.registry, sha, p,
                     Outstanding(w.queue[1..], w.pending[t.path := w.nextHandle], Rescheduled(w.pending, w.scheduled, w.nextHandle, t), p))
    {
      TakeInStep(w.disk, w.registry, sha, w.queue, w.pending, w.scheduled, w.nextHandle, t, p);
    }
  }

  lemma {:induction false} TakeTimed(w: Watch, t: Timer)
    requires TimersRight(w) && t.due == w.now + DEBOUNCE
    ensures TimersTimed(Rescheduled(w.pending, w.scheduled, w.nextHandle, t), w.taken[t.path := w.now], w.now, w.nextHandle + 1)
  {
  }

  lemma {:induction false} FireKeeps(skip: Path -> bool, sha: Content -> Hash, w: Watch, h: Handle)
    requires Right(skip, sha, w) && h in w.scheduled && w.scheduled[h].due <= w.now
    ensures Right(skip, sha, Step(skip, sha, w, FireTimer(h)))
    ensures w.scheduled[h].path in w.taken && w.taken[w.scheduled[h].path] + DEBOUNCE <= w.now
  {
    FirePaths(skip, sha, w, h);
  }

  lemma {:induction false} FirePaths(skip: Path -> bool, sha: Content -> Hash, w: Watch, h: Handle)
    requires PathsInStep(skip, sha, w) && OneTimerEach(w.pending, w.scheduled) && h in w.scheduled && w.scheduled[h].due <= w.now
    ensures PathsInStep(skip, sha, Step(skip, sha, w, FireTimer(h)))
  {
    var t := w.scheduled[h];
    forall p | !skip(p)
      ensures InStep(w.disk, Processed(w.disk, w.registry, sha, t.path, t.kind), sha, p, Outstanding(w.queue, w.pending - {t.path}, w.scheduled - {h}, p))
    {
      FireInStep(w.disk, w.registry, sha, w.queue, w.pending, w.scheduled, h, p);
    }
  }

  class FileWatcher {
    const skip: Path -> bool            // _should_skip
    const sha: Content -> Hash          // _sha256 of a readable file
    var disk: map<Path, Content>
    var registry: map<Path, Hash>       // filewatch:hashes
    var queue: seq<Event>               // _queue
    var pending: map<Path, Handle>      // _pending_debounce
    var scheduled: map<Handle, Timer>   // the event loop's timers that have not been cancelled
    var now: nat
    var nextHandle: Handle
    ghost var taken: map<Path, nat>     // when the last event of each path was taken from the queue

    ghost function View(): Watch
      reads this
    {
      Watch(disk, registry, queue, pending, scheduled, now, nextHandle, taken)
    }

    ghost predicate TimersOk()
      reads this
    {
      TimersRight(View())
    }

    ghost predicate Valid()
      reads this
    {
      Right(skip, sha, View())
    }

    /** What a full scan of the disk finds. */
    ghost function Scan(): map<Path, Hash>
      reads this
    {
      ScanOf(disk, disk.Keys, skip, sha)
    }

    ghost predicate Quiet()
      reads this
    {
      queue == [] && pending == map[]
    }

    /** With nothing outstanding, the registry is that of a full scan. */
    lemma {:induction false} QuietMeansExact()
      requires Valid() && Quiet()
      ensures registry == Scan()
    {
      forall p | p in registry || p in Scan() ensures p in registry && p in Scan() && registry[p] == Scan()[p] {
        assert InStep(disk, registry, sha, p, Outstanding(queue, pending, scheduled, p));
      }
    }

    constructor (skip: Path -> bool, sha: Content -> Hash, disk: map<Path, Content>, registry: map<Path, Hash>)
      ensures this.disk == disk && this.registry == registry && this.skip == skip && this.sha == sha
      ensures Quiet() && TimersOk()
    {
      this.skip, this.sha, this.disk, this.registry := skip, sha, disk, registry;
      queue, pending, scheduled, now, nextHandle, taken := [], map[], map[], 0, 0, map[];
    }

    /** Sets the hash of every file and deletes nothing: the registry is exact afterwards exactly when
        it held no path that is skipped or gone. */
    method FullScan()
      requires Quiet() && TimersOk()
      modifies this`registry
      ensures registry == old(registry) + Scan()
      ensures registry == Scan() <==> forall p :: p in old(registry) ==> p in disk && !skip(p)
      ensures registry == Scan() ==> Valid()
    {
      var left := disk.Keys;
      while left != {}
        invariant left <= disk.Keys
        invariant registry == old(registry) + ScanOf(disk, disk.Keys - left, skip, sha)
        decreases left
      {
        var p :| p in left;
        ghost var done := disk.Keys - left;
        left := left - {p};
        assert disk.Keys - left == done + {p};
        ScanOne(disk, done, p, skip, sha);
        if !skip(p) { registry := registry[p := sha(disk[p])]; }
      }
      assert disk.Keys - left == disk.Keys;
      OverlayExact(old(registry), Scan());
      if registry == Scan() { ScanIsInStep(); }
    }

    lemma {:induction false} ScanIsInStep()
      requires Quiet() && TimersOk() && registry == Scan()
      ensures Valid()
    {}

    /** _Handler._enqueue */
    method Report(kind: Kind, p: Path)
      modifies this`queue
      ensures queue == Reported(old(queue), skip, p, kind)
    {
      if skip(p) { return; }
      queue := queue + [Event(p, kind)];
    }

    /** A file is written, which the observer reports as created or modified. */
    method WriteFile(p: Path, content: Content)
      requires Valid()
      modifies this`disk, this`queue
      ensures Valid() && View() == Step(skip, sha, old(View()), Write(p, content))
    {
      var kind := if p in disk then Modified else Created;
      ChangeKeeps(skip, sha, View(), p, disk[p := content], kind);
      disk := disk[p := content];
      Report(kind, p);
    }

    method DeleteFile(p: Path)
      requires Valid() && p in disk
      modifies this`disk, this`queue
      ensures Valid() && View() == Step(skip, sha, old(View()), Delete(p))
    {
      ChangeKeeps(skip, sha, View(), p, disk - {p}, Deleted);
      disk := disk - {p};
      Report(Deleted, p);
    }

    /** A move is reported as a deletion and a creation. */
    method MoveFile(src: Path, dst: Path)
      requires Valid() && src in disk && src != dst
      modifies this`disk, this`queue
      ensures Valid() && View() == Step(skip, sha, old(View()), Move(src, dst))
    {
      MoveKeeps(skip, sha, View(), src, dst);
      disk := (disk - {src})[dst := disk[src]];
      Report(Deleted, src);
      Report(Created, dst);
    }

    /** One turn of _event_worker: restart the timer of the event's path. */
    method TakeEvent()
      requires Valid() && queue != []
      modifies this`queue, this`pending, this`scheduled, this`nextHandle, this`taken
      ensures Valid() && queue == old(queue)[1..] && nextHandle == old(nextHandle) + 1
      ensures pending == old(pending)[old(queue)[0].path := old(nextHandle)] && taken == old(taken)[old(queue)[0].path := now]
      ensures scheduled == Rescheduled(old(pending), old(scheduled), old(nextHandle), Timer(old(queue)[0].path, old(queue)[0].kind, now + DEBOUNCE))
    {
      TakeKeeps(skip, sha, View());
      ghost var next := Step(skip, sha, View(), Take);
      ReplaceTimer(queue[0].path, queue[0].kind);
      queue := queue[1..];
      assert View() == next;
    }

    /** Cancels the path's timer, if any, and schedules another. */
    method ReplaceTimer(p: Path, kind: Kind)
      modifies this`pending, this`scheduled, this`nextHandle, this`taken
      ensures pending == old(pending)[p := old(nextHandle)] && taken == old(taken)[p := now] && nextHandle == old(nextHandle) + 1
      ensures scheduled == Rescheduled(old(pending), old(scheduled), old(nextHandle), Timer(p, kind, now + DEBOUNCE))
    {
      if p in pending {
        scheduled := scheduled - {pending[p]};
        pending := pending - {p};
      }
      scheduled := scheduled[nextHandle := Timer(p, kind, now + DEBOUNCE)];
      pending := pending[p := nextHandle];
      nextHandle := nextHandle + 1;
      taken := taken[p := now];
    }

    /** A timer fires and its event is processed, as one step. No event of the path has been taken
        within the debounce window. */
    method Fire(h: Handle)
      requires Valid() && h in scheduled && scheduled[h].due <= now
      modifies this`registry, this`pending, this`scheduled
      ensures Valid() && scheduled == old(scheduled) - {h} && pending == old(pending) - {old(scheduled)[h].path}
      ensures registry == Processed(disk, old(registry), sha, old(scheduled)[h].path, old(scheduled)[h].kind)
      ensures old(scheduled)[h].path in taken && taken[old(scheduled)[h].path] + DEBOUNCE <= now
    {
      FireKeeps(skip, sha, View(), h);
      ghost var next := Step(skip, sha, View(), FireTimer(h));
      var t := scheduled[h];
      scheduled := scheduled - {h};
      ProcessEvent(t.path, t.kind);
      assert View() == next;
    }

    method ProcessEvent(p: Path, kind: Kind)
      modifies this`registry, this`pending
      ensures pending == old(pending) - {p} && registry == Processed(disk, old(registry), sha, p, kind)
    {
      pending := pending - {p};
      if kind == Deleted {
        registry := registry - {p};
      } else if p in disk {
        registry := registry[p := sha(disk[p])];
      }
    }

    method Wait(ms: nat)
      requires Valid()
      modifies this`now
      ensures Valid() && now == old(now) + ms
    {
      now := now + ms;
    }

    /** Whatever happens to the files, and whenever the worker and the timers get their turn: once
        nothing is outstanding, the registry is that of a full scan. */
    method Run(actions: seq<Action>)
      requires Valid()
      modifies this
      ensures Valid() && View() == After(skip, sha, old(View()), actions)
      ensures Quiet() ==> registry == Scan()
    {
      ghost var target := After(skip, sha, View(), actions);
      assert actions[0..] == actions;
      for i := 0 to |actions|
        invariant Valid() && After(skip, sha, View(), actions[i..]) == target
      {
        assert actions[i..][1..] == actions[i + 1..];
        Perform(actions[i]);
      }
      if Quiet() { QuietMeansExact(); }
    }

    method Perform(a: Action)
      requires Valid()
      modifies this
      ensures Valid() && View() == Step(skip, sha, old(View()), a)
    {
      match a
      case Write(p, content) => WriteFile(p, content);
      case Delete(p) => if p in disk { DeleteFile(p); }
      case Move(src, dst) => if src in disk && src != dst { MoveFile(src, dst); }
      case Take => TakeAny();
      case FireTimer(h) => FireDue(h);
      case Pass(ms) => Wait(ms);
    }

    method TakeAny()
      requires Valid()
      modifies this`queue, this`pending, this`scheduled, this`nextHandle, this`taken
      ensures Valid() && View() == Step(skip, sha, old(View()), Take)
    {
      if queue != [] { TakeEvent(); }
    }

    method FireDue(h: Handle)
      requires Valid()
      modifies this`registry, this`pending, this`scheduled
      ensures Valid() && View() == Step(skip, sha, old(View()), FireTimer(h))
    {
      if h in scheduled && scheduled[h].due <= now { Fire(h); }
    }

    /** Once the files are left alone, the queue runs empty, the last timers fire one window later, and
        the registry is exact. */
    method Settle()
      requires Valid()
      modifies this
      ensures Valid() && Quiet() && disk == old(disk) && registry == Scan()
    {
      while queue != []
        invariant Valid() && disk == old(disk)
        decreases |queue|
      {
        TakeEvent();
      }
      Wait(DEBOUNCE);
      FireAll();
      QuietMeansExact();
    }

    /** The remaining timers, all of them due. */
    method FireAll()
      requires Valid() && queue == [] && forall h :: h in scheduled ==> scheduled[h].due <= now
      modifies this`registry, this`pending, this`scheduled
      ensures Valid() && Quiet()
    {
      while scheduled.Keys != {}
        invariant Valid() && forall h :: h in scheduled ==> scheduled[h].due <= now
        decreases scheduled.Keys
      {
        var h :| h in scheduled.Keys;
        Fire(h);
      }
      assert forall p :: p in pending ==> pending[p] in scheduled.Keys;
      assert pending.Keys == {};
    }
  }
}
