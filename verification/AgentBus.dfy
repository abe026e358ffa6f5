/** The in-process half of the agent bus: one bounded queue for each session, made when first needed
    and dropped when the session ends, while a reader keeps the queue it started on. */
module AgentBus {
  import opened Sequences

  const QUEUE_MAXSIZE: nat := 256

  datatype EventType = TOKEN | WORK_COMPLETE | WORK_FAILED | PATCH_APPLIED | TEST_RESULT | INTERRUPT | STATUS | DEBATE_POINT

  datatype Session = Session(name: string)

  datatype Payload = Payload(text: string)

  datatype Event = Event(kind: EventType, payload: Payload)

  datatype Item = Queued(event: Event) | Sentinel

  /** What happened to the bus, in order. */
  datatype Call = Published(session: Session, event: Event) | Cleaned(session: Session)

  predicate ForArchitect(e: Event) {
    e.kind.WORK_COMPLETE? || e.kind.WORK_FAILED? || e.kind.PATCH_APPLIED? || e.kind.TEST_RESULT?
    || e.kind.DEBATE_POINT? || e.kind.INTERRUPT?
  }

  /** The architect is told everything but tokens and general status updates. */
  lemma {:induction false} ForArchitectMeaning(e: Event)
    ensures !ForArchitect(e) <==> e.kind in {TOKEN, STATUS}
  {
  }

  function Filter(events: seq<Event>): seq<Event> {
    if events == [] then []
    else Filter(events[..|events| - 1]) + if ForArchitect(events[|events| - 1]) then [events[|events| - 1]] else []
  }

  function EventsOf(items: seq<Item>): seq<Event> {
    if items == [] then []
    else (if items[0].Queued? then [items[0].event] else []) + EventsOf(items[1..])
  }

  lemma {:induction false} EventsOfAppend(items: seq<Item>, item: Item)
    ensures EventsOf(items + [item]) == EventsOf(items) + if item.Queued? then [item.event] else []
  {
    if items == [] {
      assert items + [item] == [item];
      EventsOfOne(item);
    } else {
      EventsOfAppend(items[1..], item);
      var first := if items[0].Queued? then [items[0].event] else [];
      var last := if item.Queued? then [item.event] else [];
      assert (items + [item])[1..] == items[1..] + [item];
      assert EventsOf(items + [item]) == first + EventsOf(items[1..] + [item]);
      Associate(first, EventsOf(items[1..]), last);
    }
  }

  lemma {:induction false} EventsOfOne(item: Item)
    ensures EventsOf([item]) == if item.Queued? then [item.event] else []
  {
    assert [item][1..] == [];
  }

  /** The events, tokens apart, published to a session since it was last cleaned up. */
  function SinceCleanup(trace: seq<Call>, session: Session): seq<Event> {
    if trace == [] then []
    else
      var before, last := SinceCleanup(trace[..|trace| - 1], session), trace[|trace| - 1];
      if last.session != session then before
      else if last.Cleaned? then []
      else if last.event.kind.TOKEN? then before
      else before + [last.event]
  }

  lemma {:induction false} SinceNext(trace: seq<Call>, call: Call, session: Session)
    ensures SinceCleanup(trace + [call], session) ==
      if call.session != session then SinceCleanup(trace, session)
      else if call.Cleaned? then []
      else SinceCleanup(trace, session) + if call.event.kind.TOKEN? then [] else [call.event]
  {
    assert (trace + [call])[..|trace|] == trace;
  }

  /** An event taken from a queue, and the reader that took it. */
  datatype Taken = Taken(reader: nat, event: Event)

  function EventsTaken(taken: seq<Taken>): seq<Event> {
    seq(|taken|, i requires 0 <= i < |taken| => taken[i].event)
  }

  function TakenBy(taken: seq<Taken>, reader: nat): seq<Event> {
    if taken == [] then []
    else TakenBy(taken[..|taken| - 1], reader) + if taken[|taken| - 1].reader == reader then [taken[|taken| - 1].event] else []
  }

  /** What has happened to a queue: the events offered to it and which of them fitted, what was taken
      from it, and when its session was cleaned up. */
  datatype Log = Log(offered: seq<Event>, kept: seq<bool>, taken: seq<Taken>, end: End)

  datatype End = Open | Closed(at: nat)

  /** What is queued and what was taken make up what was accepted. */
  ghost predicate Balanced(items: seq<Item>, log: Log) {
    && |log.offered| == |log.kept| && |items| <= QUEUE_MAXSIZE
    && (forall i :: 0 <= i < |items| && items[i].Sentinel? ==> log.end.Closed? && i == |items| - 1)
    && Select(log.offered, log.kept) == EventsTaken(log.taken) + EventsOf(items)
  }

  /** In its time a queue is offered every event published to its session. */
  ghost predicate Faithful(session: Session, log: Log, trace: seq<Call>) {
    match log.end
    case Open => log.offered == SinceCleanup(trace, session)
    case Closed(at) => at < |trace| && trace[at] == Cleaned(session) && log.offered == SinceCleanup(trace[..at], session)
  }

  lemma {:induction false} PutBalances(items: seq<Item>, log: Log, e: Event)
    requires Balanced(items, log) && log.end.Open?
    ensures var ok := |items| < QUEUE_MAXSIZE;
            Balanced(if ok then items + [Queued(e)] else items, log.(offered := log.offered + [e], kept := log.kept + [ok]))
  {
    SelectAppend(log.offered, log.kept, e, |items| < QUEUE_MAXSIZE);
    EventsOfAppend(items, Queued(e));
  }

  lemma {:induction false} CloseBalances(items: seq<Item>, log: Log, at: nat)
    requires Balanced(items, log) && log.end.Open?
    ensures Balanced(if |items| < QUEUE_MAXSIZE then items + [Sentinel] else items, log.(end := Closed(at)))
  {
    EventsOfAppend(items, Sentinel);
  }

  lemma {:induction false} TakeBalances(items: seq<Item>, log: Log, reader: nat)
    requires Balanced(items, log) && items != []
    ensures Balanced(items[1..], if items[0].Queued? then log.(taken := log.taken + [Taken(reader, items[0].event)]) else log)
  {
    assert forall i :: 0 <= i < |items| - 1 ==> items[1..][i] == items[i + 1];
    if items[0].Queued? { TakenNext(log.taken, reader, items[0].event, EventsOf(items[1..])); }
  }

  lemma {:induction false} TakenNext(taken: seq<Taken>, reader: nat, e: Event, later: seq<Event>)
    ensures EventsTaken(taken) + ([e] + later) == EventsTaken(taken + [Taken(reader, e)]) + later
  {
  }

  /** An asyncio queue. */
  datatype Queue = Queue(session: Session, items: seq<Item>, log: Log)

  function NewQueue(session: Session): Queue { Queue(session, [], Log([], [], [], Open)) }

  /** put_nowait of an event. */
  function Put(q: Queue, e: Event): Queue {
    var ok := |q.items| < QUEUE_MAXSIZE;
    q.(items := if ok then q.items + [Queued(e)] else q.items,
       log := q.log.(offered := q.log.offered + [e], kept := q.log.kept + [ok]))
  }

  /** put_nowait of the sentinel. */
  function Close(q: Queue, at: nat): Queue {
    q.(items := if |q.items| < QUEUE_MAXSIZE then q.items + [Sentinel] else q.items, log := q.log.(end := Closed(at)))
  }

  function Take(q: Queue, reader: nat): Queue
    requires q.items != []
  {
    q.(items := q.items[1..],
       log := if q.items[0].Queued? then q.log.(taken := q.log.taken + [Taken(reader, q.items[0].event)]) else q.log)
  }

  /** A subscribe_architect generator: the queue it got when it started, what it has yielded. */
  datatype Reader = Reader(queue: nat, yielded: seq<Event>, stopped: bool)

  /** What a reader has yielded is what the architect cares about among what it took. */
  ghost predicate Yields(yielded: seq<Event>, taken: seq<Taken>, reader: nat) {
    yielded == Filter(TakenBy(taken, reader))
  }

  ghost predicate TakenBelow(taken: seq<Taken>, n: nat) {
    forall k :: 0 <= k < |taken| ==> taken[k].reader < n
  }

  lemma {:induction false} FilterAppend(events: seq<Event>, e: Event)
    ensures Filter(events + [e]) == Filter(events) + if ForArchitect(e) then [e] else []
  {
    assert (events + [e])[..|events|] == events;
  }

  lemma {:induction false} TakenByAppend(taken: seq<Taken>, t: Taken, reader: nat)
    ensures TakenBy(taken + [t], reader) == TakenBy(taken, reader) + if t.reader == reader then [t.event] else []
  {
    assert (taken + [t])[..|taken|] == taken;
  }

  lemma {:induction false} TakeYields(yielded: seq<Event>, taken: seq<Taken>, reader: nat, t: Taken)
    requires Yields(yielded, taken, reader)
    ensures Yields(if reader == t.reader && ForArchitect(t.event) then yielded + [t.event] else yielded, taken + [t], reader)
  {
    TakenByAppend(taken, t, reader);
    if reader == t.reader {
      FilterAppend(TakenBy(taken, reader), t.event);
    } else {
      assert TakenBy(taken + [t], reader) == TakenBy(taken, reader);
    }
  }

  lemma {:induction false} NotYetTaken(taken: seq<Taken>, reader: nat)
    requires TakenBelow(taken, reader)
    ensures TakenBy(taken, reader) == []
  {
    if taken != [] { NotYetTaken(taken[..|taken| - 1], reader); }
  }

  lemma {:induction false} FirstYields(taken: seq<Taken>, reader: nat)
    requires TakenBelow(taken, reader)
    ensures Yields([], taken, reader)
  {
    NotYetTaken(taken, reader);
  }

  lemma {:induction false} TakenBelowMore(taken: seq<Taken>, n: nat)
    requires TakenBelow(taken, n)
    ensures TakenBelow(taken, n + 1)
  {
  }

  /** The trace growing by a call that is not about the queue's own life. */
  lemma {:induction false} FaithfulLater(session: Session, log: Log, trace: seq<Call>, call: Call)
    requires Faithful(session, log, trace)
    requires log.end.Closed? || call.session != session || (call.Published? && call.event.kind.TOKEN?)
    ensures Faithful(session, log, trace + [call])
  {
    SinceNext(trace, call, session);
    if log.end.Closed? { assert (trace + [call])[..log.end.at] == trace[..log.end.at]; }
  }

  // ---- The bus -------------------------------------------------------------------------------------

  datatype Action = Publish(session: Session, event: Event) | Subscribe(session: Session) | Next(reader: nat) | Cleanup(session: Session)

  /** `pool` holds every queue ever made; the dictionary and the readers refer to it. `trace` records
      the calls. */
  datatype Bus = Bus(queues: map<Session, nat>, pool: seq<Queue>, readers: seq<Reader>, trace: seq<Call>)

  const EMPTY: Bus := Bus(map[], [], [], [])

  ghost predicate Registered(b: Bus) {
    && (forall s :: s in b.queues ==> b.queues[s] < |b.pool| && b.pool[b.queues[s]].session == s && b.pool[b.queues[s]].log.end.Open?)
    && (forall k :: 0 <= k < |b.pool| && b.pool[k].log.end.Open? ==> b.pool[k].session in b.queues && b.queues[b.pool[k].session] == k)
  }

  ghost predicate Sound(q: Queue, trace: seq<Call>) {
    Balanced(q.items, q.log) && Faithful(q.session, q.log, trace)
  }

  ghost predicate QueuesSound(b: Bus) {
    forall k :: 0 <= k < |b.pool| ==> Sound(b.pool[k], b.trace)
  }

  ghost predicate ReaderSound(r: Reader, i: nat, q: Queue) {
    Yields(r.yielded, q.log.taken, i) && (r.stopped ==> q.log.end.Closed? && q.items == [])
  }

  ghost predicate ReadersSound(b: Bus) {
    && (forall i :: 0 <= i < |b.readers| ==> b.readers[i].queue < |b.pool| && ReaderSound(b.readers[i], i, b.pool[b.readers[i].queue]))
    && (forall k :: 0 <= k < |b.pool| ==> TakenBelow(b.pool[k].log.taken, |b.readers|))
  }

  ghost predicate QuietElsewhere(b: Bus) {
    forall s :: s !in b.queues ==> SinceCleanup(b.trace, s) == []
  }

  ghost predicate Inv(b: Bus) {
    Registered(b) && QueuesSound(b) && ReadersSound(b) && QuietElsewhere(b)
  }

  /** _get_queue */
  function WithQueue(b: Bus, session: Session): Bus {
    if session in b.queues then b else b.(queues := b.queues[session := |b.pool|], pool := b.pool + [NewQueue(session)])
  }

  lemma {:induction false} NewReaders(b: Bus, session: Session)
    requires Inv(b) && session !in b.queues
    ensures ReadersSound(WithQueue(b, session))
  {
    var t := WithQueue(b, session);
    assert forall k :: 0 <= k < |b.pool| ==> t.pool[k] == b.pool[k];
  }

  lemma {:induction false} NewQueues(b: Bus, session: Session)
    requires Inv(b) && session !in b.queues
    ensures QueuesSound(WithQueue(b, session))
  {
    assert Sound(NewQueue(session), b.trace);
  }

  lemma {:induction false} WithQueueKeeps(b: Bus, session: Session)
    requires Inv(b)
    ensures Inv(WithQueue(b, session))
  {
    if session !in b.queues {
      NewReaders(b, session);
      NewQueues(b, session);
    }
  }

  function Subscribed(b: Bus, session: Session): Bus {
    var t := WithQueue(b, session);
    t.(readers := t.readers + [Reader(t.queues[session], [], false)])
  }

  lemma {:induction false} AddReader(b: Bus, k: nat)
    requires Inv(b) && k < |b.pool|
    ensures ReadersSound(b.(readers := b.readers + [Reader(k, [], false)]))
  {
    FirstYields(b.pool[k].log.taken, |b.readers|);
    forall k | 0 <= k < |b.pool| ensures TakenBelow(b.pool[k].log.taken, |b.readers| + 1) { TakenBelowMore(b.pool[k].log.taken, |b.readers|); }
  }

  lemma {:induction false} SubscribedKeeps(b: Bus, session: Session)
    requires Inv(b)
    ensures Inv(Subscribed(b, session))
  {
    WithQueueKeeps(b, session);
    AddReader(WithQueue(b, session), WithQueue(b, session).queues[session]);
  }

  /** The session's queue takes in an event. */
  ghost function Offered(b: Bus, session: Session, e: Event): Bus
    requires Registered(b) && session in b.queues
  {
    var k := b.queues[session];
    b.(pool := b.pool[k := Put(b.pool[k], e)], trace := b.trace + [Published(session, e)])
  }

  /** publish; a token is refused at the gate. */
  ghost function Publishing(b: Bus, session: Session, e: Event): Bus
    requires Inv(b)
  {
    WithQueueKeeps(b, session);
    if e.kind.TOKEN? then b.(trace := b.trace + [Published(session, e)]) else Offered(WithQueue(b, session), session, e)
  }

  lemma {:induction false} PutSound(q: Queue, trace: seq<Call>, e: Event)
    requires Sound(q, trace) && q.log.end.Open? && !e.kind.TOKEN?
    ensures Sound(Put(q, e), trace + [Published(q.session, e)])
  {
    PutBalances(q.items, q.log, e);
    SinceNext(trace, Published(q.session, e), q.session);
  }

  lemma {:induction false} OfferedQueues(b: Bus, session: Session, e: Event)
    requires Inv(b) && session in b.queues && !e.kind.TOKEN?
    ensures QueuesSound(Offered(b, session, e))
  {
    var t, at := Offered(b, session, e), b.queues[session];
    forall k | 0 <= k < |t.pool| ensures Sound(t.pool[k], t.trace) {
      if k == at { PutSound(b.pool[k], b.trace, e); }
      else { FaithfulLater(b.pool[k].session, b.pool[k].log, b.trace, Published(session, e)); }
    }
  }

  lemma {:induction false} OfferedReaders(b: Bus, session: Session, e: Event)
    requires Inv(b) && session in b.queues
    ensures ReadersSound(Offered(b, session, e))
  {
    var t := Offered(b, session, e);
    forall k | 0 <= k < |t.pool| ensures t.pool[k].log.taken == b.pool[k].log.taken {}
  }

  /** A call of the trace that leaves the unregistered sessions without events. */
  lemma {:induction false} StaysQuiet(b: Bus, t: Bus, call: Call)
    requires QuietElsewhere(b) && t.trace == b.trace + [call]
    requires forall s :: s !in t.queues ==> s !in b.queues || (call.Cleaned? && s == call.session)
    requires call.Published? && !call.event.kind.TOKEN? ==> call.session in t.queues
    ensures QuietElsewhere(t)
  {
    forall s | s !in t.queues ensures SinceCleanup(t.trace, s) == [] { SinceNext(b.trace, call, s); }
  }

  /** A call that changes no queue. */
  lemma {:induction false} NotedKeeps(b: Bus, call: Call)
    requires Inv(b)
    requires (call.Published? && call.event.kind.TOKEN?) || (call.Cleaned? && call.session !in b.queues)
    ensures Inv(b.(trace := b.trace + [call]))
  {
    var t := b.(trace := b.trace + [call]);
    StaysQuiet(b, t, call);
    forall k | 0 <= k < |t.pool| ensures Sound(t.pool[k], t.trace) {
      FaithfulLater(b.pool[k].session, b.pool[k].log, b.trace, call);
    }
  }

  lemma {:induction false} OfferedKeeps(b: Bus, session: Session, e: Event)
    requires Inv(b) && session in b.queues && !e.kind.TOKEN?
    ensures Inv(Offered(b, session, e))
  {
    OfferedQueues(b, session, e);
    OfferedReaders(b, session, e);
    OfferedRegistered(b, session, e);
    StaysQuiet(b, Offered(b, session, e), Published(session, e));
  }

  lemma {:induction false} OfferedRegistered(b: Bus, session: Session, e: Event)
    requires Registered(b) && session in b.queues
    ensures Registered(Offered(b, session, e))
  {
    var t := Offered(b, session, e);
    forall k | 0 <= k < |t.pool| ensures t.pool[k].session == b.pool[k].session && t.pool[k].log.end == b.pool[k].log.end {}
  }

  lemma {:induction false} PublishingKeeps(b: Bus, session: Session, e: Event)
    requires Inv(b)
    ensures Inv(Publishing(b, session, e))
  {
    if e.kind.TOKEN? {
      NotedKeeps(b, Published(session, e));
    } else {
      WithQueueKeeps(b, session);
      OfferedKeeps(WithQueue(b, session), session, e);
    }
  }

  predicate Ready(b: Bus, i: nat) {
    && i < |b.readers| && !b.readers[i].stopped
    && b.readers[i].queue < |b.pool| && b.pool[b.readers[i].queue].items != []
  }

  /** One turn of a reader's loop. */
  function Advanced(b: Bus, i: nat): Bus
    requires Ready(b, i)
  {
    var r := b.readers[i];
    var item := b.pool[r.queue].items[0];
    var after := match item
      case Sentinel => r.(stopped := true)
      case Queued(e) => if ForArchitect(e) then r.(yielded := r.yielded + [e]) else r;
    b.(pool := b.pool[r.queue := Take(b.pool[r.queue], i)], readers := b.readers[i := after])
  }

  lemma {:induction false} TakeSound(q: Queue, trace: seq<Call>, reader: nat)
    requires Sound(q, trace) && q.items != []
    ensures Sound(Take(q, reader), trace)
    ensures q.items[0].Sentinel? ==> q.log.end.Closed? && Take(q, reader).items == []
  {
    TakeBalances(q.items, q.log, reader);
  }

  lemma {:induction false} ReaderStep(r: Reader, j: nat, q: Queue, i: nat)
    requires ReaderSound(r, j, q) && q.items != [] && q.items[0].Queued?
    ensures ReaderSound(if j == i && ForArchitect(q.items[0].event) then r.(yielded := r.yielded + [q.items[0].event]) else r, j, Take(q, i))
  {
    TakeYields(r.yielded, q.log.taken, j, Taken(i, q.items[0].event));
  }

  lemma {:induction false} AdvancedReaders(b: Bus, i: nat)
    requires Inv(b) && Ready(b, i)
    ensures ReadersSound(Advanced(b, i))
  {
    var t, q := Advanced(b, i), b.pool[b.readers[i].queue];
    assert Sound(q, b.trace);
    TakeSound(q, b.trace, i);
    forall j | 0 <= j < |t.readers| ensures t.readers[j].queue < |t.pool| && ReaderSound(t.readers[j], j, t.pool[t.readers[j].queue]) {
      assert ReaderSound(b.readers[j], j, b.pool[b.readers[j].queue]);
      if b.readers[j].queue == b.readers[i].queue && q.items[0].Queued? { ReaderStep(b.readers[j], j, q, i); }
    }
  }

  lemma {:induction false} AdvancedKeeps(b: Bus, i: nat)
    requires Inv(b) && Ready(b, i)
    ensures Inv(Advanced(b, i))
  {
    var t, at := Advanced(b, i), b.readers[i].queue;
    AdvancedReaders(b, i);
    forall k | 0 <= k < |t.pool| ensures Sound(t.pool[k], t.trace) {
      assert Sound(b.pool[k], b.trace);
      if k == at { TakeSound(b.pool[k], b.trace, i); }
    }
  }

  /** cleanup_session */
  ghost function Cleaning(b: Bus, session: Session): Bus
    requires Registered(b)
  {
    var call := Cleaned(session);
    if session in b.queues then
      var k := b.queues[session];
      Bus(b.queues - {session}, b.pool[k := Close(b.pool[k], |b.trace|)], b.readers, b.trace + [call])
    else b.(trace := b.trace + [call])
  }

  lemma {:induction false} CloseSound(q: Queue, trace: seq<Call>)
    requires Sound(q, trace) && q.log.end.Open?
    ensures Sound(Close(q, |trace|), trace + [Cleaned(q.session)])
  {
    CloseBalances(q.items, q.log, |trace|);
    assert (trace + [Cleaned(q.session)])[..|trace|] == trace;
  }

  lemma {:induction false} CleaningQueues(b: Bus, session: Session)
    requires Inv(b) && session in b.queues
    ensures QueuesSound(Cleaning(b, session))
  {
    var t, at := Cleaning(b, session), b.queues[session];
    forall k | 0 <= k < |t.pool| ensures Sound(t.pool[k], t.trace) {
      assert Sound(b.pool[k], b.trace);
      if k == at { CloseSound(b.pool[k], b.trace); }
      else { FaithfulLater(b.pool[k].session, b.pool[k].log, b.trace, Cleaned(session)); }
    }
  }

  lemma {:induction false} CleaningReaders(b: Bus, session: Session)
    requires Inv(b) && session in b.queues
    ensures ReadersSound(Cleaning(b, session))
  {
    var t := Cleaning(b, session);
    forall k | 0 <= k < |t.pool| ensures t.pool[k].log.taken == b.pool[k].log.taken {}
  }

  lemma {:induction false} CleaningKeeps(b: Bus, session: Session)
    requires Inv(b)
    ensures Inv(Cleaning(b, session))
  {
    if session in b.queues {
      CleaningQueues(b, session);
      CleaningReaders(b, session);
      StaysQuiet(b, Cleaning(b, session), Cleaned(session));
    } else {
      NotedKeeps(b, Cleaned(session));
    }
  }

  // ---- Runs ----------------------------------------------------------------------------------------

  ghost function Step(b: Bus, a: Action): Bus
    requires Inv(b)
  {
    match a
    case Publish(session, e) => Publishing(b, session, e)
    case Subscribe(session) => Subscribed(b, session)
    case Next(i) => if Ready(b, i) then Advanced(b, i) else b
    case Cleanup(session) => Cleaning(b, session)
  }

  lemma {:induction false} StepKeepsInv(b: Bus, a: Action)
    requires Inv(b)
    ensures Inv(Step(b, a))
  {
    match a
    case Publish(session, e) => PublishingKeeps(b, session, e);
    case Subscribe(session) => SubscribedKeeps(b, session);
    case Next(i) => if Ready(b, i) { AdvancedKeeps(b, i); }
    case Cleanup(session) => CleaningKeeps(b, session);
  }

  /** Any run over any sessions and readers. */
  ghost function After(b: Bus, actions: seq<Action>): (r: Bus)
    requires Inv(b)
    ensures Inv(r)
    decreases |actions|
  {
    StepKeepsInv(b, if actions == [] then Cleanup(Session("")) else actions[0]);
    if actions == [] then b else After(Step(b, actions[0]), actions[1..])
  }

  /** The bus object. Queues are shared by reference, so the dictionary and the readers hold the number
      of a queue in `pool`. The trace and the queues' logs decide nothing. */
  class AgentBus {
    var queues: map<Session, nat>
    var pool: seq<Queue>
    var readers: seq<Reader>
    var trace: seq<Call>

    ghost function View(): Bus
      reads this
    {
      Bus(queues, pool, readers, trace)
    }

    constructor ()
      ensures View() == EMPTY
    {
      queues, pool, readers, trace := map[], [], [], [];
    }

    method GetQueue(session: Session) returns (k: nat)
      requires Inv(View())
      modifies this
      ensures View() == WithQueue(old(View()), session)
      ensures session in queues && k == queues[session] < |pool|
    {
      if session !in queues {
        queues := queues[session := |pool|];
        pool := pool + [NewQueue(session)];
      }
      k := queues[session];
    }

    method PublishEvent(session: Session, e: Event)
      requires Inv(View())
      modifies this
      ensures View() == Publishing(old(View()), session, e)
    {
      if !e.kind.TOKEN? {
        var k := GetQueue(session);
        pool := pool[k := Put(pool[k], e)];
      }
      trace := trace + [Published(session, e)];
    }

    /** The start of subscribe_architect. */
    method SubscribeArchitect(session: Session)
      requires Inv(View())
      modifies this
      ensures View() == Subscribed(old(View()), session)
    {
      var k := GetQueue(session);
      readers := readers + [Reader(k, [], false)];
    }

    /** One turn of a reader's loop, when its queue has something for it. */
    method NextEvent(i: nat)
      requires Ready(View(), i)
      modifies this
      ensures View() == Advanced(old(View()), i)
    {
      var r := readers[i];
      var item := pool[r.queue].items[0];
      pool := pool[r.queue := Take(pool[r.queue], i)];
      match item
      case Sentinel => readers := readers[i := r.(stopped := true)];
      case Queued(e) =>
        if ForArchitect(e) { readers := readers[i := r.(yielded := r.yielded + [e])]; }
    }

    method CleanupSession(session: Session)
      requires Inv(View())
      modifies this
      ensures View() == Cleaning(old(View()), session)
    {
      if session in queues {
        var k := queues[session];
        queues := queues - {session};
        pool := pool[k := Close(pool[k], |trace|)];
      }
      trace := trace + [Cleaned(session)];
    }

    /** Any run over any sessions and readers. */
    method Run(actions: seq<Action>)
      requires Inv(View())
      modifies this
      ensures Inv(View()) && View() == After(old(View()), actions)
    {
      ghost var target := After(View(), actions);
      assert actions[0..] == actions;
      for i := 0 to |actions|
        invariant Inv(View()) && After(View(), actions[i..]) == target
      {
        assert actions[i..][1..] == actions[i + 1..];
        StepKeepsInv(View(), actions[i]);
        Perform(actions[i]);
      }
    }

    method Perform(a: Action)
      requires Inv(View())
      modifies this
      ensures View() == Step(old(View()), a)
    {
      match a
      case Publish(session, e) => PublishEvent(session, e);
      case Subscribe(session) => SubscribeArchitect(session);
      case Next(r) =>
        if r < |readers| && !readers[r].stopped && readers[r].queue < |pool| && pool[readers[r].queue].items != [] { NextEvent(r); }
      case Cleanup(session) => CleanupSession(session);
    }
  }

  // ---- What a reader sees --------------------------------------------------------------------------

  /** Event `e` was published to the session at `k`, and no clean-up of it lies between there and the
      end of the trace. */
  ghost predicate PublishedAt(trace: seq<Call>, session: Session, e: Event, k: nat) {
    && k < |trace| && trace[k] == Published(session, e) && !e.kind.TOKEN?
    && forall j :: k < j < |trace| ==> trace[j] != Cleaned(session)
  }

  lemma {:induction false} SinceCleanupMeaning(trace: seq<Call>, session: Session, e: Event)
    ensures e in SinceCleanup(trace, session) <==> exists k :: PublishedAt(trace, session, e, k)
  {
    if trace != [] {
      var n := |trace| - 1;
      var before := trace[..n];
      SinceCleanupMeaning(before, session, e);
      if k: nat :| PublishedAt(before, session, e, k) && trace[n] != Cleaned(session) {
        assert PublishedAt(trace, session, e, k);
      }
      if k: nat :| PublishedAt(trace, session, e, k) && k < n {
        assert forall j :: k < j < n ==> before[j] == trace[j];
        assert PublishedAt(before, session, e, k);
      }
      if trace[n] == Published(session, e) && !e.kind.TOKEN? { assert PublishedAt(trace, session, e, n); }
    }
  }

  lemma {:induction false} FilterMeaning(events: seq<Event>, e: Event)
    ensures e in Filter(events) <==> e in events && ForArchitect(e)
  {
    if events != [] { FilterMeaning(events[..|events| - 1], e); }
  }

  lemma {:induction false} TakenByMeaning(taken: seq<Taken>, reader: nat, e: Event)
    ensures e in TakenBy(taken, reader) <==> Taken(reader, e) in taken
  {
    if taken != [] { TakenByMeaning(taken[..|taken| - 1], reader, e); }
  }

  lemma {:induction false} SubsequenceMembers(a: seq<Event>, b: seq<Event>, e: Event)
    requires Subsequence(a, b) && e in a
    ensures e in b
    decreases |b|
  {
    if a[|a| - 1] != b[|b| - 1] || e != b[|b| - 1] {
      SubsequenceMembers(if a[|a| - 1] == b[|b| - 1] then a[..|a| - 1] else a, b[..|b| - 1], e);
    }
  }

  /** The trace over a queue's time: up to its session's clean-up, or to now. */
  function Time(q: Queue, trace: seq<Call>): seq<Call> {
    if q.log.end.Closed? && q.log.end.at <= |trace| then trace[..q.log.end.at] else trace
  }

  /** Every queue, at every moment of every run: what it accepted is what was taken and what is queued,
      in the order of publishing; it is offered just what is published to its session in its time. */
  lemma {:induction false} QueueHistory(actions: seq<Action>, k: nat)
    requires k < |After(EMPTY, actions).pool|
    ensures var b := After(EMPTY, actions);
            var q := b.pool[k];
            && |q.log.kept| == |q.log.offered|
            && q.log.offered == SinceCleanup(Time(q, b.trace), q.session)
            && Select(q.log.offered, q.log.kept) == EventsTaken(q.log.taken) + EventsOf(q.items)
            && Subsequence(Select(q.log.offered, q.log.kept), q.log.offered)
  {
    var b := After(EMPTY, actions);
    assert Sound(b.pool[k], b.trace);
    SelectIsSubsequence(b.pool[k].log.offered, b.pool[k].log.kept);
  }

  /** Everything a reader yields is of one of the architect's types, never a token, and was published to
      the session it reads, after the clean-up before and before the one that closed its queue. */
  lemma {:induction false} ReaderSeesItsSession(actions: seq<Action>, i: nat, e: Event)
    requires i < |After(EMPTY, actions).readers| && e in After(EMPTY, actions).readers[i].yielded
    ensures var b := After(EMPTY, actions);
            b.readers[i].queue < |b.pool| &&
            var q := b.pool[b.readers[i].queue];
            ForArchitect(e) && exists k :: PublishedAt(Time(q, b.trace), q.session, e, k)
  {
    var b := After(EMPTY, actions);
    var q := b.pool[b.readers[i].queue];
    assert ReaderSound(b.readers[i], i, q);
    QueueHistory(actions, b.readers[i].queue);
    FilterMeaning(TakenBy(q.log.taken, i), e);
    TakenByMeaning(q.log.taken, i, e);
    var j :| 0 <= j < |q.log.taken| && q.log.taken[j] == Taken(i, e);
    assert EventsTaken(q.log.taken)[j] == e;
    assert e in Select(q.log.offered, q.log.kept);
    SubsequenceMembers(Select(q.log.offered, q.log.kept), q.log.offered, e);
    SinceCleanupMeaning(Time(q, b.trace), q.session, e);
  }

  lemma {:induction false} AllTakenByOne(taken: seq<Taken>, reader: nat)
    requires forall k :: 0 <= k < |taken| ==> taken[k].reader == reader
    ensures TakenBy(taken, reader) == EventsTaken(taken)
  {
    if taken != [] {
      AllTakenByOne(taken[..|taken| - 1], reader);
      assert EventsTaken(taken) == EventsTaken(taken[..|taken| - 1]) + [taken[|taken| - 1].event];
    }
  }

  /** The only reader of a queue yields the architect's events among those accepted, in order, and has
      yielded all of them once it has stopped. */
  lemma {:induction false} LoneReader(actions: seq<Action>, i: nat)
    requires i < |After(EMPTY, actions).readers|
    ensures var b := After(EMPTY, actions);
            b.readers[i].queue < |b.pool| &&
            var q := b.pool[b.readers[i].queue];
            |q.log.kept| == |q.log.offered| &&
            var accepted := Select(q.log.offered, q.log.kept);
            (forall k :: 0 <= k < |q.log.taken| ==> q.log.taken[k].reader == i) ==>
              && b.readers[i].yielded == Filter(EventsTaken(q.log.taken)) && EventsTaken(q.log.taken) <= accepted
              && (b.readers[i].stopped ==> b.readers[i].yielded == Filter(accepted))
  {
    var b := After(EMPTY, actions);
    var q := b.pool[b.readers[i].queue];
    assert ReaderSound(b.readers[i], i, q);
    QueueHistory(actions, b.readers[i].queue);
    if forall k :: 0 <= k < |q.log.taken| ==> q.log.taken[k].reader == i {
      AllTakenByOne(q.log.taken, i);
      if q.items == [] { assert EventsTaken(q.log.taken) + EventsOf(q.items) == EventsTaken(q.log.taken); }
    }
  }

  lemma {:induction false} OnlyEvents(items: seq<Item>)
    requires forall i :: 0 <= i < |items| ==> items[i].Queued?
    ensures |EventsOf(items)| == |items|
  {
    if items != [] {
      assert forall i :: 0 <= i < |items| - 1 ==> items[1..][i] == items[i + 1];
      OnlyEvents(items[1..]);
    }
  }

  lemma {:induction false} PutEvents(q: Queue, e: Event)
    requires Balanced(q.items, q.log) && q.log.end.Open?
    ensures |EventsOf(q.items)| <= QUEUE_MAXSIZE
    ensures EventsOf(Put(q, e).items) == EventsOf(q.items) + if |EventsOf(q.items)| < QUEUE_MAXSIZE then [e] else []
  {
    OnlyEvents(q.items);
    EventsOfAppend(q.items, Queued(e));
  }

  /** The events waiting for a session's next reader. */
  function Waiting(b: Bus, session: Session): seq<Event> {
    if session in b.queues && b.queues[session] < |b.pool| then EventsOf(b.pool[b.queues[session]].items) else []
  }

  /** Clean-up drops the session's queue and puts the sentinel last, if fewer than QUEUE_MAXSIZE events are
      waiting; it touches no other queue. */
  lemma {:induction false} CleaningMeaning(actions: seq<Action>, session: Session)
    ensures
      var b := After(EMPTY, actions);
      var t := Cleaning(b, session);
      && session !in t.queues && (forall s :: s != session ==> (s in t.queues <==> s in b.queues) && (s in b.queues ==> t.queues[s] == b.queues[s]))
      && |t.pool| == |b.pool|
      && (forall k :: 0 <= k < |b.pool| && !(session in b.queues && b.queues[session] == k) ==> t.pool[k] == b.pool[k])
      && (session in b.queues ==>
            b.queues[session] < |b.pool| &&
            t.pool[b.queues[session]].items ==
              b.pool[b.queues[session]].items + if |Waiting(b, session)| < QUEUE_MAXSIZE then [Sentinel] else [])
  {
    var b := After(EMPTY, actions);
    if session in b.queues {
      assert Sound(b.pool[b.queues[session]], b.trace);
      OnlyEvents(b.pool[b.queues[session]].items);
    }
  }

  /** A new reader reads the session's queue of the moment, which goes on receiving the session's events. */
  lemma {:induction false} SubscribedMeaning(actions: seq<Action>, session: Session)
    ensures
      var b := After(EMPTY, actions);
      var t := Subscribed(b, session);
      && |t.readers| == |b.readers| + 1 && t.readers[..|b.readers|] == b.readers
      && var r := t.readers[|b.readers|];
         r.yielded == [] && !r.stopped && session in t.queues && r.queue == t.queues[session] < |t.pool|
         && t.pool[r.queue].session == session && t.pool[r.queue].log.end.Open?
         && (session in b.queues ==> r.queue == b.queues[session] && t.pool == b.pool)
  {
    WithQueueKeeps(After(EMPTY, actions), session);
  }

  /** A reader that goes on alone after the clean-up of its queue. */
  function Draining(b: Bus, i: nat, n: nat): Bus
    decreases n
  {
    if n == 0 || !Ready(b, i) then b else Draining(Advanced(b, i), i, n - 1)
  }

  /** It stops, having taken all events, if the sentinel fitted; if not, it takes all events and waits. */
  lemma {:induction false} DrainingStops(b: Bus, i: nat, n: nat)
    requires Inv(b) && i < |b.readers| && !b.readers[i].stopped && b.readers[i].queue < |b.pool| && n == |b.pool[b.readers[i].queue].items|
    ensures
      var items := b.pool[b.readers[i].queue].items;
      var t := Draining(b, i, n);
      && i < |t.readers| && t.readers[i].queue == b.readers[i].queue < |t.pool| && t.pool[t.readers[i].queue].items == []
      && (t.readers[i].stopped <==> items != [] && items[|items| - 1].Sentinel?)
      && t.readers[i].yielded == b.readers[i].yielded + Filter(EventsOf(items))
    decreases n
  {
    if n > 0 {
      var t := Advanced(b, i);
      var items := b.pool[b.readers[i].queue].items;
      AdvancedKeeps(b, i);
      AdvancedMeaning(b, i);
      if items[0].Queued? {
        DrainingStops(t, i, n - 1);
        FilterFirst(items[0].event, EventsOf(items[1..]));
        Associate(b.readers[i].yielded, if ForArchitect(items[0].event) then [items[0].event] else [], Filter(EventsOf(items[1..])));
      } else {
        assert items == [Sentinel];
        EventsOfOne(Sentinel);
      }
    }
  }

  /** One turn of a reader: the first item goes, and if it is for the architect it is yielded. */
  lemma {:induction false} AdvancedMeaning(b: Bus, i: nat)
    requires Inv(b) && Ready(b, i)
    ensures
      var t, items := Advanced(b, i), b.pool[b.readers[i].queue].items;
      && |t.readers| == |b.readers| && t.readers[i].queue == b.readers[i].queue < |t.pool|
      && t.pool[t.readers[i].queue].items == items[1..]
      && (items[0].Sentinel? ==> t.readers[i].stopped && t.readers[i].yielded == b.readers[i].yielded && items == [Sentinel])
      && (items[0].Queued? ==>
            && !t.readers[i].stopped
            && t.readers[i].yielded == b.readers[i].yielded + if ForArchitect(items[0].event) then [items[0].event] else [])
  {
    assert Sound(b.pool[b.readers[i].queue], b.trace);
  }

  lemma {:induction false} FilterFirst(e: Event, later: seq<Event>)
    ensures Filter([e] + later) == (if ForArchitect(e) then [e] else []) + Filter(later)
    decreases |later|
  {
    if later == [] {
      assert [e] + later == [e] && [e][..0] == [];
    } else {
      FilterFirst(e, later[..|later| - 1]);
      assert ([e] + later)[..|later|] == [e] + later[..|later| - 1];
      FilterAppend(later[..|later| - 1], later[|later| - 1]);
    }
  }

  /** An event that is not a token is refused exactly when QUEUE_MAXSIZE events are waiting in the
      session's queue. */
  lemma {:induction false} DroppedWhenFull(actions: seq<Action>, session: Session, e: Event)
    requires !e.kind.TOKEN?
    ensures var b := After(EMPTY, actions);
            && |Waiting(b, session)| <= QUEUE_MAXSIZE
            && Waiting(Publishing(b, session, e), session) == Waiting(b, session) + if |Waiting(b, session)| < QUEUE_MAXSIZE then [e] else []
  {
    var b := After(EMPTY, actions);
    WithQueueKeeps(b, session);
    var m := WithQueue(b, session);
    var q := m.pool[m.queues[session]];
    assert Sound(q, m.trace);
    PutEvents(q, e);
    assert Waiting(b, session) == EventsOf(q.items);
    assert Publishing(b, session, e).pool[m.queues[session]] == Put(q, e);
  }
}
