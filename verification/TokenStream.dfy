/** One agent and the reader of its token stream. The agent appends each token to its answer and
    offers it to a bounded outbox; the reader takes tokens out until the sentinel, or until it has
    waited in vain and finds the agent ended. Every event below is one stretch between two awaits. */
module TokenStream {
  import opened Text
  import opened Sequences

  const OUTBOX_MAXSIZE: nat := 1024

  /** A line of the model's answer. `Noise` is a line that is blank, is not data or does not parse.
      An answer that is not streamed is one chunk. */
  datatype Line = Noise | DoneMark | Chunk(token: string)

  datatype Item = Token(text: string) | Sentinel

  datatype Status = Running | Done(result: string) | Failed | Killed

  /** `Reading`: about to call get, or busy with what it got. `Suspended`: its get found the outbox
      empty; `ended` says whether the agent had already ended then. An item that is put wakes it, but it
      takes the item only when it resumes. `Expired`: before it resumed its timer has gone off, which
      cancels the get whatever the outbox holds by then. */
  datatype Reader = Reading | Suspended(ended: bool) | Expired(ended: bool) | Stopped(ended: bool)

  /** `Get` is a get that finds an item, `Suspend` one that does not, `Resume` the end of the latter,
      `Wake` the branch for a timeout. */
  datatype Event = Receive | Finish | Fail | Kill | Get | Suspend | Resume | Expire | Wake

  /** `produced` and `kept` record every token and whether it fitted, `accepted` those that did,
      `late` those accepted since the reader was suspended. */
  datatype Log = Log(produced: seq<string>, kept: seq<bool>, accepted: seq<string>, yielded: seq<string>, late: seq<string>)

  datatype Stream = Stream(unread: seq<Line>, content: string, outbox: seq<Item>, status: Status, reader: Reader, log: Log)

  function Start(lines: seq<Line>): Stream {
    Stream(lines, "", [], Running, Reading, Log([], [], [], [], []))
  }

  predicate AtEnd(lines: seq<Line>) { lines == [] || lines[0].DoneMark? }

  predicate Enabled(s: Stream, e: Event) {
    match e
    case Receive => s.status.Running? && !AtEnd(s.unread)
    case Finish => s.status.Running? && AtEnd(s.unread)
    case Fail => s.status.Running?
    case Kill => s.status.Running?
    case Get => s.reader.Reading? && s.outbox != []
    case Suspend => s.reader.Reading? && s.outbox == []
    case Resume => s.reader.Suspended? && s.outbox != []
    case Expire => s.reader.Suspended?
    case Wake => s.reader.Expired?
  }

  /** put_nowait, dropping what does not fit. */
  function Put(outbox: seq<Item>, item: Item): seq<Item> {
    if |outbox| < OUTBOX_MAXSIZE then outbox + [item] else outbox
  }

  function Produce(s: Stream, token: string): Stream {
    var fits := |s.outbox| < OUTBOX_MAXSIZE;
    var added := if fits then [token] else [];
    s.(content := s.content + token,
       outbox := Put(s.outbox, Token(token)),
       log := s.log.(produced := s.log.produced + [token], kept := s.log.kept + [fits],
                     accepted := s.log.accepted + added,
                     late := s.log.late + if s.reader.Suspended? || s.reader.Expired? then added else []))
  }

  /** The status and the sentinel, with no await between. */
  function End(s: Stream, status: Status): Stream {
    s.(status := status, outbox := Put(s.outbox, Sentinel))
  }

  function TakeItem(s: Stream): Stream
    requires s.outbox != []
  {
    match s.outbox[0]
    case Token(t) => s.(outbox := s.outbox[1..], reader := Reading, log := s.log.(yielded := s.log.yielded + [t], late := []))
    case Sentinel => s.(outbox := s.outbox[1..], reader := Stopped(true), log := s.log.(late := []))
  }

  function Step(s: Stream, e: Event): Stream
    requires Enabled(s, e)
  {
    match e
    case Receive =>
      var rest := s.(unread := s.unread[1..]);
      if s.unread[0].Chunk? && s.unread[0].token != "" then Produce(rest, s.unread[0].token) else rest
    case Finish => End(s, Done(s.content))
    case Fail => End(s, Failed)
    case Kill => End(s, Killed)
    case Get => TakeItem(s)
    case Suspend => s.(reader := Suspended(!s.status.Running?), log := s.log.(late := []))
    case Resume => TakeItem(s)
    case Expire => s.(reader := Expired(s.reader.ended))
    case Wake => if s.status.Running? then s.(reader := Reading, log := s.log.(late := [])) else s.(reader := Stopped(s.reader.ended))
  }

  /** A run; an event that cannot happen is passed over. */
  function After(s: Stream, events: seq<Event>): Stream
    decreases |events|
  {
    if events == [] then s
    else After(if Enabled(s, events[0]) then Step(s, events[0]) else s, events[1..])
  }

  /** The agent object and its outbox, each method one event. */
  class Agent {
    var unread: seq<Line>
    var content: string
    var outbox: seq<Item>
    var status: Status
    var reader: Reader
    ghost var log: Log

    ghost function View(): Stream
      reads this
    {
      Stream(unread, content, outbox, status, reader, log)
    }

    constructor (lines: seq<Line>)
      ensures View() == Start(lines)
    {
      unread, content, outbox, status, reader := lines, "", [], Running, Reading;
      log := Log([], [], [], [], []);
    }

    method ReceiveLine()
      requires Enabled(View(), Receive)
      modifies this
      ensures View() == Step(old(View()), Receive)
    {
      var line := unread[0];
      unread := unread[1..];
      if line.Chunk? && line.token != "" {
        log := Produce(View(), line.token).log;
        content := content + line.token;
        if |outbox| < OUTBOX_MAXSIZE { outbox := outbox + [Token(line.token)]; }
      }
    }

    method EndWith(newStatus: Status)
      modifies this`status, this`outbox
      ensures View() == End(old(View()), newStatus)
    {
      status := newStatus;
      if |outbox| < OUTBOX_MAXSIZE { outbox := outbox + [Sentinel]; }
    }

    /** The reader's outbox.get(): a token is yielded, the sentinel breaks the loop. */
    method TakeNext() returns (chunk: Item)
      requires outbox != []
      modifies this
      ensures View() == TakeItem(old(View())) && chunk == old(outbox[0])
    {
      chunk := outbox[0];
      outbox := outbox[1..];
      if chunk.Sentinel? {
        reader := Stopped(true);
        log := log.(late := []);
      } else {
        reader := Reading;
        log := log.(yielded := log.yielded + [chunk.text], late := []);
      }
    }

    /** The branch of the reader for a timeout. */
    method OnTimeout()
      requires Enabled(View(), Wake)
      modifies this
      ensures View() == Step(old(View()), Wake)
    {
      if status.Running? {
        reader := Reading;
        log := log.(late := []);
      } else {
        reader := Stopped(reader.ended);
      }
    }

    method Perform(e: Event)
      requires Enabled(View(), e)
      modifies this
      ensures View() == Step(old(View()), e)
    {
      match e
      case Receive => ReceiveLine();
      case Finish => EndWith(Done(content));
      case Fail => EndWith(Failed);
      case Kill => EndWith(Killed);
      case Get => var _ := TakeNext();
      case Suspend => reader := Suspended(!status.Running?); log := log.(late := []);
      case Resume => var _ := TakeNext();
      case Expire => reader := Expired(reader.ended);
      case Wake => OnTimeout();
    }

    /** Agent and reader interleaved in any way. */
    method Run(events: seq<Event>)
      modifies this
      ensures View() == After(old(View()), events)
    {
      ghost var target := After(View(), events);
      assert events[0..] == events;
      for i := 0 to |events|
        invariant After(View(), events[i..]) == target
      {
        assert events[i..][1..] == events[i + 1..];
        var possible := Possible(events[i]);
        if possible { Perform(events[i]); }
      }
    }

    method Possible(e: Event) returns (b: bool)
      ensures b == Enabled(View(), e)
    {
      b := match e
        case Receive => status.Running? && !AtEnd(unread)
        case Finish => status.Running? && AtEnd(unread)
        case Fail => status.Running?
        case Kill => status.Running?
        case Get => reader.Reading? && outbox != []
        case Suspend => reader.Reading? && outbox == []
        case Resume => reader.Suspended? && outbox != []
        case Expire => reader.Suspended?
        case Wake => reader.Expired?;
    }
  }

  // ---- What every run keeps -----------------------------------------------------------------------

  /** The tokens the model sends before "[DONE]". */
  function Tokens(lines: seq<Line>): seq<string> {
    if AtEnd(lines) then []
    else (if lines[0].Chunk? && lines[0].token != "" then [lines[0].token] else []) + Tokens(lines[1..])
  }

  /** A chunk with a token counts, nothing else does, and nothing after "[DONE]". */
  lemma {:induction false} TokensMeaning(a: seq<Line>, b: seq<Line>, token: string)
    requires DoneMark !in a
    ensures Tokens(a + b) == Tokens(a) + Tokens(b)
    ensures Tokens(a + [DoneMark] + b) == Tokens(a)
    ensures Tokens([Chunk(token)]) == (if token == "" then [] else [token]) && Tokens([Noise]) == [] && Tokens([]) == []
  {
    assert [Chunk(token)][1..] == [] && [Noise][1..] == [];
    if a == [] {
      assert a + b == b && a + [DoneMark] + b == [DoneMark] + b;
    } else {
      assert DoneMark !in a[1..];
      TokensMeaning(a[1..], b, token);
      assert (a + b)[1..] == a[1..] + b && (a + [DoneMark] + b)[1..] == a[1..] + [DoneMark] + b;
      Associate(if a[0].Chunk? && a[0].token != "" then [a[0].token] else [], Tokens(a[1..]), Tokens(b));
      assert Tokens(a + b) == (if a[0].Chunk? && a[0].token != "" then [a[0].token] else []) + Tokens((a + b)[1..]);
    }
  }

  function Queued(outbox: seq<Item>): seq<string> {
    if outbox == [] then []
    else (if outbox[0].Token? then [outbox[0].text] else []) + Queued(outbox[1..])
  }

  /** A sentinel is the last item, of an agent that has ended. */
  predicate SentinelLast(s: Stream) {
    forall i :: 0 <= i < |s.outbox| && s.outbox[i].Sentinel? ==> i == |s.outbox| - 1 && !s.status.Running?
  }

  /** The answer. */
  ghost predicate Answer(s: Stream, lines: seq<Line>) {
    && s.content == Join(s.log.produced)
    && Tokens(lines) == s.log.produced + Tokens(s.unread)
    && (s.status.Done? ==> s.log.produced == Tokens(lines) && s.status.result == s.content)
  }

  /** The books: what fitted, and what has become of it. */
  ghost predicate Books(s: Stream) {
    && |s.log.kept| == |s.log.produced|
    && s.log.accepted == Select(s.log.produced, s.log.kept)
    && s.log.accepted == s.log.yielded + Queued(s.outbox)
  }

  /** What the reader knows: once it is suspended, all that is queued has come since. */
  ghost predicate ReaderKnows(s: Stream) {
    && (!s.reader.Reading? ==> Queued(s.outbox) == s.log.late)
    && (s.reader.Stopped? ==> !s.status.Running?)
    && (!s.reader.Reading? && s.reader.ended ==> !s.status.Running? && s.log.late == [])
  }

  ghost predicate Inv(s: Stream, lines: seq<Line>) {
    |s.outbox| <= OUTBOX_MAXSIZE && SentinelLast(s) && Answer(s, lines) && Books(s) && ReaderKnows(s)
  }

  lemma {:induction false} QueuedAppend(outbox: seq<Item>, item: Item)
    ensures Queued(outbox + [item]) == Queued(outbox) + if item.Token? then [item.text] else []
  {
    if outbox == [] {
      QueuedOne(item);
      assert outbox + [item] == [item];
    } else {
      QueuedAppend(outbox[1..], item);
      var first := if outbox[0].Token? then [outbox[0].text] else [];
      var last := if item.Token? then [item.text] else [];
      assert (outbox + [item])[1..] == outbox[1..] + [item];
      assert Queued(outbox + [item]) == first + Queued(outbox[1..] + [item]);
      Associate(first, Queued(outbox[1..]), last);
    }
  }

  lemma {:induction false} QueuedOne(item: Item)
    ensures Queued([item]) == if item.Token? then [item.text] else []
  {
    assert [item][1..] == [];
  }

  lemma {:induction false} JoinAppend(tokens: seq<string>, token: string)
    ensures Join(tokens + [token]) == Join(tokens) + token
  {
    assert (tokens + [token])[..|tokens|] == tokens;
  }

  lemma {:induction false} ProduceKeeps(s: Stream, token: string)
    requires |s.outbox| <= OUTBOX_MAXSIZE && SentinelLast(s) && Books(s) && ReaderKnows(s) && s.status.Running?
    ensures var t := Produce(s, token); |t.outbox| <= OUTBOX_MAXSIZE && SentinelLast(t) && Books(t) && ReaderKnows(t)
  {
    QueuedAppend(s.outbox, Token(token));
    SelectAppend(s.log.produced, s.log.kept, token, |s.outbox| < OUTBOX_MAXSIZE);
  }

  lemma {:induction false} ProduceAnswers(s: Stream, lines: seq<Line>)
    requires Answer(s, lines) && Enabled(s, Receive)
    ensures Answer(Step(s, Receive), lines)
  {
    if s.unread[0].Chunk? && s.unread[0].token != "" {
      JoinAppend(s.log.produced, s.unread[0].token);
      Associate(s.log.produced, [s.unread[0].token], Tokens(s.unread[1..]));
    }
  }

  lemma {:induction false} ReceiveKeeps(s: Stream, lines: seq<Line>)
    requires Inv(s, lines) && Enabled(s, Receive)
    ensures Inv(Step(s, Receive), lines)
  {
    ProduceAnswers(s, lines);
    if s.unread[0].Chunk? && s.unread[0].token != "" { ProduceKeeps(s.(unread := s.unread[1..]), s.unread[0].token); }
  }

  lemma {:induction false} EndKeeps(s: Stream, status: Status, lines: seq<Line>)
    requires Inv(s, lines) && s.status.Running? && !status.Running?
    requires status.Done? ==> AtEnd(s.unread) && status.result == s.content
    ensures Inv(End(s, status), lines)
  {
    QueuedAppend(s.outbox, Sentinel);
  }

  lemma {:induction false} TakeKeeps(s: Stream, lines: seq<Line>)
    requires Inv(s, lines) && s.outbox != []
    ensures Inv(TakeItem(s), lines)
  {
    var t := TakeItem(s);
    assert forall i :: 0 <= i < |t.outbox| ==> t.outbox[i] == s.outbox[i + 1];
    assert s.log.accepted == t.log.yielded + Queued(t.outbox);
  }

  lemma {:induction false} StepKeepsInv(s: Stream, e: Event, lines: seq<Line>)
    requires Inv(s, lines) && Enabled(s, e)
    ensures Inv(Step(s, e), lines)
  {
    match e
    case Receive => ReceiveKeeps(s, lines);
    case Finish => EndKeeps(s, Done(s.content), lines);
    case Fail => EndKeeps(s, Failed, lines);
    case Kill => EndKeeps(s, Killed, lines);
    case Get => TakeKeeps(s, lines);
    case Resume => TakeKeeps(s, lines);
    case Suspend =>
    case Expire =>
    case Wake =>
  }

  /** Along every run of agent and reader. */
  lemma {:induction false} RunKeepsInv(s: Stream, events: seq<Event>, lines: seq<Line>)
    requires Inv(s, lines)
    ensures Inv(After(s, events), lines)
    decreases |events|
  {
    if events != [] {
      if Enabled(s, events[0]) { StepKeepsInv(s, events[0], lines); }
      RunKeepsInv(if Enabled(s, events[0]) then Step(s, events[0]) else s, events[1..], lines);
    }
  }

  lemma {:induction false} StartHoldsInv(lines: seq<Line>)
    ensures Inv(Start(lines), lines)
  {
  }

  // ---- What the reader gets ------------------------------------------------------------------------

  /** When the reader stops, the agent has ended and what it has not yielded is exactly what was
      accepted after it was last suspended: nothing if it stops at the sentinel, or if the agent had ended
      before. */
  lemma {:induction false} StoppedReader(lines: seq<Line>, events: seq<Event>)
    ensures var s := After(Start(lines), events);
            s.reader.Stopped? ==>
              && !s.status.Running?
              && s.log.accepted == s.log.yielded + s.log.late
              && (s.log.yielded == s.log.accepted <==> s.log.late == [])
              && (s.reader.ended ==> s.log.yielded == s.log.accepted)
  {
    StartHoldsInv(lines);
    RunKeepsInv(Start(lines), events, lines);
  }

  /** Stopping at the sentinel counts as stopping after the end. */
  lemma {:induction false} SentinelStop(s: Stream, e: Event)
    requires Enabled(s, e) && (e.Get? || e.Resume?)
    ensures Step(s, e).reader.Stopped? <==> s.outbox[0].Sentinel?
    ensures Step(s, e).reader.Stopped? ==> Step(s, e).reader.ended
  {
  }

  /** In no run is an item there when the timer goes off, and the reader resumes at once. */
  predicate Prompt(s: Stream, events: seq<Event>)
    decreases |events|
  {
    events == [] ||
    if !Enabled(s, events[0]) then Prompt(s, events[1..])
    else
      && (events[0].Expire? ==> s.outbox == [] && |events| > 1 && events[1].Wake?)
      && Prompt(Step(s, events[0]), events[1..])
  }

  lemma {:induction false} PromptNeverLate(s: Stream, events: seq<Event>, lines: seq<Line>)
    requires Inv(s, lines) && Prompt(s, events)
    requires (s.reader.Stopped? ==> s.log.late == []) && (s.reader.Expired? ==> s.log.late == [] && events != [] && events[0].Wake?)
    ensures var t := After(s, events); t.reader.Stopped? ==> t.log.late == []
    decreases |events|
  {
    if events != [] {
      if Enabled(s, events[0]) {
        StepKeepsInv(s, events[0], lines);
        PromptNeverLate(Step(s, events[0]), events[1..], lines);
      } else {
        PromptNeverLate(s, events[1..], lines);
      }
    }
  }

  /** A reader whose timer never goes off beside an item, and that then resumes at once, stops only after
      yielding every token that was accepted, whether or not the sentinel fitted. */
  lemma {:induction false} PromptReaderMissesNothing(lines: seq<Line>, events: seq<Event>)
    requires Prompt(Start(lines), events)
    ensures var s := After(Start(lines), events); s.reader.Stopped? ==> s.log.yielded == s.log.accepted
  {
    StartHoldsInv(lines);
    PromptNeverLate(Start(lines), events, lines);
    StoppedReader(lines, events);
  }

  /** Otherwise it may miss some: the token of one line, and on the next line the agent's failure, both
      between the timer and the reader's resuming. */
  lemma {:induction false} LateTokenIsMissed()
    ensures var s := After(Start([Chunk("x"), Noise]), [Suspend, Expire, Receive, Fail, Wake]);
            s.reader.Stopped? && s.status.Failed? && s.log.accepted == ["x"] && s.log.yielded == []
  {
    var s1 := Step(Start([Chunk("x"), Noise]), Suspend);
    var s2 := Step(s1, Expire);
    var s3 := Step(s2, Receive);
    var s4 := Step(s3, Fail);
    FiveSteps(Start([Chunk("x"), Noise]), Suspend, Expire, Receive, Fail, Wake);
    assert Step(s4, Wake).log.accepted == ["x"];
  }

  /** Or just before the timer, which goes off although the token is there and the agent has ended. */
  lemma {:induction false} EarlyTokenIsMissed()
    ensures var s := After(Start([Chunk("x"), Noise]), [Suspend, Receive, Fail, Expire, Wake]);
            s.reader.Stopped? && s.status.Failed? && s.log.accepted == ["x"] && s.log.yielded == []
            && s.outbox == [Token("x"), Sentinel]
  {
    var s1 := Step(Start([Chunk("x"), Noise]), Suspend);
    var s2 := Step(s1, Receive);
    var s3 := Step(s2, Fail);
    var s4 := Step(s3, Expire);
    FiveSteps(Start([Chunk("x"), Noise]), Suspend, Receive, Fail, Expire, Wake);
    assert Step(s4, Wake).outbox == [Token("x"), Sentinel];
  }

  lemma {:induction false} FiveSteps(s: Stream, a: Event, b: Event, c: Event, d: Event, e: Event)
    requires Enabled(s, a) && Enabled(Step(s, a), b) && Enabled(Step(Step(s, a), b), c)
    requires var s3 := Step(Step(Step(s, a), b), c); Enabled(s3, d) && Enabled(Step(s3, d), e)
    ensures After(s, [a, b, c, d, e]) == Step(Step(Step(Step(Step(s, a), b), c), d), e)
  {
    var s1 := Step(s, a);
    var s2 := Step(s1, b);
    var s3 := Step(s2, c);
    AfterFirst(s, a, [b, c, d, e]);
    AfterFirst(s1, b, [c, d, e]);
    AfterFirst(s2, c, [d, e]);
    AfterFirst(s3, d, [e]);
    AfterFirst(Step(s3, d), e, []);
    assert [a] + [b, c, d, e] == [a, b, c, d, e] && [b] + [c, d, e] == [b, c, d, e] && [c] + [d, e] == [c, d, e];
    assert [d] + [e] == [d, e] && [e] + [] == [e];
  }

  lemma {:induction false} AfterFirst(s: Stream, e: Event, rest: seq<Event>)
    requires Enabled(s, e)
    ensures After(s, [e] + rest) == After(Step(s, e), rest)
  {
    assert ([e] + rest)[1..] == rest;
  }

  /** The reader sees, in order, a part of the tokens whose concatenation is the answer. */
  lemma {:induction false} YieldedAndAnswer(lines: seq<Line>, events: seq<Event>)
    ensures var s := After(Start(lines), events);
            && s.log.yielded <= s.log.accepted
            && Subsequence(s.log.accepted, s.log.produced)
            && s.log.produced <= Tokens(lines)
            && s.content == Join(s.log.produced)
            && (s.status.Done? ==> s.status.result == Join(Tokens(lines)))
            && (s.log.accepted == s.log.produced <==> forall i :: 0 <= i < |s.log.kept| ==> s.log.kept[i])
  {
    StartHoldsInv(lines);
    RunKeepsInv(Start(lines), events, lines);
    var s := After(Start(lines), events);
    SelectIsSubsequence(s.log.produced, s.log.kept);
    SelectAll(s.log.produced, s.log.kept);
  }

  lemma {:induction false} QueuedLength(s: Stream)
    requires SentinelLast(s)
    ensures |Queued(s.outbox)| == if s.outbox != [] && s.outbox[|s.outbox| - 1].Sentinel? then |s.outbox| - 1 else |s.outbox|
    decreases |s.outbox|
  {
    if s.outbox != [] {
      var t := s.(outbox := s.outbox[1..]);
      assert forall i :: 0 <= i < |t.outbox| ==> t.outbox[i] == s.outbox[i + 1];
      QueuedLength(t);
    }
  }

  /** A token is left out exactly when the reader is OUTBOX_MAXSIZE tokens behind. */
  lemma {:induction false} DroppedWhenFarBehind(lines: seq<Line>, events: seq<Event>)
    ensures var s := After(Start(lines), events);
            Enabled(s, Receive) && s.unread[0].Chunk? && s.unread[0].token != "" ==>
              && |s.log.accepted| - |s.log.yielded| <= OUTBOX_MAXSIZE
              && Step(s, Receive).log.accepted ==
                 s.log.accepted + if |s.log.accepted| - |s.log.yielded| < OUTBOX_MAXSIZE then [s.unread[0].token] else []
  {
    StartHoldsInv(lines);
    RunKeepsInv(Start(lines), events, lines);
    var s := After(Start(lines), events);
    if s.status.Running? { QueuedLength(s); }
  }

  lemma {:induction false} ShortNeverFull(s: Stream, events: seq<Event>, lines: seq<Line>)
    requires Inv(s, lines) && |Tokens(lines)| <= OUTBOX_MAXSIZE && s.log.accepted == s.log.produced
    ensures var t := After(s, events); t.log.accepted == t.log.produced
    decreases |events|
  {
    if events != [] {
      var t := if Enabled(s, events[0]) then Step(s, events[0]) else s;
      if Enabled(s, events[0]) {
        StepKeepsInv(s, events[0], lines);
        if events[0].Receive? && s.unread[0].Chunk? && s.unread[0].token != "" {
          QueuedLength(s);
          assert |t.log.produced| <= |Tokens(lines)|;
          assert |s.outbox| < OUTBOX_MAXSIZE;
        }
      }
      ShortNeverFull(t, events[1..], lines);
    }
  }

  /** An answer of at most OUTBOX_MAXSIZE tokens reaches a prompt reader whole, however slow the reader
      is. */
  lemma {:induction false} ShortAnswerArrives(lines: seq<Line>, events: seq<Event>)
    requires |Tokens(lines)| <= OUTBOX_MAXSIZE && Prompt(Start(lines), events)
    ensures var s := After(Start(lines), events);
            s.reader.Stopped? && s.status.Done? ==> s.log.yielded == Tokens(lines) && Join(s.log.yielded) == s.status.result
  {
    PromptReaderMissesNothing(lines, events);
    YieldedAndAnswer(lines, events);
    StartHoldsInv(lines);
    RunKeepsInv(Start(lines), events, lines);
    ShortNeverFull(Start(lines), events, lines);
  }

  predicate IsReaders(e: Event) { e.Get? || e.Suspend? || e.Resume? || e.Expire? || e.Wake? }

  /** The reader's events, each of which can happen when its turn comes. */
  predicate ReadsOn(s: Stream, events: seq<Event>)
    decreases |events|
  {
    events == [] || (IsReaders(events[0]) && Enabled(s, events[0]) && ReadsOn(Step(s, events[0]), events[1..]))
  }

  /** How many more events there can be of a reader whose agent has ended. */
  function ReaderRank(s: Stream): nat {
    match s.reader
    case Reading => 2 * |s.outbox| + 3
    case Suspended(_) => 2 * |s.outbox| + 2
    case Expired(_) => 1
    case Stopped(_) => 0
  }

  /** Until it stops the reader can go on. */
  lemma {:induction false} ReaderCanMove(s: Stream)
    ensures s.reader.Stopped? <==> forall e :: IsReaders(e) ==> !Enabled(s, e)
  {
    assert s.reader.Reading? && s.outbox != [] ==> Enabled(s, Get);
    assert s.reader.Reading? && s.outbox == [] ==> Enabled(s, Suspend);
    assert s.reader.Suspended? ==> Enabled(s, Expire);
    assert s.reader.Expired? ==> Enabled(s, Wake);
  }

  /** Once the agent has ended the reader's events are bounded in number, so it stops, whichever of them
      happen; and if it was not suspended then, it misses nothing. */
  lemma {:induction false} ReaderStops(s: Stream, lines: seq<Line>, events: seq<Event>)
    requires Inv(s, lines) && !s.status.Running? && ReadsOn(s, events)
    ensures |events| <= ReaderRank(s)
    ensures |events| == ReaderRank(s) ==> After(s, events).reader.Stopped?
    ensures s.reader.Reading? && After(s, events).reader.Stopped? ==>
      After(s, events).log.yielded == After(s, events).log.accepted == s.log.accepted
    decreases |events|
  {
    if events != [] {
      var t := Step(s, events[0]);
      StepKeepsInv(s, events[0], lines);
      ReaderStops(t, lines, events[1..]);
      if s.reader.Reading? { EndedReaderStaysExact(t, lines, events[1..]); }
    }
  }

  /** A reader that was suspended after the end finds nothing any more, and has nothing to miss. */
  lemma {:induction false} EndedReaderStaysExact(s: Stream, lines: seq<Line>, events: seq<Event>)
    requires Inv(s, lines) && !s.status.Running? && ReadsOn(s, events) && (s.reader.Reading? || s.reader.ended)
    ensures After(s, events).log.accepted == s.log.accepted
    ensures After(s, events).reader.Stopped? ==> After(s, events).log.yielded == s.log.accepted
    decreases |events|
  {
    if events != [] {
      StepKeepsInv(s, events[0], lines);
      EndedReaderStaysExact(Step(s, events[0]), lines, events[1..]);
    }
  }
}
