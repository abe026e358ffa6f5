/** The token budget of a prompt: trimming the conversation, and building the prompt around it. */
module ContextBudget {
  import opened Wrappers

  const RECENT_MSG_KEEP: nat := 6

  /** An element of a list of parts: something that is not a dictionary, or one with this "text". */
  datatype Part = Other | Part(text: string)

  /** What a message holds: nothing, a string, or a list of parts. */
  datatype Content = Missing | Words(text: string) | Parts(parts: seq<Part>)

  datatype Message = Message(role: string, content: Content)

  /** " ".join over the parts that are dictionaries. */
  function JoinParts(parts: seq<Part>): string {
    if parts == [] then ""
    else
      var before, last := JoinParts(parts[..|parts| - 1]), parts[|parts| - 1];
      if last.Other? then before
      else if forall p <- parts[..|parts| - 1] :: p.Other? then last.text
      else before + " " + last.text
  }

  predicate NoText(parts: seq<Part>) { forall p <- parts :: p.Other? }

  lemma {:induction false} JoinNoText(parts: seq<Part>)
    requires NoText(parts)
    ensures JoinParts(parts) == ""
  {
    if parts != [] { JoinNoText(parts[..|parts| - 1]); }
  }

  lemma {:induction false} JoinLast(parts: seq<Part>, last: Part)
    ensures JoinParts(parts + [last]) == if last.Other? then JoinParts(parts) else if NoText(parts) then last.text else JoinParts(parts) + " " + last.text
    ensures NoText(parts + [last]) <==> NoText(parts) && last.Other?
  {
    assert (parts + [last])[..|parts|] == parts;
    assert forall p :: p in parts + [last] <==> p in parts || p == last;
  }

  /** Texts are joined by blanks, and what is no dictionary is left out. */
  lemma {:induction false} JoinPartsMeaning(a: seq<Part>, b: seq<Part>)
    ensures NoText(a + b) <==> NoText(a) && NoText(b)
    ensures NoText(a) ==> JoinParts(a) == "" && JoinParts(a + b) == JoinParts(b)
    ensures NoText(b) ==> JoinParts(a + b) == JoinParts(a)
    ensures !NoText(a) && !NoText(b) ==> JoinParts(a + b) == JoinParts(a) + " " + JoinParts(b)
  {
    if NoText(a) { JoinNoText(a); }
    if b == [] {
      assert a + b == a;
    } else {
      var init, last := b[..|b| - 1], b[|b| - 1];
      JoinPartsMeaning(a, init);
      assert b == init + [last] && a + b == (a + init) + [last];
      JoinLast(init, last);
      JoinLast(a + init, last);
      if last.Part? && !NoText(a) && !NoText(init) { JoinThree(JoinParts(a), JoinParts(init), last.text); }
    }
  }

  lemma {:induction false} JoinThree(a: string, b: string, c: string)
    ensures (a + " " + b) + " " + c == a + " " + (b + " " + c)
  {
  }

  lemma {:induction false} JoinOne(text: string)
    ensures JoinParts([Part(text)]) == text
  {
    assert [Part(text)][..0] == [];
  }

  /** The text of a message that is counted. */
  function ContentText(c: Content): string {
    match c
    case Missing => ""
    case Words(text) => text
    case Parts(parts) => JoinParts(parts)
  }

  function CountTokens(text: string): (n: nat)
    ensures if |text| < 4 then n == 1 else 4 * n <= |text| < 4 * n + 4
  {
    if |text| / 4 > 1 then |text| / 4 else 1
  }

  function MessageCost(m: Message): nat { CountTokens(ContentText(m.content)) + 4 }

  /** What the messages from number `i` on cost together, by the costs of each. */
  function CostFrom(costs: seq<nat>, i: nat): nat
    requires i <= |costs|
    decreases |costs| - i
  {
    if i == |costs| then 0 else costs[i] + CostFrom(costs, i + 1)
  }

  function Costs(messages: seq<Message>): seq<nat> {
    seq(|messages|, i requires 0 <= i < |messages| => MessageCost(messages[i]))
  }

  function Cost(messages: seq<Message>): nat { CostFrom(Costs(messages), 0) }

  /** The longer the suffix, the more it costs. */
  lemma {:induction false} CostGrows(costs: seq<nat>, i: nat, j: nat)
    requires i <= j <= |costs|
    ensures CostFrom(costs, i) >= CostFrom(costs, j)
    decreases j - i
  {
    if i < j { CostGrows(costs, i + 1, j); }
  }

  lemma {:induction false} CostOfSuffix(costs: seq<nat>, n: nat, j: nat)
    requires n + j <= |costs|
    ensures CostFrom(costs[n..], j) == CostFrom(costs, n + j)
    decreases |costs| - j
  {
    if n + j < |costs| { CostOfSuffix(costs, n, j + 1); }
  }

  lemma {:induction false} CostSplits(costs: seq<nat>, n: nat, j: nat)
    requires j <= n <= |costs|
    ensures CostFrom(costs, j) == CostFrom(costs[..n], j) + CostFrom(costs, n)
    decreases n - j
  {
    if j < n { CostSplits(costs, n, j + 1); }
  }

  method CountMessagesTokens(messages: seq<Message>) returns (total: nat)
    ensures total == Cost(messages)
  {
    total := 0;
    for i := 0 to |messages|
      invariant total + CostFrom(Costs(messages), i) == Cost(messages)
    {
      var content := ContentText(messages[i].content);
      total := total + CountTokens(content) + 4;
    }
  }

  // ---- Trimming ------------------------------------------------------------------------------------

  /** `start` is where the longest suffix that costs at most `budget` begins; the empty suffix stands
      in when the budget is negative. */
  ghost predicate LongestSuffix(costs: seq<nat>, budget: int, start: nat) {
    && start <= |costs|
    && (start == |costs| || CostFrom(costs, start) <= budget)
    && forall j :: 0 <= j < start ==> CostFrom(costs, j) > budget
  }

  lemma {:induction false} OnlyOneLongest(costs: seq<nat>, budget: int, a: nat, b: nat)
    requires LongestSuffix(costs, budget, a) && LongestSuffix(costs, budget, b)
    ensures a == b
  {
  }

  /** It is enough that one message more is too much. */
  lemma {:induction false} OneMoreIsTooMuch(costs: seq<nat>, budget: int, start: nat)
    requires start <= |costs| && (start == |costs| || CostFrom(costs, start) <= budget)
    requires start > 0 ==> CostFrom(costs, start - 1) > budget
    ensures LongestSuffix(costs, budget, start)
  {
    forall j | 0 <= j < start ensures CostFrom(costs, j) > budget { CostGrows(costs, j, start - 1); }
  }

  /** The loop over the reversed messages, keeping what fits. */
  method KeepFromEnd(messages: seq<Message>, budget: int) returns (kept: seq<Message>, ghost start: nat)
    ensures LongestSuffix(Costs(messages), budget, start) && kept == messages[start..]
  {
    kept := [];
    var used, i := 0, |messages|;
    while i > 0
      invariant 0 <= i <= |messages| && kept == messages[i..] && used == CostFrom(Costs(messages), i)
      invariant i == |messages| || used <= budget
    {
      var t := MessageCost(messages[i - 1]);
      if used + t > budget { break; }
      kept := [messages[i - 1]] + kept;
      used := used + t;
      i := i - 1;
    }
    start := i;
    OneMoreIsTooMuch(Costs(messages), budget, start);
  }

  predicate Sanitizable(m: Message) { m.content.Parts? ==> m.content.parts == [] }

  function Clean(m: Message, sanitize: string -> string): Message {
    Message(m.role, Words(sanitize(if m.content.Words? then m.content.text else "")))
  }

  function CleanAll(conversation: seq<Message>, sanitize: string -> string): seq<Message> {
    seq(|conversation|, i requires 0 <= i < |conversation| => Clean(conversation[i], sanitize))
  }

  /** Each message keeps its place and its role, and has its text sanitized. */
  lemma {:induction false} CleanMeaning(conversation: seq<Message>, sanitize: string -> string, i: nat)
    requires i < |conversation|
    ensures |CleanAll(conversation, sanitize)| == |conversation| && CleanAll(conversation, sanitize)[i].role == conversation[i].role
    ensures conversation[i].content.Words? ==> CleanAll(conversation, sanitize)[i].content == Words(sanitize(conversation[i].content.text))
    ensures !conversation[i].content.Words? ==> CleanAll(conversation, sanitize)[i].content == Words(sanitize(""))
  {
  }

  /** Sanitizing the conversation; the pattern substitution raises on a list of parts. */
  method SanitizeAll(conversation: seq<Message>, sanitize: string -> string) returns (clean: Result<seq<Message>>)
    ensures clean == if forall i :: 0 <= i < |conversation| ==> Sanitizable(conversation[i])
                     then Success(CleanAll(conversation, sanitize)) else Failure
  {
    var messages := [];
    for i := 0 to |conversation|
      invariant messages == CleanAll(conversation[..i], sanitize)
      invariant forall j :: 0 <= j < i ==> Sanitizable(conversation[j])
    {
      if conversation[i].content.Parts? && conversation[i].content.parts != [] {
        assert !Sanitizable(conversation[i]);
        return Failure;
      }
      messages := messages + [Clean(conversation[i], sanitize)];
    }
    assert conversation[..|conversation|] == conversation;
    return Success(messages);
  }

  function RecentStart(messages: seq<Message>): nat {
    if |messages| > RECENT_MSG_KEEP then |messages| - RECENT_MSG_KEEP else 0
  }

  /** What is kept of the recent messages alone, when they fill the budget. */
  lemma {:induction false} RecentOnly(costs: seq<nat>, budget: int, n: nat, start: nat)
    requires n <= |costs| && CostFrom(costs, n) >= budget && LongestSuffix(costs[n..], budget, start)
    requires n > 0 ==> costs[n - 1] > 0
    ensures LongestSuffix(costs, budget, n + start)
  {
    CostOfSuffix(costs, n, start);
    if start > 0 {
      CostOfSuffix(costs, n, start - 1);
    } else if n > 0 {
      CostGrows(costs, n - 1, n);
    }
    OneMoreIsTooMuch(costs, budget, n + start);
  }

  /** What is kept of the older messages, beside all the recent ones. */
  lemma {:induction false} RecentAndOlder(costs: seq<nat>, budget: int, n: nat, start: nat)
    requires n <= |costs| && CostFrom(costs, n) < budget && LongestSuffix(costs[..n], budget - CostFrom(costs, n), start)
    ensures LongestSuffix(costs, budget, start)
  {
    CostSplits(costs, n, start);
    if start > 0 { CostSplits(costs, n, start - 1); }
    OneMoreIsTooMuch(costs, budget, start);
  }

  /** _trim_conversation, in two branches; the result is the longest suffix that fits all the same. */
  method TrimConversation(conversation: seq<Message>, budget: int, sanitize: string -> string)
    returns (kept: Result<seq<Message>>, ghost start: nat)
    ensures kept.Failure? <==> exists i :: 0 <= i < |conversation| && !Sanitizable(conversation[i])
    ensures kept.Success? ==>
      var clean := CleanAll(conversation, sanitize);
      LongestSuffix(Costs(clean), budget, start) && kept.value == clean[start..]
  {
    start := 0;
    var sanitized := SanitizeAll(conversation, sanitize);
    if sanitized.Failure? { return Failure, 0; }
    var trimmed;
    trimmed, start := TrimClean(sanitized.value, budget);
    return Success(trimmed), start;
  }

  method TrimClean(clean: seq<Message>, budget: int) returns (kept: seq<Message>, ghost start: nat)
    ensures LongestSuffix(Costs(clean), budget, start) && kept == clean[start..]
  {
    var n := RecentStart(clean);
    var recent, older := clean[n..], clean[..n];
    var recentTokens := CountMessagesTokens(recent);
    if recentTokens >= budget {
      kept, start := KeepFromEnd(recent, budget);
      KeptRecent(clean, budget, n, start);
      start := n + start;
    } else {
      kept, start := KeepFromEnd(older, budget - recentTokens);
      KeptOlder(clean, budget, n, start);
      kept := kept + recent;
    }
  }

  lemma {:induction false} CostOfRest(messages: seq<Message>, n: nat)
    requires n <= |messages|
    ensures Costs(messages[n..]) == Costs(messages)[n..] && Cost(messages[n..]) == CostFrom(Costs(messages), n)
  {
    assert Costs(messages[n..]) == Costs(messages)[n..];
    CostOfSuffix(Costs(messages), n, 0);
  }

  lemma {:induction false} Rejoin<T>(s: seq<T>, n: nat, start: nat)
    requires start <= n <= |s|
    ensures s[..n][start..] + s[n..] == s[start..]
  {
  }

  lemma {:induction false} KeptRecent(clean: seq<Message>, budget: int, n: nat, start: nat)
    requires n <= |clean| && Cost(clean[n..]) >= budget && LongestSuffix(Costs(clean[n..]), budget, start)
    ensures LongestSuffix(Costs(clean), budget, n + start) && clean[n..][start..] == clean[n + start..]
  {
    CostOfRest(clean, n);
    RecentOnly(Costs(clean), budget, n, start);
  }

  lemma {:induction false} KeptOlder(clean: seq<Message>, budget: int, n: nat, start: nat)
    requires n <= |clean| && Cost(clean[n..]) < budget && LongestSuffix(Costs(clean[..n]), budget - Cost(clean[n..]), start)
    ensures LongestSuffix(Costs(clean), budget, start) && clean[..n][start..] + clean[n..] == clean[start..]
  {
    CostOfRest(clean, n);
    assert Costs(clean[..n]) == Costs(clean)[..n];
    RecentAndOlder(Costs(clean), budget, n, start);
    Rejoin(clean, n, start);
  }

  /** The recent messages survive whole exactly when they fit. */
  lemma {:induction false} RecentKept(clean: seq<Message>, budget: int, start: nat)
    requires LongestSuffix(Costs(clean), budget, start)
    ensures start <= RecentStart(clean) <==> clean == [] || Cost(clean[RecentStart(clean)..]) <= budget
  {
    var n := RecentStart(clean);
    CostOfRest(clean, n);
    if clean != [] {
      if start <= n {
        CostGrows(Costs(clean), start, n);
      } else {
        assert CostFrom(Costs(clean), n) > budget;
      }
    }
  }

  /** What is kept fits, or nothing is. */
  lemma {:induction false} KeptFits(clean: seq<Message>, budget: int, start: nat)
    requires LongestSuffix(Costs(clean), budget, start)
    ensures if budget < 0 then clean[start..] == [] else Cost(clean[start..]) <= budget
  {
    CostOfRest(clean, start);
  }

  // ---- The prompt ----------------------------------------------------------------------------------

  /** A block appended to the system message, if there is any. */
  function Appended(system: string, block: string): string {
    if block == "" then system else system + "\n\n" + block
  }

  datatype Prompt = Prompt(system: string, messages: seq<Message>)

  function Total(p: Prompt): nat { CountTokens(p.system) + Cost(p.messages) }

  /** The tiers that are never cut. */
  function Fixed(p1: string, p2: string, p25: string): string { Appended(Appended(p1, p2), p25) }

  /** The memories stay while 512 tokens remain; the conversation gets what is left. */
  ghost predicate Fits(budget: int, base: string, withMemories: string, clean: seq<Message>, prompt: Prompt, start: nat) {
    && prompt.system == (if budget - CountTokens(withMemories) >= 512 then withMemories else base)
    && LongestSuffix(Costs(clean), budget - CountTokens(prompt.system), start) && prompt.messages == clean[start..]
  }

  /** The tiers promise that memories go before recent messages do. That is so exactly when no memories
      are kept, or the recent messages fit beside them. */
  lemma {:induction false} MemoriesGoFirst(budget: int, p1: string, p2: string, p25: string, p4: string, sanitize: string -> string,
                                           clean: seq<Message>, prompt: Prompt, start: nat)
    requires Fits(budget, sanitize(Fixed(p1, p2, p25)), sanitize(Appended(Fixed(p1, p2, p25), p4)), clean, prompt, start) && clean != []
    ensures
      var left := budget - CountTokens(sanitize(Appended(Fixed(p1, p2, p25), p4)));
      var kept := p4 != "" && left >= 512;
      (kept ==> start <= RecentStart(clean)) <==> !kept || Cost(clean[RecentStart(clean)..]) <= left
  {
    RecentKept(clean, budget - CountTokens(prompt.system), start);
  }

  /** Whatever the system prompt, the task and the memories say: the prompt built on a budget that leaves
      512 tokens beside them keeps the memories and cuts the only message, if that is long. */
  lemma {:induction false} MemoriesOutlastRecent(budget: int, p1: string, p2: string, p25: string, p4: string, sanitize: string -> string,
                                                 role: string, text: string, prompt: Prompt, start: nat)
    requires |sanitize(text)| >= 2036
    requires budget == CountTokens(sanitize(Appended(Fixed(p1, p2, p25), p4))) + 512
    requires Fits(budget, sanitize(Fixed(p1, p2, p25)), sanitize(Appended(Fixed(p1, p2, p25), p4)),
                  CleanAll([Message(role, Words(text))], sanitize), prompt, start)
    ensures prompt == Prompt(sanitize(Appended(Fixed(p1, p2, p25), p4)), [])
  {
    var clean := CleanAll([Message(role, Words(text))], sanitize);
    assert clean == [Message(role, Words(sanitize(text)))];
    assert CostFrom(Costs(clean), 0) == MessageCost(clean[0]) > 512;
    assert start == 1 && clean[1..] == [];
  }

  /** build_prompt after the searches: p1 holds the task, p2 code, p25 anti-patterns, p4 memories. */
  method BuildPrompt(budget: int, p1: string, p2: string, p25: string, p4: string, conversation: seq<Message>, sanitize: string -> string)
    returns (prompt: Result<Prompt>, ghost start: nat)
    ensures prompt.Failure? <==> exists i :: 0 <= i < |conversation| && !Sanitizable(conversation[i])
    ensures prompt.Success? ==>
      var base, withMemories := sanitize(Fixed(p1, p2, p25)), sanitize(Appended(Fixed(p1, p2, p25), p4));
      var clean := CleanAll(conversation, sanitize);
      && Fits(budget, base, withMemories, clean, prompt.value, start)
      && if CountTokens(prompt.value.system) > budget then prompt.value == Prompt(base, []) else Total(prompt.value) <= budget
  {
    var system := p1;
    if p2 != "" { system := system + "\n\n" + p2; }
    if p25 != "" { system := system + "\n\n" + p25; }
    if p4 != "" { system := system + "\n\n" + p4; }
    system := sanitize(system);
    var remaining := budget - CountTokens(system);
    if remaining < 512 {
      system := sanitize(p1 + (if p2 != "" then "\n\n" + p2 else "") + (if p25 != "" then "\n\n" + p25 else ""));
      FixedAtOnce(p1, p2, p25);
      remaining := budget - CountTokens(system);
    }
    var messages;
    messages, start := TrimConversation(conversation, remaining, sanitize);
    if messages.Failure? { return Failure, start; }
    KeptFits(CleanAll(conversation, sanitize), remaining, start);
    return Success(Prompt(system, messages.value)), start;
  }

  lemma {:induction false} FixedAtOnce(p1: string, p2: string, p25: string)
    ensures p1 + (if p2 != "" then "\n\n" + p2 else "") + (if p25 != "" then "\n\n" + p25 else "") == Fixed(p1, p2, p25)
  {
  }
}
