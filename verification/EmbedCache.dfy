/** The LRU cache of embeddings: sequential calls of _embed agree with the history of uses, and
    _embed_batch returns the raw embeddings however its calls interleave. */
module EmbedCache {
  import opened Wrappers
  import opened Plans

  datatype Text = Text(chars: string)
  datatype Key = Key(hex: string)
  type Vector = seq<real>

  /** An entry of the OrderedDict. */
  datatype Slot = Slot(key: Key, value: Vector)

  // ---- The ordered dictionary ---------------------------------------------------------------------

  /** The position of `key`, or -1. */
  function Find(cache: seq<Slot>, key: Key): (i: int)
    ensures -1 <= i < |cache|
    ensures i >= 0 ==> cache[i].key == key
    ensures i < 0 ==> forall k :: 0 <= k < |cache| ==> cache[k].key != key
  {
    if cache == [] then -1
    else if cache[|cache| - 1].key == key then |cache| - 1
    else Find(cache[..|cache| - 1], key)
  }

  function RemoveAt<T>(s: seq<T>, i: nat): seq<T>
    requires i < |s|
  {
    s[..i] + s[i + 1..]
  }

  /** `get`: the entry that is found moves to the end. */
  function Touched(cache: seq<Slot>, key: Key): seq<Slot> {
    var i := Find(cache, key);
    if i < 0 then cache else RemoveAt(cache, i) + [cache[i]]
  }

  /** `set`: the entry goes to the end, and the oldest goes if there are too many. */
  function WithEntry(cache: seq<Slot>, key: Key, value: Vector, maxSize: nat): seq<Slot> {
    var i := Find(cache, key);
    var added := (if i < 0 then cache else RemoveAt(cache, i)) + [Slot(key, value)];
    if |added| > maxSize then added[1..] else added
  }

  // ---- The history of uses -------------------------------------------------------------------------

  function Without(s: seq<Text>, t: Text): seq<Text> {
    if s == [] then []
    else
      var rest := Without(s[..|s| - 1], t);
      if s[|s| - 1] == t then rest else rest + [s[|s| - 1]]
  }

  /** The distinct texts of a history, in the order of their latest use. */
  function Recent(history: seq<Text>): seq<Text> {
    if history == [] then []
    else
      var t := history[|history| - 1];
      Without(Recent(history[..|history| - 1]), t) + [t]
  }

  /** The position of `t`, or the length. */
  function Position(s: seq<Text>, t: Text): (i: nat)
    ensures i <= |s| && (i < |s| ==> s[i] == t) && (i == |s| ==> t !in s)
  {
    if s == [] then 0 else if s[0] == t then 0 else 1 + Position(s[1..], t)
  }

  function LastOf<T>(s: seq<T>, n: nat): seq<T> {
    if |s| <= n then s else s[|s| - n..]
  }

  function Texts(s: seq<Text>): set<Text> { set t | t in s }

  lemma {:induction false} WithoutMembers(s: seq<Text>, t: Text)
    ensures forall x :: x in Without(s, t) <==> x in s && x != t
    ensures t !in s ==> Without(s, t) == s
  {
    if s != [] {
      WithoutMembers(s[..|s| - 1], t);
      assert s == s[..|s| - 1] + [s[|s| - 1]];
    }
  }

  lemma {:induction false} WithoutAt(s: seq<Text>, i: nat)
    requires Distinct(s) && i < |s|
    ensures Without(s, s[i]) == RemoveAt(s, i)
  {
    var init := s[..|s| - 1];
    if i == |s| - 1 {
      assert s[i] !in init;
      WithoutMembers(init, s[i]);
    } else {
      WithoutAt(init, i);
      assert RemoveAt(s, i) == RemoveAt(init, i) + [s[|s| - 1]];
    }
  }

  lemma {:induction false} WithoutDistinct(s: seq<Text>, t: Text)
    requires Distinct(s)
    ensures Distinct(Without(s, t))
  {
    if s != [] {
      var init, last := s[..|s| - 1], s[|s| - 1];
      WithoutDistinct(init, t);
      WithoutMembers(init, t);
      assert last !in init;
    }
  }

  lemma {:induction false} RecentDistinct(history: seq<Text>)
    ensures Distinct(Recent(history))
    ensures forall x :: x in Recent(history) <==> x in history
  {
    if history != [] {
      var init, t := history[..|history| - 1], history[|history| - 1];
      RecentDistinct(init);
      WithoutMembers(Recent(init), t);
      WithoutDistinct(Recent(init), t);
      assert history == init + [t];
    }
  }

  /** What the cache is to hold: the last `n` distinct texts, oldest use first. */
  function Kept(history: seq<Text>, n: nat): seq<Text> { LastOf(Recent(history), n) }

  function Slots(texts: seq<Text>, md5: Text -> Key, raw: Text -> Vector): seq<Slot> {
    seq(|texts|, i requires 0 <= i < |texts| => Slot(md5(texts[i]), raw(texts[i])))
  }

  ghost predicate Injective(md5: Text -> Key) {
    forall a, b :: md5(a) == md5(b) ==> a == b
  }

  lemma {:induction false} FindSlot(texts: seq<Text>, md5: Text -> Key, raw: Text -> Vector, t: Text)
    requires Injective(md5) && Distinct(texts)
    ensures
      var i := Find(Slots(texts, md5, raw), md5(t));
      if t in texts then 0 <= i < |texts| && texts[i] == t else i == -1
  {
    var slots := Slots(texts, md5, raw);
    var i := Find(slots, md5(t));
    if t in texts {
      var k :| 0 <= k < |texts| && texts[k] == t;
      assert slots[k].key == md5(t);
    }
    if i >= 0 { assert md5(texts[i]) == md5(t); }
  }

  /** The kept texts after one more use of `t`. */
  lemma {:induction false} KeptNext(history: seq<Text>, t: Text, n: nat)
    ensures
      var kept := Kept(history, n);
      var next := Kept(history + [t], n);
      && Distinct(kept)
      && (t in kept ==> next == Without(kept, t) + [t])
      && (t !in kept ==> next == LastOf(kept + [t], n))
  {
    RecentDistinct(history);
    assert (history + [t])[..|history|] == history;
    LastNext(Recent(history), t, n);
  }

  lemma {:induction false} LastNext(all: seq<Text>, t: Text, n: nat)
    requires Distinct(all)
    ensures Distinct(LastOf(all, n))
    ensures
      var kept, next := LastOf(all, n), LastOf(Without(all, t) + [t], n);
      if t in kept then next == Without(kept, t) + [t] else next == LastOf(kept + [t], n)
  {
    var i := Position(all, t);
    if |all| > n { DistinctSuffix(all, |all| - n); }
    if i == |all| {
      KeptNew(all, t, n);
    } else {
      WithoutAt(all, i);
      if |all| - n <= i { KeptHit(all, i, n); } else { KeptMiss(all, i, n); }
    }
  }

  lemma {:induction false} KeptNew(all: seq<Text>, t: Text, n: nat)
    requires t !in all
    ensures t !in LastOf(all, n) && LastOf(Without(all, t) + [t], n) == LastOf(LastOf(all, n) + [t], n)
  {
    WithoutMembers(all, t);
    if |all| > n { assert all + [t] == all[..|all| - n] + (all[|all| - n..] + [t]); }
  }

  lemma {:induction false} KeptHit(all: seq<Text>, i: nat, n: nat)
    requires Distinct(all) && i < |all| && |all| - n <= i
    ensures all[i] in LastOf(all, n)
    ensures LastOf(RemoveAt(all, i) + [all[i]], n) == Without(LastOf(all, n), all[i]) + [all[i]]
  {
    var cut := if |all| <= n then 0 else |all| - n;
    var front, back, t := all[..cut], all[cut..], all[i];
    assert LastOf(all, n) == back && back[i - cut] == t;
    DistinctSuffix(all, cut);
    WithoutAt(back, i - cut);
    var rest := RemoveAt(back, i - cut);
    RemoveInSuffix(all, cut, i);
    assert (front + rest) + [t] == front + (rest + [t]);
    LastOfConcat(front, rest + [t], n);
  }

  lemma {:induction false} RemoveInSuffix(all: seq<Text>, cut: nat, i: nat)
    requires cut <= i < |all|
    ensures RemoveAt(all, i) == all[..cut] + RemoveAt(all[cut..], i - cut)
  {
  }

  lemma {:induction false} DistinctSuffix(s: seq<Text>, p: nat)
    requires Distinct(s) && p <= |s|
    ensures Distinct(s[p..])
  {}

  lemma {:induction false} LastOfConcat(a: seq<Text>, b: seq<Text>, n: nat)
    requires |b| == n || (a == [] && |b| <= n)
    ensures LastOf(a + b, n) == b
  {
    assert (a + b)[|a|..] == b;
  }

  lemma {:induction false} KeptMiss(all: seq<Text>, i: nat, n: nat)
    requires Distinct(all) && i < |all| - n
    ensures all[i] !in LastOf(all, n)
    ensures LastOf(RemoveAt(all, i) + [all[i]], n) == LastOf(LastOf(all, n) + [all[i]], n)
  {
    var cut := |all| - n;
    assert LastOf(all, n) == all[cut..];
    assert forall k :: 0 <= k < n ==> all[cut..][k] == all[cut + k];
  }

  // ---- The cache and _embed ------------------------------------------------------------------------

  class LruEmbedCache {
    const maxSize: nat
    const md5: Text -> Key
    const raw: Text -> Vector
    var cache: seq<Slot>
    ghost var history: seq<Text>   // the texts embedded so far

    /** The cache holds exactly the last `maxSize` distinct texts, each with its raw embedding. */
    ghost predicate Valid()
      reads this
    {
      Injective(md5) && cache == Slots(Kept(history, maxSize), md5, raw)
    }

    constructor (maxSize: nat, md5: Text -> Key, raw: Text -> Vector)
      requires Injective(md5)
      ensures Valid() && history == [] && this.maxSize == maxSize && this.md5 == md5 && this.raw == raw
    {
      this.maxSize, this.md5, this.raw, cache, history := maxSize, md5, raw, [], [];
    }

    method Get(key: Key) returns (value: Option<Vector>)
      modifies this`cache
      ensures cache == Touched(old(cache), key)
      ensures value == if Find(old(cache), key) < 0 then None else Some(old(cache)[Find(old(cache), key)].value)
    {
      var i := Find(cache, key);
      if i < 0 { return None; }
      var slot := cache[i];
      cache := RemoveAt(cache, i) + [slot];
      return Some(slot.value);
    }

    method Set(key: Key, value: Vector)
      modifies this`cache
      ensures cache == WithEntry(old(cache), key, value, maxSize)
    {
      var i := Find(cache, key);
      if i >= 0 { cache := RemoveAt(cache, i) + [cache[i]]; }
      cache := if i >= 0 then cache[..|cache| - 1] + [Slot(key, value)] else cache + [Slot(key, value)];
      if |cache| > maxSize { cache := cache[1..]; }
    }

    method Embed(text: Text) returns (v: Vector, hit: bool)
      requires Valid()
      modifies this
      ensures Valid() && history == old(history) + [text]
      ensures v == raw(text)
      ensures hit <==> text in Kept(old(history), maxSize)
    {
      EmbedStep(history, text, maxSize, md5, raw);
      var key := md5(text);
      history := history + [text];
      var cached := Get(key);
      if cached.Some? { return cached.value, true; }
      v, hit := raw(text), false;
      Set(key, v);
    }
  }

  /** What the lookup finds, and that touching or adding the entry leads to what is to be kept. */
  lemma {:induction false} EmbedStep(history: seq<Text>, t: Text, n: nat, md5: Text -> Key, raw: Text -> Vector)
    requires Injective(md5)
    ensures var slots, next := Slots(Kept(history, n), md5, raw), Slots(Kept(history + [t], n), md5, raw);
            var i := Find(slots, md5(t));
            if t in Kept(history, n) then i >= 0 && slots[i].value == raw(t) && Touched(slots, md5(t)) == next
            else i < 0 && Touched(slots, md5(t)) == slots && WithEntry(slots, md5(t), raw(t), n) == next
  {
    var kept := Kept(history, n);
    KeptNext(history, t, n);
    FindSlot(kept, md5, raw, t);
    if t in kept { UseSlot(kept, t, md5, raw); } else { NewSlot(kept, t, n, md5, raw); }
  }

  lemma {:induction false} UseSlot(kept: seq<Text>, t: Text, md5: Text -> Key, raw: Text -> Vector)
    requires Injective(md5) && Distinct(kept) && t in kept
    ensures Touched(Slots(kept, md5, raw), md5(t)) == Slots(Without(kept, t) + [t], md5, raw)
  {
    FindSlot(kept, md5, raw, t);
    var i := Find(Slots(kept, md5, raw), md5(t));
    WithoutAt(kept, i);
    SlotMoves(kept, i, md5, raw);
  }

  lemma {:induction false} SlotMoves(kept: seq<Text>, i: nat, md5: Text -> Key, raw: Text -> Vector)
    requires i < |kept|
    ensures var slots := Slots(kept, md5, raw);
            RemoveAt(slots, i) + [slots[i]] == Slots(RemoveAt(kept, i) + [kept[i]], md5, raw)
  {
  }

  lemma {:induction false} NewSlot(kept: seq<Text>, t: Text, n: nat, md5: Text -> Key, raw: Text -> Vector)
    requires Injective(md5) && Distinct(kept) && t !in kept && |kept| <= n
    ensures WithEntry(Slots(kept, md5, raw), md5(t), raw(t), n) == Slots(LastOf(kept + [t], n), md5, raw)
  {
    FindSlot(kept, md5, raw, t);
    SlotsAppend(kept, t, md5, raw);
    if |kept| == n { SlotsTail(kept + [t], md5, raw); }
  }

  lemma {:induction false} SlotsAppend(texts: seq<Text>, t: Text, md5: Text -> Key, raw: Text -> Vector)
    ensures Slots(texts, md5, raw) + [Slot(md5(t), raw(t))] == Slots(texts + [t], md5, raw)
  {
  }

  lemma {:induction false} SlotsTail(texts: seq<Text>, md5: Text -> Key, raw: Text -> Vector)
    requires texts != []
    ensures Slots(texts, md5, raw)[1..] == Slots(texts[1..], md5, raw)
  {
  }

  // ---- What being kept means --------------------------------------------------------------------------

  /** A bigger cache hits whenever a smaller one does. */
  lemma {:induction false} StackInclusion(history: seq<Text>, n: nat, m: nat, t: Text)
    requires n <= m
    ensures LastOf(Kept(history, m), n) == Kept(history, n)
    ensures t in Kept(history, n) ==> t in Kept(history, m)
  {
    LastOfLast(Recent(history), n, m);
  }

  lemma {:induction false} LastOfLast(s: seq<Text>, n: nat, m: nat)
    requires n <= m
    ensures LastOf(LastOf(s, m), n) == LastOf(s, n)
    ensures forall t :: t in LastOf(s, n) ==> t in LastOf(s, m)
  {
    var outer := LastOf(s, m);
    assert LastOf(outer, n) == LastOf(s, n);
    forall t | t in LastOf(outer, n) ensures t in outer {}
  }

  /** Behind position `p`, one more use of `t` leaves the order as it was, up to `t` itself. */
  lemma {:induction false} SameSuffix(before: seq<Text>, t: Text, p: nat)
    requires Distinct(before) && p < |Without(before, t)|
    ensures
      var q := if p < Position(before, t) then p else p + 1;
      && q < |before| && before[q] == Without(before, t)[p]
      && Without(before, t)[p..] == Without(before[q..], t)
  {
    var i := Position(before, t);
    if i == |before| {
      WithoutMembers(before, t);
      WithoutMembers(before[p..], t);
      assert t !in before[p..];
    } else if p < i {
      WithoutAt(before, i);
      SuffixOverGap(before, i, p);
    } else {
      WithoutAt(before, i);
      SuffixPastGap(before, i, p);
    }
  }

  lemma {:induction false} SuffixOverGap(s: seq<Text>, i: nat, p: nat)
    requires Distinct(s) && p < i < |s|
    ensures RemoveAt(s, i)[p] == s[p] && RemoveAt(s, i)[p..] == Without(s[p..], s[i])
  {
    DistinctSuffix(s, p);
    RemoveInSuffix(s, p, i);
    WithoutAt(s[p..], i - p);
    assert s[p..][i - p] == s[i];
    AfterPrefix(s[..p], RemoveAt(s[p..], i - p));
  }

  lemma {:induction false} AfterPrefix<T>(a: seq<T>, b: seq<T>)
    ensures (a + b)[|a|..] == b
  {
  }

  lemma {:induction false} SuffixPastGap(s: seq<Text>, i: nat, p: nat)
    requires Distinct(s) && i <= p < |s| - 1
    ensures RemoveAt(s, i)[p] == s[p + 1] && RemoveAt(s, i)[p..] == Without(s[p + 1..], s[i])
  {
    TailPastGap(s, i, p);
    assert s[i] !in s[p + 1..];
    WithoutMembers(s[p + 1..], s[i]);
  }

  lemma {:induction false} TailPastGap<T>(s: seq<T>, i: nat, p: nat)
    requires i <= p < |s| - 1
    ensures RemoveAt(s, i)[p] == s[p + 1] && RemoveAt(s, i)[p..] == s[p + 1..]
  {
  }

  /** Position `k` is the latest use of `t`, and `since` lists the texts used from there on. */
  ghost predicate LatestUse(history: seq<Text>, k: nat, t: Text, since: seq<Text>) {
    && k < |history| && history[k] == t && t !in history[k + 1..]
    && forall x :: x in history[k..] <==> x in since
  }

  /** The texts used since the latest use of the text in position `p` are those from `p` on. */
  lemma {:induction false} SinceLatestUse(history: seq<Text>, p: nat) returns (k: nat)
    requires p < |Recent(history)|
    ensures LatestUse(history, k, Recent(history)[p], Recent(history)[p..])
  {
    var init, t := history[..|history| - 1], history[|history| - 1];
    var before := Recent(init);
    assert history == init + [t];
    if p == |Recent(history)| - 1 {
      k := |history| - 1;
      assert history[k..] == [t] && Recent(history)[p..] == [t];
    } else {
      RecentDistinct(init);
      var rest := Without(before, t);
      var q := if p < Position(before, t) then p else p + 1;
      SameSuffix(before, t, p);
      WithoutMembers(before, t);
      assert rest[p] in rest;
      k := SinceLatestUse(init, q);
      LatestStep(init, t, k, before[q..], rest, p);
    }
  }

  lemma {:induction false} LatestStep(init: seq<Text>, t: Text, k: nat, since: seq<Text>, rest: seq<Text>, p: nat)
    requires p < |rest| && rest[p] != t && LatestUse(init, k, rest[p], since) && rest[p..] == Without(since, t)
    ensures LatestUse(init + [t], k, (rest + [t])[p], (rest + [t])[p..])
  {
    assert (rest + [t])[p..] == Without(since, t) + [t];
    SuffixGrows(init, t, k, since);
  }

  lemma {:induction false} SuffixGrows(init: seq<Text>, t: Text, k: nat, since: seq<Text>)
    requires k < |init| && init[k] != t && LatestUse(init, k, init[k], since)
    ensures LatestUse(init + [t], k, init[k], Without(since, t) + [t])
  {
    WithoutMembers(since, t);
    assert (init + [t])[k..] == init[k..] + [t] && (init + [t])[k + 1..] == init[k + 1..] + [t];
  }

  /** `t` is kept by a cache of size `n` exactly when some stretch at the end of the history contains it
      and no more than `n` distinct texts. */
  lemma {:induction false} KeptMeaning(history: seq<Text>, n: nat, t: Text)
    ensures t in Kept(history, n) <==> exists k :: 0 <= k <= |history| && t in history[k..] && |Texts(history[k..])| <= n
  {
    RecentDistinct(history);
    var all := Recent(history);
    if t in Kept(history, n) {
      var i :| 0 <= i < |Kept(history, n)| && Kept(history, n)[i] == t;
      var p := |all| - |Kept(history, n)| + i;
      var k := SinceLatestUse(history, p);
      assert history[k..][0] == t;
      SuffixSize(all, p);
      assert Texts(history[k..]) == Texts(all[p..]);
    }
    if k :| 0 <= k <= |history| && t in history[k..] && |Texts(history[k..])| <= n {
      KeptIfRecent(history, n, t, k);
    }
  }

  lemma {:induction false} KeptIfRecent(history: seq<Text>, n: nat, t: Text, k: nat)
    requires k <= |history| && t in history[k..] && |Texts(history[k..])| <= n
    ensures t in Kept(history, n)
  {
    RecentDistinct(history);
    var all := Recent(history);
    var j :| 0 <= j < |history[k..]| && history[k..][j] == t;
    assert history[k + j] == t && t in history && t in all;
    var p :| 0 <= p < |all| && all[p] == t;
    FewSince(history, p, k + j, k);
    InLast(all, p, n);
  }

  /** From position `p` on there are no more texts than in any stretch to the end that has a use of it. */
  lemma {:induction false} FewSince(history: seq<Text>, p: nat, at: nat, k: nat)
    requires p < |Recent(history)| && k <= at < |history| && history[at] == Recent(history)[p]
    ensures |Recent(history)| - p <= |Texts(history[k..])|
  {
    var all := Recent(history);
    RecentDistinct(history);
    var latest := SinceLatestUse(history, p);
    LatestIsLater(history, latest, at, all[p]);
    FewerTexts(history, k, latest);
    assert Texts(history[latest..]) == Texts(all[p..]);
    SuffixSize(all, p);
  }

  lemma {:induction false} LatestIsLater(history: seq<Text>, latest: nat, k: nat, t: Text)
    requires latest < |history| && t !in history[latest + 1..] && k < |history| && history[k] == t
    ensures k <= latest
  {
    forall m | latest < m < |history| ensures history[m] != t {
      assert history[latest + 1..][m - latest - 1] == history[m];
    }
  }

  lemma {:induction false} FewerTexts(history: seq<Text>, k: nat, j: nat)
    requires k <= j <= |history|
    ensures |Texts(history[j..])| <= |Texts(history[k..])|
  {
    assert history[k..][j - k..] == history[j..];
    assert Texts(history[j..]) <= Texts(history[k..]);
    SubsetSize(Texts(history[j..]), Texts(history[k..]));
  }

  lemma {:induction false} InLast(all: seq<Text>, p: nat, n: nat)
    requires p < |all| && |all| - p <= n
    ensures all[p] in LastOf(all, n)
  {
    assert |all| > n ==> all[|all| - n..][p - (|all| - n)] == all[p];
  }

  lemma {:induction false} SuffixSize(s: seq<Text>, p: nat)
    requires Distinct(s) && p <= |s|
    ensures |Texts(s[p..])| == |s| - p
  {
    DistinctSuffix(s, p);
    DistinctSize(s[p..]);
  }

  // ---- _embed_batch ------------------------------------------------------------------------------------

  /** One _embed call of a batch: before its lookup, waiting for the embedding service, or returned. */
  datatype Call = Ready(text: Text) | Fetching(text: Text) | Returned(text: Text, v: Vector)

  datatype Batch = Batch(cache: seq<Slot>, calls: seq<Call>)

  /** Call `i` goes on to its next await. The batch shares the cache with whatever else embeds: the
      calls of a batch are any calls. */
  function Resume(b: Batch, i: nat, maxSize: nat, md5: Text -> Key, raw: Text -> Vector): Batch
    requires i < |b.calls|
  {
    match b.calls[i]
    case Ready(t) =>
      var at := Find(b.cache, md5(t));
      if at < 0 then b.(calls := b.calls[i := Fetching(t)])
      else Batch(Touched(b.cache, md5(t)), b.calls[i := Returned(t, b.cache[at].value)])
    case Fetching(t) => Batch(WithEntry(b.cache, md5(t), raw(t), maxSize), b.calls[i := Returned(t, raw(t))])
    case Returned(_, _) => b
  }

  /** A call with nobody else moving: to its await and, if it has one, on to its end. */
  function Alone(b: Batch, i: nat, maxSize: nat, md5: Text -> Key, raw: Text -> Vector): Batch
    requires i < |b.calls|
  {
    Resume(Resume(b, i, maxSize, md5, raw), i, maxSize, md5, raw)
  }

  /** Such a call returns its raw embedding and leaves the cache as one more use of its text does; and it
      waits for the embedding service exactly if its text is not kept. */
  lemma {:induction false} AloneIsEmbed(history: seq<Text>, calls: seq<Call>, i: nat, maxSize: nat, md5: Text -> Key, raw: Text -> Vector)
    requires Injective(md5) && i < |calls| && calls[i].Ready?
    ensures
      var t := calls[i].text;
      var b := Batch(Slots(Kept(history, maxSize), md5, raw), calls);
      && Alone(b, i, maxSize, md5, raw) == Batch(Slots(Kept(history + [t], maxSize), md5, raw), calls[i := Returned(t, raw(t))])
      && (Resume(b, i, maxSize, md5, raw).calls[i].Fetching? <==> t !in Kept(history, maxSize))
  {
    var t, b := calls[i].text, Batch(Slots(Kept(history, maxSize), md5, raw), calls);
    EmbedStep(history, t, maxSize, md5, raw);
    var once := Resume(b, i, maxSize, md5, raw);
    assert once.calls == calls[i := once.calls[i]];
    assert Alone(b, i, maxSize, md5, raw).calls == calls[i := Returned(t, raw(t))];
  }

  /** Some text's key with that text's raw embedding. */
  ghost predicate Faithful(slot: Slot, md5: Text -> Key, raw: Text -> Vector) {
    exists t :: slot == Slot(md5(t), raw(t))
  }

  ghost predicate CacheOk(cache: seq<Slot>, md5: Text -> Key, raw: Text -> Vector) {
    && (forall k :: 0 <= k < |cache| ==> Faithful(cache[k], md5, raw))
    && (forall j, k :: 0 <= j < k < |cache| ==> cache[j].key != cache[k].key)
  }

  ghost predicate BatchOk(b: Batch, maxSize: nat, md5: Text -> Key, raw: Text -> Vector) {
    && CacheOk(b.cache, md5, raw) && |b.cache| <= maxSize
    && forall i :: 0 <= i < |b.calls| && b.calls[i].Returned? ==> b.calls[i].v == raw(b.calls[i].text)
  }

  lemma {:induction false} RemovedOk(cache: seq<Slot>, i: nat, md5: Text -> Key, raw: Text -> Vector)
    requires CacheOk(cache, md5, raw) && i < |cache|
    ensures CacheOk(RemoveAt(cache, i), md5, raw)
    ensures forall k :: 0 <= k < |cache| - 1 ==> RemoveAt(cache, i)[k].key != cache[i].key
  {
    var rest := RemoveAt(cache, i);
    forall k | 0 <= k < |rest| ensures rest[k] == cache[if k < i then k else k + 1] {}
  }

  lemma {:induction false} AddedOk(cache: seq<Slot>, slot: Slot, md5: Text -> Key, raw: Text -> Vector)
    requires CacheOk(cache, md5, raw) && Faithful(slot, md5, raw)
    requires forall k :: 0 <= k < |cache| ==> cache[k].key != slot.key
    ensures CacheOk(cache + [slot], md5, raw) && CacheOk((cache + [slot])[1..], md5, raw)
  {
    assert CacheOk(cache + [slot], md5, raw);
    assert forall k :: 0 <= k < |cache| ==> (cache + [slot])[1..][k] == (cache + [slot])[k + 1];
  }

  lemma {:induction false} ReplacedOk(cache: seq<Slot>, slot: Slot, md5: Text -> Key, raw: Text -> Vector)
    requires CacheOk(cache, md5, raw) && Faithful(slot, md5, raw)
    ensures
      var i := Find(cache, slot.key);
      var added := (if i < 0 then cache else RemoveAt(cache, i)) + [slot];
      CacheOk(added, md5, raw) && CacheOk(added[1..], md5, raw)
  {
    var i := Find(cache, slot.key);
    if i >= 0 {
      RemovedOk(cache, i, md5, raw);
      AddedOk(RemoveAt(cache, i), slot, md5, raw);
    } else {
      AddedOk(cache, slot, md5, raw);
    }
  }

  lemma {:induction false} ResumeKeeps(b: Batch, i: nat, maxSize: nat, md5: Text -> Key, raw: Text -> Vector)
    requires Injective(md5) && BatchOk(b, maxSize, md5, raw) && i < |b.calls|
    ensures BatchOk(Resume(b, i, maxSize, md5, raw), maxSize, md5, raw)
  {
    HitKeeps(b.cache, b.calls[i].text, md5, raw);
    MissKeeps(b.cache, b.calls[i].text, maxSize, md5, raw);
  }

  lemma {:induction false} MissKeeps(cache: seq<Slot>, t: Text, maxSize: nat, md5: Text -> Key, raw: Text -> Vector)
    requires CacheOk(cache, md5, raw) && |cache| <= maxSize
    ensures CacheOk(WithEntry(cache, md5(t), raw(t), maxSize), md5, raw)
    ensures |WithEntry(cache, md5(t), raw(t), maxSize)| <= maxSize
  {
    assert Faithful(Slot(md5(t), raw(t)), md5, raw);
    ReplacedOk(cache, Slot(md5(t), raw(t)), md5, raw);
  }

  lemma {:induction false} HitKeeps(cache: seq<Slot>, t: Text, md5: Text -> Key, raw: Text -> Vector)
    requires Injective(md5) && CacheOk(cache, md5, raw)
    ensures CacheOk(Touched(cache, md5(t)), md5, raw) && |Touched(cache, md5(t))| == |cache|
    ensures Find(cache, md5(t)) >= 0 ==> cache[Find(cache, md5(t))].value == raw(t)
  {
    var at := Find(cache, md5(t));
    if at >= 0 {
      assert Faithful(cache[at], md5, raw);
      ReplacedOk(cache, cache[at], md5, raw);
    }
  }

  ghost predicate Follows(b: Batch, b': Batch, maxSize: nat, md5: Text -> Key, raw: Text -> Vector) {
    exists i: nat :: i < |b.calls| && b' == Resume(b, i, maxSize, md5, raw)
  }

  ghost predicate BatchRun(run: seq<Batch>, maxSize: nat, md5: Text -> Key, raw: Text -> Vector) {
    run != [] && forall k :: 0 < k < |run| ==> Follows(run[k - 1], run[k], maxSize, md5, raw)
  }

  predicate SameCalls(b: Batch, b': Batch) {
    |b'.calls| == |b.calls| && forall i :: 0 <= i < |b.calls| ==> b'.calls[i].text == b.calls[i].text
  }

  lemma {:induction false} FollowsKeeps(b: Batch, b': Batch, maxSize: nat, md5: Text -> Key, raw: Text -> Vector)
    requires Injective(md5) && BatchOk(b, maxSize, md5, raw) && Follows(b, b', maxSize, md5, raw)
    ensures BatchOk(b', maxSize, md5, raw) && SameCalls(b, b')
  {
    var i: nat :| i < |b.calls| && b' == Resume(b, i, maxSize, md5, raw);
    ResumeKeeps(b, i, maxSize, md5, raw);
    ResumeSameCalls(b, i, maxSize, md5, raw);
  }

  lemma {:induction false} ResumeSameCalls(b: Batch, i: nat, maxSize: nat, md5: Text -> Key, raw: Text -> Vector)
    requires i < |b.calls|
    ensures SameCalls(b, Resume(b, i, maxSize, md5, raw))
  {
  }

  /** The cache object of sequential calls is fit for a batch. */
  lemma {:induction false} KeptIsCacheOk(history: seq<Text>, n: nat, md5: Text -> Key, raw: Text -> Vector)
    requires Injective(md5)
    ensures CacheOk(Slots(Kept(history, n), md5, raw), md5, raw) && |Slots(Kept(history, n), md5, raw)| <= n
  {
    var kept := Kept(history, n);
    var cache := Slots(kept, md5, raw);
    RecentDistinct(history);
    if |Recent(history)| > n { DistinctSuffix(Recent(history), |Recent(history)| - n); }
    forall k | 0 <= k < |cache| ensures Faithful(cache[k], md5, raw) { assert cache[k] == Slot(md5(kept[k]), raw(kept[k])); }
    forall j, k | 0 <= j < k < |cache| ensures cache[j].key != cache[k].key { assert kept[j] != kept[k]; }
  }

  /** A batch that starts on the cache object, before any of its calls has returned. */
  lemma {:induction false} BatchOnCache(embed: LruEmbedCache, run: seq<Batch>, n: nat)
    requires embed.Valid() && BatchRun(run, embed.maxSize, embed.md5, embed.raw) && n < |run|
    requires run[0].cache == embed.cache && forall i :: 0 <= i < |run[0].calls| ==> !run[0].calls[i].Returned?
    ensures BatchOk(run[n], embed.maxSize, embed.md5, embed.raw) && SameCalls(run[0], run[n])
  {
    KeptIsCacheOk(embed.history, embed.maxSize, embed.md5, embed.raw);
    BatchReturnsRaw(run, n, embed.maxSize, embed.md5, embed.raw);
  }

  /** However the calls interleave, from any cache that holds raw embeddings: each call that has
      returned has returned the raw embedding of its own text, and the cache stays within its size. */
  lemma {:induction false} BatchReturnsRaw(run: seq<Batch>, n: nat, maxSize: nat, md5: Text -> Key, raw: Text -> Vector)
    requires Injective(md5) && BatchRun(run, maxSize, md5, raw) && BatchOk(run[0], maxSize, md5, raw) && n < |run|
    ensures BatchOk(run[n], maxSize, md5, raw) && SameCalls(run[0], run[n])
    decreases n
  {
    if n > 0 {
      BatchReturnsRaw(run, n - 1, maxSize, md5, raw);
      assert Follows(run[n - 1], run[n], maxSize, md5, raw);
      FollowsKeeps(run[n - 1], run[n], maxSize, md5, raw);
    }
  }
}
