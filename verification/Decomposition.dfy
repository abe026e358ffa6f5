/** _validate_task_dag: the tasks an architect's JSON plan is normalized to, and when load_plan accepts them. */
module Decomposition {
  import opened Wrappers
  import opened Plans
  import opened DagValidation
  import opened Sequences

  /** The "deps" entry of an item: missing, a list (its elements already turned into strings), or
      a value that cannot be iterated, for which Python raises TypeError. */
  datatype Deps = Missing | Listed(names: seq<Id>) | NotIterable

  /** A role string, up to which of the known roles it is. */
  datatype Role = Architect | Coder | Reviewer | Tester | Documenter | Unknown(name: string)

  /** The keys of a JSON object that are looked at. */
  datatype Entry = Entry(id: Option<Id>, role: Option<Role>, desc: Option<string>, deps: Deps)

  /** An element of the decoded JSON list. */
  datatype Item = NotADict | Dict(entry: Entry)

  datatype Json = NotAList | List(items: seq<Item>)

  datatype Normalized = Normalized(id: Id, role: Role, desc: string, deps: seq<Id>)

  function Digits(n: nat): string {
    if n < 10 then [('0' as int + n) as char] else Digits(n / 10) + [('0' as int + n % 10) as char]
  }

  /** The id given to an item without one, in position `k`. */
  function MadeUp(k: nat): Id { Id("t" + Digits(k)) }

  function Or<T>(o: Option<T>, default: T): T { if o.Some? then o.value else default }

  function ValueOf(digits: string): int {
    if digits == "" then 0 else 10 * ValueOf(digits[..|digits| - 1]) + (digits[|digits| - 1] as int - '0' as int)
  }

  /** The decimal digits of a number, without leading zeros. */
  lemma {:induction false} DigitsMeaning(n: nat)
    ensures ValueOf(Digits(n)) == n && Digits(n) != "" && (n > 0 ==> Digits(n)[0] != '0')
    ensures forall c :: c in Digits(n) ==> '0' <= c <= '9'
  {
    var last := [('0' as int + n % 10) as char];
    if n < 10 {
      assert last[..0] == "" && Digits(n) == last;
    } else {
      DigitsMeaning(n / 10);
      assert (Digits(n / 10) + last)[..|Digits(n / 10)|] == Digits(n / 10);
    }
  }

  /** The dictionaries of the list, in order. */
  function Dicts(items: seq<Item>): seq<Entry> {
    if items == [] then [] else
      var ds, last := Dicts(items[..|items| - 1]), items[|items| - 1];
      if last.Dict? then ds + [last.entry] else ds
  }

  /** Of a list in two parts, first those of the first; a dictionary counts, and nothing else. */
  lemma {:induction false} DictsMeaning(a: seq<Item>, b: seq<Item>, e: Entry)
    ensures Dicts(a + b) == Dicts(a) + Dicts(b)
    ensures Dicts([Dict(e)]) == [e] && Dicts([NotADict]) == [] && Dicts([]) == []
  {
    assert [Dict(e)][..0] == [] && [NotADict][..0] == [];
    if b == [] {
      assert a + b == a;
    } else {
      DictsMeaning(a, b[..|b| - 1], e);
      assert (a + b)[..|a + b| - 1] == a + b[..|b| - 1];
    }
  }

  /** The id each dictionary ends up with: its own, or "t" and its position among the dictionaries. */
  function EffectiveIds(items: seq<Item>): seq<Id> {
    var ds := Dicts(items);
    seq(|ds|, k requires 0 <= k < |ds| => Or(ds[k].id, MadeUp(k)))
  }

  function AsTasks(ns: seq<Normalized>): (tasks: seq<Task>) {
    seq(|ns|, k requires 0 <= k < |ns| => Task(ns[k].id, ns[k].deps, true))
  }

  /** Each task's dependencies name only entries before it. */
  ghost predicate BackwardDeps(ns: seq<Normalized>) {
    forall k, d :: 0 <= k < |ns| && d in ns[k].deps ==> exists j :: 0 <= j < k && ns[j].id == d
  }

  /** The names that are known, in order. */
  function Keep(names: seq<Id>, known: set<Id>): seq<Id> {
    if names == [] then []
    else
      var kept, last := Keep(names[..|names| - 1], known), names[|names| - 1];
      if last in known then kept + [last] else kept
  }

  lemma {:induction false} KeepMeaning(names: seq<Id>, known: set<Id>)
    ensures forall d :: d in Keep(names, known) <==> d in names && d in known
  {
    if names != [] {
      KeepMeaning(names[..|names| - 1], known);
      assert names == names[..|names| - 1] + [names[|names| - 1]];
    }
  }

  /** Every known name as often as it is listed, no other, and in the order of the list. */
  lemma {:induction false} KeepCounts(names: seq<Id>, known: set<Id>, d: Id)
    ensures Count(Keep(names, known), d) == if d in known then Count(names, d) else 0
    ensures Subsequence(Keep(names, known), names)
  {
    if names != [] {
      var init, last := names[..|names| - 1], names[|names| - 1];
      KeepCounts(init, known, d);
      var kept := Keep(init, known);
      if last in known {
        assert (kept + [last])[..|kept|] == kept;
      } else if kept != [] && kept[|kept| - 1] == last {
        PrefixOfSubsequence(kept, init);
      }
    }
  }

  method KeepKnown(names: seq<Id>, known: set<Id>) returns (kept: seq<Id>)
    ensures kept == Keep(names, known)
  {
    kept := [];
    for i := 0 to |names|
      invariant kept == Keep(names[..i], known)
    {
      assert names[..i + 1][..i] == names[..i];
      if names[i] in known { kept := kept + [names[i]]; }
    }
    assert names[..|names|] == names;
  }

  function NamedIn(ns: seq<Normalized>): set<Id> {
    if ns == [] then {} else NamedIn(ns[..|ns| - 1]) + {ns[|ns| - 1].id}
  }

  lemma {:induction false} NamedInMeaning(ns: seq<Normalized>)
    ensures forall x :: x in NamedIn(ns) <==> exists j :: 0 <= j < |ns| && ns[j].id == x
  {
    if ns != [] { NamedInMeaning(ns[..|ns| - 1]); }
  }

  /** What a dictionary in position `k` is normalized to, `known` being the ids before it. */
  function NormalForm(d: Entry, k: nat, known: set<Id>): Normalized {
    Normalized(Or(d.id, MadeUp(k)),
               if Or(d.role, Coder).Unknown? then Coder else Or(d.role, Coder),
               Or(d.desc, ""),
               Keep(if d.deps.Listed? then d.deps.names else [], known))
  }

  /** Every dictionary is normalized, in order, against the ids that precede it. */
  function NormalForms(ds: seq<Entry>): (ns: seq<Normalized>)
    ensures |ns| == |ds|
  {
    if ds == [] then []
    else
      var ns := NormalForms(ds[..|ds| - 1]);
      ns + [NormalForm(ds[|ds| - 1], |ns|, NamedIn(ns))]
  }

  /** What entry `k` of the result is to hold, read off the items: of the listed dependencies those that an
      earlier dictionary ends up with as its id, each as often as listed and in order; a known role, or
      coder; the description, or nothing. */
  ghost predicate EntryRight(items: seq<Item>, ns: seq<Normalized>, k: nat)
    requires |ns| == |Dicts(items)| && k < |ns|
  {
    var d, n := Dicts(items)[k], ns[k];
    var names := if d.deps.Listed? then d.deps.names else [];
    && n.id == EffectiveIds(items)[k]
    && (forall x :: Count(n.deps, x) == if EarlierId(items, k, x) then Count(names, x) else 0)
    && Subsequence(n.deps, names)
    && (if d.role.Some? && !d.role.value.Unknown? then n.role == d.role.value else n.role == Coder)
    && (if d.desc.Some? then n.desc == d.desc.value else n.desc == "")
  }

  ghost predicate EarlierId(items: seq<Item>, k: nat, x: Id)
    requires k <= |EffectiveIds(items)|
  {
    exists j :: 0 <= j < k && EffectiveIds(items)[j] == x
  }

  lemma {:induction false} NormalFormAt(ds: seq<Entry>, k: nat)
    requires k < |ds|
    ensures NormalForms(ds)[..k] == NormalForms(ds[..k])
    ensures NormalForms(ds)[k] == NormalForm(ds[k], k, NamedIn(NormalForms(ds[..k])))
  {
    if k < |ds| - 1 {
      NormalFormAt(ds[..|ds| - 1], k);
      assert ds[..|ds| - 1][..k] == ds[..k];
    }
  }

  /** Every entry of the result is right. */
  lemma {:induction false} NormalizedMeaning(items: seq<Item>, k: nat)
    requires k < |Dicts(items)|
    ensures EntryRight(items, NormalForms(Dicts(items)), k)
  {
    var ds := Dicts(items);
    NormalFormAt(ds, k);
    NormalFormsBackward(ds);
    NormalFormsBackward(ds[..k]);
    var before := NormalForms(ds[..k]);
    NamedInMeaning(before);
    forall x ensures x in NamedIn(before) <==> EarlierId(items, k, x) {
      if EarlierId(items, k, x) {
        var j :| 0 <= j < k && EffectiveIds(items)[j] == x;
        assert before[j].id == x;
      }
      if x in NamedIn(before) {
        var j :| 0 <= j < |before| && before[j].id == x;
        assert EffectiveIds(items)[j] == x;
      }
    }
    var names := if ds[k].deps.Listed? then ds[k].deps.names else [];
    forall x ensures Count(Keep(names, NamedIn(before)), x) == if EarlierId(items, k, x) then Count(names, x) else 0 {
      KeepCounts(names, NamedIn(before), x);
    }
    KeepCounts(names, NamedIn(before), Id(""));
  }

  ghost predicate AllIterable(items: seq<Item>) {
    forall k :: 0 <= k < |items| && items[k].Dict? ==> !items[k].entry.deps.NotIterable?
  }

  lemma {:induction false} DictsStep(items: seq<Item>, i: nat)
    requires i < |items|
    ensures Dicts(items[..i + 1]) == if items[i].Dict? then Dicts(items[..i]) + [items[i].entry] else Dicts(items[..i])
  {
    assert items[..i + 1][..i] == items[..i];
  }

  lemma {:induction false} NormalFormsStep(ds: seq<Entry>, t: Entry)
    ensures NormalForms(ds + [t]) == NormalForms(ds) + [NormalForm(t, |ds|, NamedIn(NormalForms(ds)))]
    ensures NamedIn(NormalForms(ds + [t])) == NamedIn(NormalForms(ds)) + {NormalForm(t, |ds|, NamedIn(NormalForms(ds))).id}
  {
    assert (ds + [t])[..|ds|] == ds;
    var ns, n := NormalForms(ds), NormalForm(t, |ds|, NamedIn(NormalForms(ds)));
    assert (ns + [n])[..|ns|] == ns;
  }

  /** The body of the loop for one dictionary. */
  method Normalize(ghost ds: seq<Entry>, t: Entry, ns0: seq<Normalized>, seen0: set<Id>)
    returns (ns: seq<Normalized>, seen: set<Id>)
    requires ns0 == NormalForms(ds) && seen0 == NamedIn(NormalForms(ds))
    ensures ns == NormalForms(ds + [t]) && seen == NamedIn(NormalForms(ds + [t]))
  {
    NormalFormsStep(ds, t);
    var tid := Or(t.id, MadeUp(|ns0|));
    var role := Or(t.role, Coder);
    var desc := Or(t.desc, "");
    var deps := KeepKnown(if t.deps.Listed? then t.deps.names else [], seen0);
    if role.Unknown? { role := Coder; }
    return ns0 + [Normalized(tid, role, desc, deps)], seen0 + {tid};
  }

  method NormalizeAll(items: seq<Item>) returns (r: Result<seq<Normalized>>)
    ensures r.Failure? <==> !AllIterable(items)
    ensures r.Success? ==> r.value == NormalForms(Dicts(items))
  {
    var seen: set<Id> := {};
    var ns: seq<Normalized> := [];
    ghost var ds: seq<Entry> := [];
    for i := 0 to |items|
      invariant forall k :: 0 <= k < i && items[k].Dict? ==> !items[k].entry.deps.NotIterable?
      invariant ds == Dicts(items[..i])
      invariant ns == NormalForms(ds)
      invariant seen == NamedIn(NormalForms(ds))
    {
      var t := items[i];
      DictsStep(items, i);
      if t.Dict? {
        if t.entry.deps.NotIterable? {
          assert !AllIterable(items);
          return Failure;
        }
        ns, seen := Normalize(ds, t.entry, ns, seen);
        ds := ds + [t.entry];
      }
    }
    assert items[..|items|] == items;
    return Success(ns);
  }

  method ValidateTaskDag(tasks: Json) returns (r: Result<seq<Normalized>>)
    ensures r.Failure? <==> tasks.NotAList? || !AllIterable(tasks.items)
    ensures r.Success? ==> r.value == NormalForms(Dicts(tasks.items))
    ensures r.Success? ==> |r.value| == |Dicts(tasks.items)| && forall k :: 0 <= k < |r.value| ==> EntryRight(tasks.items, r.value, k)
  {
    if tasks.NotAList? { return Failure; }
    r := NormalizeAll(tasks.items);
    forall k | 0 <= k < |Dicts(tasks.items)| ensures EntryRight(tasks.items, NormalForms(Dicts(tasks.items)), k) {
      NormalizedMeaning(tasks.items, k);
    }
  }

  lemma {:induction false} NormalFormsBackward(ds: seq<Entry>)
    ensures BackwardDeps(NormalForms(ds))
    ensures forall k :: 0 <= k < |ds| ==> NormalForms(ds)[k].id == Or(ds[k].id, MadeUp(k))
  {
    if ds != [] {
      var init := ds[..|ds| - 1];
      NormalFormsBackward(init);
      var ns, before := NormalForms(ds), NormalForms(init);
      forall k, d | 0 <= k < |ns| && d in ns[k].deps ensures exists j :: 0 <= j < k && ns[j].id == d {
        if k < |before| {
          assert d in before[k].deps;
          var j :| 0 <= j < k && before[j].id == d;
          assert ns[j].id == d;
        } else {
          var last := ds[|ds| - 1];
          KeepMeaning(if last.deps.Listed? then last.deps.names else [], NamedIn(before));
          NamedInMeaning(before);
          var j :| 0 <= j < |before| && before[j].id == d;
          assert ns[j].id == d;
        }
      }
    }
  }

  /** With distinct ids, the order of the list is itself topological. */
  lemma {:induction false} ListOrderIsTopological(ns: seq<Normalized>)
    requires BackwardDeps(ns) && Distinct(Ids(AsTasks(ns)))
    ensures TopologicalOrder(Ids(AsTasks(ns)), AsTasks(ns))
  {
    var tasks, order := AsTasks(ns), Ids(AsTasks(ns));
    forall x | x in IdSet(tasks) ensures x in order {
      var i :| 0 <= i < |tasks| && tasks[i].id == x;
      assert order[i] == x;
    }
    forall t, k, d | t in tasks && 0 <= k < |order| && order[k] == t.id && d in t.deps ensures d in order[..k] {
      var i :| 0 <= i < |tasks| && tasks[i] == t;
      assert order[i] == order[k];
      assert i == k;
      var j :| 0 <= j < k && ns[j].id == d;
      assert order[..k][j] == d;
    }
  }

  /** A decomposed plan passes the scheduler's validation exactly when the ids the items end up with
      are distinct, which can be read off the items. */
  method DecomposeAndValidate(plan: Json) returns (r: Result<seq<Normalized>>, v: Verdict)
    ensures r.Success? ==> plan.List? && BackwardDeps(r.value)
    ensures r.Success? ==> (v.Accepted? <==> Distinct(EffectiveIds(plan.items)))
    ensures r.Success? && !v.Accepted? ==> v.CycleFound?
  {
    r := ValidateTaskDag(plan);
    v := Accepted;
    if r.Success? {
      ghost var ns := r.value;
      NormalFormsBackward(Dicts(plan.items));
      assert Ids(AsTasks(ns)) == EffectiveIds(plan.items);
      if Distinct(Ids(AsTasks(ns))) { ListOrderIsTopological(ns); }
      BackwardIsListed(ns);
      v := ValidateDag(AsTasks(r.value));
    }
  }

  lemma {:induction false} BackwardIsListed(ns: seq<Normalized>)
    requires BackwardDeps(ns)
    ensures AllListed(AsTasks(ns))
  {
    var tasks := AsTasks(ns);
    forall t, d | t in tasks && d in t.deps ensures d in IdSet(tasks) {
      var k :| 0 <= k < |ns| && tasks[k] == t;
      var j :| 0 <= j < k && ns[j].id == d;
      assert tasks[j].id == d;
    }
  }

  /** An explicit id can collide with the id made up for an item without one. */
  lemma {:induction false} MadeUpIdCollides(named: Item, unnamed: Item)
    requires named == Dict(Entry(Some(Id("t1")), None, None, Missing))
    requires unnamed == Dict(Entry(None, None, None, Missing))
    ensures EffectiveIds([named, unnamed]) == [Id("t1"), Id("t1")]
  {
    DictsStep([named, unnamed], 1);
    DictsStep([named, unnamed], 0);
    assert [named, unnamed][..2] == [named, unnamed];
    assert Digits(1) == "1" && MadeUp(1) == Id("t1");
    var ids := EffectiveIds([named, unnamed]);
    assert |ids| == 2 && ids[0] == Id("t1") && ids[1] == MadeUp(1);
  }
}
