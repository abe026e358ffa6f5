/** Parts of a sequence, in order. */
module Sequences {

  lemma {:induction false} Associate<T>(a: seq<T>, b: seq<T>, c: seq<T>)
    ensures a + (b + c) == (a + b) + c
  {
  }

  /** The elements that were kept. */
  function Select<T>(all: seq<T>, kept: seq<bool>): seq<T>
    requires |all| == |kept|
  {
    if all == [] then []
    else Select(all[..|all| - 1], kept[..|all| - 1]) + if kept[|all| - 1] then [all[|all| - 1]] else []
  }

  lemma {:induction false} SelectAppend<T>(all: seq<T>, kept: seq<bool>, x: T, keep: bool)
    requires |all| == |kept|
    ensures Select(all + [x], kept + [keep]) == Select(all, kept) + if keep then [x] else []
  {
    assert (all + [x])[..|all|] == all && (kept + [keep])[..|all|] == kept;
  }

  /** `a` is what is left of `b` after striking out some of it. */
  predicate Subsequence<T(==)>(a: seq<T>, b: seq<T>) {
    if a == [] then true
    else if b == [] then false
    else Subsequence(if a[|a| - 1] == b[|b| - 1] then a[..|a| - 1] else a, b[..|b| - 1])
  }

  lemma {:induction false} PrefixOfSubsequence<T>(a: seq<T>, b: seq<T>)
    requires a != [] && Subsequence(a, b)
    ensures Subsequence(a[..|a| - 1], b)
    decreases |b|
  {
    if |a| > 1 {
      var init := a[..|a| - 1];
      if a[|a| - 1] == b[|b| - 1] {
        if init[|init| - 1] == b[|b| - 1] { PrefixOfSubsequence(init, b[..|b| - 1]); }
      } else {
        PrefixOfSubsequence(a, b[..|b| - 1]);
        if init[|init| - 1] == b[|b| - 1] { PrefixOfSubsequence(init, b[..|b| - 1]); }
      }
    }
  }

  lemma {:induction false} SelectIsSubsequence<T>(all: seq<T>, kept: seq<bool>)
    requires |all| == |kept|
    ensures Subsequence(Select(all, kept), all)
  {
    if all != [] {
      var init, a := all[..|all| - 1], Select(all[..|all| - 1], kept[..|all| - 1]);
      SelectIsSubsequence(init, kept[..|all| - 1]);
      if kept[|all| - 1] {
        assert (a + [all[|all| - 1]])[..|a|] == a;
      } else {
        assert Select(all, kept) == a;
        if a != [] && a[|a| - 1] == all[|all| - 1] { PrefixOfSubsequence(a, init); }
      }
    }
  }

  lemma {:induction false} SelectAll<T>(all: seq<T>, kept: seq<bool>)
    requires |all| == |kept|
    ensures |Select(all, kept)| <= |all|
    ensures Select(all, kept) == all <==> forall i :: 0 <= i < |kept| ==> kept[i]
  {
    if all != [] {
      var n := |all| - 1;
      SelectAll(all[..n], kept[..n]);
      assert forall i :: 0 <= i < n ==> kept[..n][i] == kept[i];
      assert all == all[..n] + [all[n]];
      if !kept[n] {
        assert |Select(all, kept)| <= n;
      } else if Select(all, kept) == all {
        assert Select(all[..n], kept[..n]) == Select(all, kept)[..n];
      }
    }
  }
}
