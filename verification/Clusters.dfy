/** cluster_failures: greedy clusters of failures by the distance each came with from the search. A
    failure is named by its position among the candidates. */
module Clusters {

  datatype Cluster = Cluster(members: seq<nat>)

  datatype Distance = Unknown | Known(value: real)

  /** A missing distance counts as 1. */
  function Value(d: Distance): real { if d.Known? then d.value else 1.0 }

  predicate Near(ds: seq<Distance>, threshold: real, i: nat, j: nat)
    requires i < |ds| && j < |ds|
  {
    var gap := Value(ds[i]) - Value(ds[j]);
    -threshold <= gap <= threshold
  }

  /** Near are distances that differ by at most the threshold, a missing one being 1. */
  lemma {:induction false} NearMeaning(ds: seq<Distance>, threshold: real, i: nat, j: nat)
    requires i < |ds| && j < |ds|
    ensures ds[i].Known? && ds[j].Known? ==>
      (Near(ds, threshold, i, j) <==> ds[i].value - ds[j].value <= threshold && ds[j].value - ds[i].value <= threshold)
    ensures ds[i].Known? && ds[j].Unknown? ==> (Near(ds, threshold, i, j) <==> ds[i].value - 1.0 <= threshold && 1.0 - ds[i].value <= threshold)
    ensures ds[i].Unknown? && ds[j].Unknown? ==> (Near(ds, threshold, i, j) <==> 0.0 <= threshold)
    ensures Near(ds, threshold, i, j) <==> Near(ds, threshold, j, i)
  {
  }

  // ---- Which failure founds a cluster, and which joins whose -----------------------------------------

  /** A failure founds a cluster when no founder before it is near. */
  predicate Founds(ds: seq<Distance>, threshold: real, i: nat)
    requires i < |ds|
    decreases i
  {
    forall s :: 0 <= s < i && Founds(ds, threshold, s) ==> !Near(ds, threshold, s, i)
  }

  /** The first founder, from `s` on, that is near `j`, or `j` itself. */
  function FounderFrom(ds: seq<Distance>, threshold: real, j: nat, s: nat): (f: nat)
    requires s <= j < |ds|
    ensures s <= f <= j
    decreases j - s
  {
    if s == j || (Founds(ds, threshold, s) && Near(ds, threshold, s, j)) then s
    else FounderFrom(ds, threshold, j, s + 1)
  }

  function Founder(ds: seq<Distance>, threshold: real, j: nat): (f: nat)
    requires j < |ds|
    ensures f <= j
  {
    FounderFrom(ds, threshold, j, 0)
  }

  ghost predicate NoFounderNear(ds: seq<Distance>, threshold: real, j: nat, s: nat, f: nat)
    requires j < |ds| && f <= |ds|
  {
    forall k :: s <= k < f && Founds(ds, threshold, k) ==> !Near(ds, threshold, k, j)
  }

  lemma {:induction false} FounderFromMeaning(ds: seq<Distance>, threshold: real, j: nat, s: nat)
    requires s <= j < |ds|
    ensures var f := FounderFrom(ds, threshold, j, s);
            (f < j ==> Founds(ds, threshold, f) && Near(ds, threshold, f, j)) && NoFounderNear(ds, threshold, j, s, f)
    decreases j - s
  {
    if s < j && !(Founds(ds, threshold, s) && Near(ds, threshold, s, j)) { FounderFromMeaning(ds, threshold, j, s + 1); }
  }

  /** The founder of a failure's cluster is the earliest that is near, or the failure itself. */
  lemma {:induction false} FounderMeaning(ds: seq<Distance>, threshold: real, j: nat)
    requires j < |ds|
    ensures var f := Founder(ds, threshold, j);
            Founds(ds, threshold, f) && (f != j ==> Near(ds, threshold, f, j)) && NoFounderNear(ds, threshold, j, 0, f)
    ensures Founds(ds, threshold, j) <==> Founder(ds, threshold, j) == j
  {
    FounderFromMeaning(ds, threshold, j, 0);
  }

  /** No other founder comes earlier. */
  lemma {:induction false} FounderIsEarliest(ds: seq<Distance>, threshold: real, i: nat, j: nat)
    requires i < j < |ds| && Founds(ds, threshold, i) && Near(ds, threshold, i, j)
    ensures Founder(ds, threshold, j) <= i
  {
    FounderFromMeaning(ds, threshold, j, 0);
  }

  /** The failures before `n` whose founder is `f`. */
  function Members(ds: seq<Distance>, threshold: real, f: nat, n: nat): seq<nat>
    requires n <= |ds|
  {
    if n == 0 then []
    else Members(ds, threshold, f, n - 1) + if Founder(ds, threshold, n - 1) == f then [n - 1] else []
  }

  ghost predicate Ascending(m: seq<nat>) {
    forall a, b :: 0 <= a < b < |m| ==> m[a] < m[b]
  }

  lemma {:induction false} MembersMeaning(ds: seq<Distance>, threshold: real, f: nat, n: nat)
    requires n <= |ds|
    ensures forall j :: j in Members(ds, threshold, f, n) <==> 0 <= j < n && Founder(ds, threshold, j) == f
    ensures Ascending(Members(ds, threshold, f, n))
    decreases n
  {
    if n > 0 {
      MembersMeaning(ds, threshold, f, n - 1);
      var m := Members(ds, threshold, f, n - 1);
      forall a | 0 <= a < |m| ensures m[a] < n - 1 { assert m[a] in m; }
      Ascends(m, n - 1);
    }
  }

  lemma {:induction false} Ascends(m: seq<nat>, last: nat)
    requires Ascending(m) && forall a :: 0 <= a < |m| ==> m[a] < last
    ensures Ascending(m + [last])
  {
  }

  /** A founder comes first in its cluster. */
  lemma {:induction false} FounderFirst(ds: seq<Distance>, threshold: real, f: nat, n: nat)
    requires n <= |ds| && f < |ds| && Founds(ds, threshold, f)
    ensures if n <= f then Members(ds, threshold, f, n) == [] else Members(ds, threshold, f, n) != [] && Members(ds, threshold, f, n)[0] == f
    decreases n
  {
    if n > 0 {
      FounderFirst(ds, threshold, f, n - 1);
      FounderMeaning(ds, threshold, n - 1);
    }
  }

  /** The clusters founded before `n`, in the order of their founders. */
  function Founded(ds: seq<Distance>, threshold: real, n: nat): seq<Cluster>
    requires n <= |ds|
  {
    if n == 0 then []
    else Founded(ds, threshold, n - 1) + if Founds(ds, threshold, n - 1) then [Cluster(Members(ds, threshold, n - 1, |ds|))] else []
  }

  // ---- The loops -----------------------------------------------------------------------------------

  /** The failures assigned once the founders before `i` are done. */
  ghost predicate AssignedBefore(ds: seq<Distance>, threshold: real, taken: set<nat>, i: nat) {
    forall j :: j in taken <==> 0 <= j < |ds| && Founder(ds, threshold, j) < i
  }

  /** The same, with the part of cluster `i` found before `n`. */
  ghost predicate AssignedUpTo(ds: seq<Distance>, threshold: real, taken: set<nat>, i: nat, n: nat) {
    forall j :: j in taken <==>
      0 <= j < |ds| && (Founder(ds, threshold, j) < i || (Founder(ds, threshold, j) == i && (j < n || j == i)))
  }

  /** Cluster `i` when the inner loop has come to `j`. */
  function SoFar(ds: seq<Distance>, threshold: real, i: nat, j: nat): seq<nat>
    requires j <= |ds|
  {
    if j <= i then [i] else Members(ds, threshold, i, j)
  }

  lemma {:induction false} Joins(ds: seq<Distance>, threshold: real, taken: set<nat>, i: nat, j: nat)
    requires i < |ds| && j < |ds| && Founds(ds, threshold, i) && AssignedUpTo(ds, threshold, taken, i, j) && j !in taken
    ensures SoFar(ds, threshold, i, j + 1) == SoFar(ds, threshold, i, j) + if Near(ds, threshold, i, j) then [j] else []
    ensures AssignedUpTo(ds, threshold, if Near(ds, threshold, i, j) then taken + {j} else taken, i, j + 1)
  {
    FounderMeaning(ds, threshold, i);
    FounderMeaning(ds, threshold, j);
    if Near(ds, threshold, i, j) { FounderIsEarliest(ds, threshold, i, j); }
  }

  lemma {:induction false} Passes(ds: seq<Distance>, threshold: real, taken: set<nat>, i: nat, j: nat)
    requires i < |ds| && j < |ds| && Founds(ds, threshold, i) && AssignedUpTo(ds, threshold, taken, i, j) && j in taken
    ensures AssignedUpTo(ds, threshold, taken, i, j + 1)
    ensures SoFar(ds, threshold, i, j + 1) == SoFar(ds, threshold, i, j)
  {
    FounderMeaning(ds, threshold, i);
    FounderFirst(ds, threshold, i, i);
  }

  lemma {:induction false} Begins(ds: seq<Distance>, threshold: real, taken: set<nat>, i: nat)
    requires i < |ds| && i !in taken && AssignedBefore(ds, threshold, taken, i)
    ensures Founds(ds, threshold, i) && AssignedUpTo(ds, threshold, taken + {i}, i, 0)
  {
    FounderMeaning(ds, threshold, i);
  }

  lemma {:induction false} FoundsNothing(ds: seq<Distance>, threshold: real, taken: set<nat>, i: nat)
    requires i < |ds| && i in taken && AssignedBefore(ds, threshold, taken, i)
    ensures !Founds(ds, threshold, i) && AssignedBefore(ds, threshold, taken, i + 1)
  {
    FounderMeaning(ds, threshold, i);
    forall j | 0 <= j < |ds| ensures Founder(ds, threshold, j) != i { FounderMeaning(ds, threshold, j); }
  }

  /** The inner loop, for a founder `i`. */
  method Collect(ds: seq<Distance>, threshold: real, i: nat, taken0: set<nat>) returns (cluster: seq<nat>, taken: set<nat>)
    requires i < |ds| && i !in taken0 && AssignedBefore(ds, threshold, taken0, i)
    ensures Founds(ds, threshold, i)
    ensures cluster == Members(ds, threshold, i, |ds|)
    ensures AssignedBefore(ds, threshold, taken, i + 1)
  {
    Begins(ds, threshold, taken0, i);
    cluster, taken := [i], taken0 + {i};
    for j := 0 to |ds|
      invariant cluster == SoFar(ds, threshold, i, j)
      invariant AssignedUpTo(ds, threshold, taken, i, j)
    {
      if j in taken || j == i {
        Passes(ds, threshold, taken, i, j);
        continue;
      }
      Joins(ds, threshold, taken, i, j);
      if Near(ds, threshold, i, j) {
        cluster := cluster + [j];
        taken := taken + {j};
      }
    }
  }

  /** Every failure is founder or member of exactly one cluster, the earliest near one, and the clusters
      come out by size. */
  method ClusterFailures(ds: seq<Distance>, threshold: real) returns (clusters: seq<Cluster>)
    ensures clusters == BySize(Founded(ds, threshold, |ds|))
  {
    clusters := [];
    var taken: set<nat> := {};
    for i := 0 to |ds|
      invariant clusters == Founded(ds, threshold, i)
      invariant AssignedBefore(ds, threshold, taken, i)
    {
      if i in taken {
        FoundsNothing(ds, threshold, taken, i);
        continue;
      }
      var cluster;
      cluster, taken := Collect(ds, threshold, i, taken);
      clusters := clusters + [Cluster(cluster)];
    }
    clusters := BySize(clusters);
  }

  // ---- Sorting by size -----------------------------------------------------------------------------

  /** Behind the clusters that are not smaller. */
  function Insert(sorted: seq<Cluster>, c: Cluster): seq<Cluster> {
    if sorted != [] && |sorted[|sorted| - 1].members| < |c.members| then Insert(sorted[..|sorted| - 1], c) + [sorted[|sorted| - 1]] else sorted + [c]
  }

  /** A stable sort, the largest first. */
  function BySize(clusters: seq<Cluster>): seq<Cluster> {
    if clusters == [] then [] else Insert(BySize(clusters[..|clusters| - 1]), clusters[|clusters| - 1])
  }

  ghost predicate Descending(clusters: seq<Cluster>) {
    forall i, j :: 0 <= i < j < |clusters| ==> |clusters[i].members| >= |clusters[j].members|
  }

  /** The clusters of one size, in order. */
  function OfSize(clusters: seq<Cluster>, size: nat): seq<Cluster> {
    if clusters == [] then []
    else
      var last := clusters[|clusters| - 1];
      OfSize(clusters[..|clusters| - 1], size) + if |last.members| == size then [last] else []
  }

  lemma {:induction false} OfSizeAppend(clusters: seq<Cluster>, c: Cluster, size: nat)
    ensures OfSize(clusters + [c], size) == OfSize(clusters, size) + if |c.members| == size then [c] else []
  {
    assert (clusters + [c])[..|clusters|] == clusters;
  }

  lemma {:induction false} InsertMembers(sorted: seq<Cluster>, c: Cluster)
    ensures forall x :: x in Insert(sorted, c) <==> x == c || x in sorted
  {
    if sorted != [] && |sorted[|sorted| - 1].members| < |c.members| { InsertMembers(sorted[..|sorted| - 1], c); }
  }

  lemma {:induction false} InsertDescends(sorted: seq<Cluster>, c: Cluster)
    requires Descending(sorted)
    ensures Descending(Insert(sorted, c))
  {
    if sorted != [] && |sorted[|sorted| - 1].members| < |c.members| {
      var init, last := sorted[..|sorted| - 1], sorted[|sorted| - 1];
      InsertDescends(init, c);
      InsertMembers(init, c);
      forall i | 0 <= i < |Insert(init, c)| ensures |Insert(init, c)[i].members| >= |last.members| {
        assert Insert(init, c)[i] in Insert(init, c);
      }
    }
  }

  /** Among the clusters of each size the new one comes last. */
  lemma {:induction false} InsertStable(sorted: seq<Cluster>, c: Cluster, size: nat)
    ensures OfSize(Insert(sorted, c), size) == OfSize(sorted, size) + if |c.members| == size then [c] else []
  {
    if sorted != [] && |sorted[|sorted| - 1].members| < |c.members| {
      var init, last := sorted[..|sorted| - 1], sorted[|sorted| - 1];
      InsertStable(init, c, size);
      OfSizeAppend(Insert(init, c), last, size);
    } else {
      OfSizeAppend(sorted, c, size);
    }
  }

  /** The sort puts larger clusters first and leaves those of one size as they were. */
  lemma {:induction false} BySizeMeaning(clusters: seq<Cluster>, size: nat)
    ensures Descending(BySize(clusters))
    ensures OfSize(BySize(clusters), size) == OfSize(clusters, size)
    ensures forall x :: x in BySize(clusters) <==> x in clusters
  {
    if clusters != [] {
      var sorted, last := BySize(clusters[..|clusters| - 1]), clusters[|clusters| - 1];
      BySizeMeaning(clusters[..|clusters| - 1], size);
      InsertMembers(sorted, last);
      InsertDescends(sorted, last);
      InsertStable(sorted, last, size);
    }
  }

  // ---- What the clusters are -----------------------------------------------------------------------

  /** A founder, then failures near it, in order. */
  ghost predicate IsCluster(ds: seq<Distance>, threshold: real, cluster: Cluster) {
    var c := cluster.members;
    && c != [] && (forall a :: 0 <= a < |c| ==> c[a] < |ds|)
    && Ascending(c)
    && (forall a :: 0 < a < |c| ==> Near(ds, threshold, c[0], c[a]))
  }

  /** No failure in common, and founders that are not near each other. */
  ghost predicate Apart(ds: seq<Distance>, threshold: real, c: Cluster, d: Cluster) {
    && (forall x :: x in c.members ==> x !in d.members)
    && (c.members != [] && d.members != [] && c.members[0] < |ds| && d.members[0] < |ds| ==> !Near(ds, threshold, c.members[0], d.members[0]))
  }

  ghost predicate PairwiseApart(ds: seq<Distance>, threshold: real, clusters: seq<Cluster>) {
    forall i, j :: 0 <= i < j < |clusters| ==> Apart(ds, threshold, clusters[i], clusters[j])
  }

  lemma {:induction false} ApartBothWays(ds: seq<Distance>, threshold: real, c: Cluster, d: Cluster)
    requires Apart(ds, threshold, c, d)
    ensures Apart(ds, threshold, d, c)
  {
  }

  lemma {:induction false} MembersAreCluster(ds: seq<Distance>, threshold: real, f: nat)
    requires f < |ds| && Founds(ds, threshold, f)
    ensures IsCluster(ds, threshold, Cluster(Members(ds, threshold, f, |ds|))) && Members(ds, threshold, f, |ds|)[0] == f
  {
    var c := Members(ds, threshold, f, |ds|);
    MembersMeaning(ds, threshold, f, |ds|);
    FounderFirst(ds, threshold, f, |ds|);
    forall a | 0 <= a < |c| ensures c[a] < |ds| && Founder(ds, threshold, c[a]) == f && (a > 0 ==> Near(ds, threshold, f, c[a])) {
      assert c[a] in c;
      FounderMeaning(ds, threshold, c[a]);
    }
  }

  lemma {:induction false} ClustersApart(ds: seq<Distance>, threshold: real, f: nat, g: nat)
    requires f < g < |ds| && Founds(ds, threshold, f) && Founds(ds, threshold, g)
    ensures Apart(ds, threshold, Cluster(Members(ds, threshold, f, |ds|)), Cluster(Members(ds, threshold, g, |ds|)))
  {
    MembersMeaning(ds, threshold, f, |ds|);
    MembersMeaning(ds, threshold, g, |ds|);
    FounderFirst(ds, threshold, f, |ds|);
    FounderFirst(ds, threshold, g, |ds|);
  }

  lemma {:induction false} FoundedBy(ds: seq<Distance>, threshold: real, n: nat, c: Cluster) returns (f: nat)
    requires n <= |ds| && c in Founded(ds, threshold, n)
    ensures f < n && Founds(ds, threshold, f) && c == Cluster(Members(ds, threshold, f, |ds|))
    decreases n
  {
    f := n - 1;
    if c in Founded(ds, threshold, n - 1) { f := FoundedBy(ds, threshold, n - 1, c); }
  }

  lemma {:induction false} FoundsItsCluster(ds: seq<Distance>, threshold: real, n: nat, f: nat)
    requires f < n <= |ds| && Founds(ds, threshold, f)
    ensures Cluster(Members(ds, threshold, f, |ds|)) in Founded(ds, threshold, n)
    decreases n
  {
    if f < n - 1 { FoundsItsCluster(ds, threshold, n - 1, f); }
  }

  lemma {:induction false} FoundedApart(ds: seq<Distance>, threshold: real, n: nat)
    requires n <= |ds|
    ensures PairwiseApart(ds, threshold, Founded(ds, threshold, n))
    decreases n
  {
    if n > 0 {
      FoundedApart(ds, threshold, n - 1);
      if Founds(ds, threshold, n - 1) {
        var before := Founded(ds, threshold, n - 1);
        forall i | 0 <= i < |before| ensures Apart(ds, threshold, before[i], Cluster(Members(ds, threshold, n - 1, |ds|))) {
          assert before[i] in before;
          var f := FoundedBy(ds, threshold, n - 1, before[i]);
          ClustersApart(ds, threshold, f, n - 1);
        }
      }
    }
  }

  lemma {:induction false} InsertApart(ds: seq<Distance>, threshold: real, sorted: seq<Cluster>, c: Cluster)
    requires PairwiseApart(ds, threshold, sorted) && forall i :: 0 <= i < |sorted| ==> Apart(ds, threshold, sorted[i], c)
    ensures PairwiseApart(ds, threshold, Insert(sorted, c))
    ensures forall x :: x in Insert(sorted, c) <==> x == c || x in sorted
    decreases |sorted|
  {
    if sorted != [] && |sorted[|sorted| - 1].members| < |c.members| {
      var init, last := sorted[..|sorted| - 1], sorted[|sorted| - 1];
      InsertApart(ds, threshold, init, c);
      ApartBothWays(ds, threshold, last, c);
      forall i | 0 <= i < |Insert(init, c)| ensures Apart(ds, threshold, Insert(init, c)[i], last) {
        assert Insert(init, c)[i] in Insert(init, c);
        if Insert(init, c)[i] != c { var k :| 0 <= k < |init| && init[k] == Insert(init, c)[i]; }
      }
    }
  }

  lemma {:induction false} SortedApart(ds: seq<Distance>, threshold: real, clusters: seq<Cluster>)
    requires PairwiseApart(ds, threshold, clusters)
    ensures PairwiseApart(ds, threshold, BySize(clusters))
  {
    if clusters != [] {
      var init, last := clusters[..|clusters| - 1], clusters[|clusters| - 1];
      SortedApart(ds, threshold, init);
      BySizeMeaning(init, 0);
      forall i | 0 <= i < |BySize(init)| ensures Apart(ds, threshold, BySize(init)[i], last) {
        assert BySize(init)[i] in BySize(init);
        var k :| 0 <= k < |init| && init[k] == BySize(init)[i];
      }
      InsertApart(ds, threshold, BySize(init), last);
    }
  }

  /** The clusters partition the failures: each lies in one, together with its founder. Founders of
      different clusters are not near each other; the members of a cluster are near its founder. */
  lemma {:induction false} ClustersPartition(ds: seq<Distance>, threshold: real)
    ensures var clusters := BySize(Founded(ds, threshold, |ds|));
            && (forall c :: c in clusters ==> IsCluster(ds, threshold, c))
            && PairwiseApart(ds, threshold, clusters) && Descending(clusters)
            && (forall j :: 0 <= j < |ds| ==> Cluster(Members(ds, threshold, Founder(ds, threshold, j), |ds|)) in clusters)
            && (forall j :: 0 <= j < |ds| ==> j in Members(ds, threshold, Founder(ds, threshold, j), |ds|))
  {
    var founded := Founded(ds, threshold, |ds|);
    var clusters := BySize(founded);
    FoundedApart(ds, threshold, |ds|);
    SortedApart(ds, threshold, founded);
    BySizeMeaning(founded, 0);
    forall c | c in clusters ensures IsCluster(ds, threshold, c) {
      var f := FoundedBy(ds, threshold, |ds|, c);
      MembersAreCluster(ds, threshold, f);
    }
    forall j | 0 <= j < |ds| ensures Cluster(Members(ds, threshold, Founder(ds, threshold, j), |ds|)) in clusters
                                     && j in Members(ds, threshold, Founder(ds, threshold, j), |ds|)
    {
      FounderMeaning(ds, threshold, j);
      FoundsItsCluster(ds, threshold, |ds|, Founder(ds, threshold, j));
      MembersMeaning(ds, threshold, Founder(ds, threshold, j), |ds|);
    }
  }
}
