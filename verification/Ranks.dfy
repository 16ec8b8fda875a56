/** Fractional ranks with ties averaged, refined from a counting definition. */
module Ranks {
  import opened Sorting

  // ---- The counting definition ----

  /** Positions below `m` holding a smaller value. */
  ghost function Below(v: seq<real>, x: real, m: nat): set<nat>
    requires m <= |v|
  {
    set k: nat | k < m && v[k] < x
  }

  ghost function Tied(v: seq<real>, x: real, m: nat): set<nat>
    requires m <= |v|
  {
    set k: nat | k < m && v[k] == x
  }

  /** Number smaller, plus half of one more than the number equal. */
  ghost function FractionalRank(v: seq<real>, x: real): real {
    |Below(v, x, |v|)| as real + (|Tied(v, x, |v|)| + 1) as real / 2.0
  }

  ghost predicate AreRanks(v: seq<real>, ranks: seq<real>) {
    |ranks| == |v| && forall k :: 0 <= k < |v| ==> ranks[k] == FractionalRank(v, v[k])
  }

  // ---- What the sort hands to the rank loop ----

  ghost predicate Permutation(idx: seq<nat>, n: nat) {
    && |idx| == n
    && (forall p :: 0 <= p < n ==> idx[p] < n)
    && forall p, q :: 0 <= p < q < n ==> idx[p] != idx[q]
  }

  /** `idx` lists every position once, values ascending; ties in any order. */
  ghost predicate SortedIndex(v: seq<real>, idx: seq<nat>) {
    && Permutation(idx, |v|)
    && forall p, q :: 0 <= p < q < |v| ==> v[idx[p]] <= v[idx[q]]
  }

  ghost function Picked(idx: seq<nat>, i: nat, j: nat): set<nat>
    requires i <= j <= |idx|
  {
    set p | i <= p < j :: idx[p]
  }

  lemma {:induction false} PickedCount(idx: seq<nat>, n: nat, i: nat, j: nat)
    requires Permutation(idx, n) && i <= j <= n
    ensures |Picked(idx, i, j)| == j - i
    decreases j
  {
    if i < j {
      PickedCount(idx, n, i, j - 1);
      assert Picked(idx, i, j) == Picked(idx, i, j - 1) + {idx[j - 1]};
    } else {
      assert Picked(idx, i, j) == {};
    }
  }

  ghost function UpTo(n: nat): (s: set<nat>)
    ensures |s| == n && forall k: nat :: k in s <==> k < n
  {
    if n == 0 then {} else UpTo(n - 1) + {n - 1}
  }

  lemma SubsetOfSameSize(a: set<nat>, b: set<nat>)
    requires a <= b && |a| == |b|
    ensures a == b
  {
    assert |b - a| == |b| - |a|;
    assert b - a == {};
  }

  /** Distinct positions, as many as there are, are all of them. */
  lemma PermutationHasAll(idx: seq<nat>, n: nat, k: nat)
    requires Permutation(idx, n) && k < n
    ensures exists p :: 0 <= p < n && idx[p] == k
  {
    PickedCount(idx, n, 0, n);
    SubsetOfSameSize(Picked(idx, 0, n), UpTo(n));
    assert k in Picked(idx, 0, n);
  }

  /** A maximal tie block of the sorted index sits exactly at the counted rank. */
  lemma BlockIsRank(v: seq<real>, idx: seq<nat>, i: nat, j: nat)
    requires SortedIndex(v, idx) && i < j <= |v|
    requires forall p :: 0 <= p < i ==> v[idx[p]] < v[idx[i]]
    requires forall p :: i <= p < j ==> v[idx[p]] == v[idx[i]]
    requires j < |v| ==> v[idx[j]] != v[idx[i]]
    ensures FractionalRank(v, v[idx[i]]) == (i + 1 + j) as real / 2.0
  {
    var n, x := |v|, v[idx[i]];
    forall k: nat | k < n
      ensures v[k] < x <==> k in Picked(idx, 0, i)
      ensures v[k] == x <==> k in Picked(idx, i, j)
    {
      PermutationHasAll(idx, n, k);
      var p :| 0 <= p < n && idx[p] == k;
      assert p >= j ==> v[idx[j]] <= v[idx[p]];
    }
    assert Below(v, x, n) == Picked(idx, 0, i);
    assert Tied(v, x, n) == Picked(idx, i, j);
    PickedCount(idx, n, 0, i);
    PickedCount(idx, n, i, j);
  }

  /** The rank loop, over whatever order the sort left ties in. */
  method AverageTies(v: seq<real>, idx: seq<nat>) returns (ranks: seq<real>)
    requires SortedIndex(v, idx)
    ensures AreRanks(v, ranks)
  {
    var n := |v|;
    ranks := seq(n, _ => 0.0);
    var i := 0;
    while i < n
      invariant 0 <= i <= n && |ranks| == n
      invariant forall p :: 0 <= p < i ==> ranks[idx[p]] == FractionalRank(v, v[idx[p]])
      invariant forall p :: 0 <= p < i < n ==> v[idx[p]] < v[idx[i]]
    {
      var j := i + 1;
      while j < n && v[idx[j]] == v[idx[i]]
        invariant i < j <= n
        invariant forall p :: i <= p < j ==> v[idx[p]] == v[idx[i]]
      {
        j := j + 1;
      }
      var average := (i + 1 + j) as real / 2.0;
      BlockIsRank(v, idx, i, j);
      var k := i;
      while k < j
        invariant i <= k <= j && |ranks| == n
        invariant forall p :: 0 <= p < k ==> ranks[idx[p]] == FractionalRank(v, v[idx[p]])
      {
        ranks := ranks[idx[k] := average];
        k := k + 1;
      }
      i := j;
    }
    forall k | 0 <= k < n ensures ranks[k] == FractionalRank(v, v[k]) {
      PermutationHasAll(idx, n, k);
    }
  }

  // ---- The sort ----

  function Key(v: seq<real>, k: nat): real { if k < |v| then v[k] else 0.0 }

  function Indices(n: nat): (s: seq<nat>)
    ensures Permutation(s, n)
    ensures forall x :: multiset(s)[x] <= 1
  {
    if n == 0 then [] else
      var s := Indices(n - 1);
      assert n - 1 !in multiset(s);
      s + [n - 1]
  }

  lemma ShuffledIsPermutation(s: seq<nat>, t: seq<nat>, n: nat)
    requires Permutation(s, n) && multiset(s) == multiset(t) && |s| == |t|
    requires forall x :: multiset(s)[x] <= 1
    ensures Permutation(t, n)
  {
    SameElements(s, t);
    forall p | 0 <= p < n ensures t[p] < n {
      assert t[p] in s;
    }
    forall p, q | 0 <= p < q < n ensures t[p] != t[q] {
      assert t == t[..q] + t[q..];
      assert multiset(t) == multiset(t[..q]) + multiset(t[q..]);
      assert t[..q][p] == t[p] && t[q..][0] == t[q];
      assert t[p] in multiset(t[..q]) && t[q] in multiset(t[q..]);
      assert t[p] == t[q] ==> multiset(s)[t[p]] >= 2;
    }
  }

  method Rank(v: seq<real>) returns (ranks: seq<real>)
    ensures AreRanks(v, ranks)
  {
    var le := (a: nat, b: nat) => Key(v, a) <= Key(v, b);
    var idx := StableSort(Indices(|v|), le);
    SortIsSorted(Indices(|v|), le);
    ShuffledIsPermutation(Indices(|v|), idx, |v|);
    forall p, q | 0 <= p < q < |v| ensures v[idx[p]] <= v[idx[q]] {
      assert le(idx[p], idx[q]);
    }
    ranks := AverageTies(v, idx);
  }

  // ---- What ranks are for ----

  lemma RankFollowsValue(v: seq<real>, a: nat, b: nat)
    requires a < |v| && b < |v| && v[a] < v[b]
    ensures FractionalRank(v, v[a]) < FractionalRank(v, v[b])
  {
    var n := |v|;
    var below, tied := Below(v, v[a], n), Tied(v, v[a], n);
    assert below + tied <= Below(v, v[b], n);
    SubsetIsNoLarger(below + tied, Below(v, v[b], n));
    assert |below + tied| == |below| + |tied|;
    assert a in tied && b in Tied(v, v[b], n);
  }

  lemma SubsetIsNoLarger(a: set<nat>, b: set<nat>)
    requires a <= b
    ensures |a| <= |b|
  {
    assert |b - a| == |b| - |a|;
  }

  /** Ranks carry the order of the values and nothing else of them. */
  lemma SameRanksIff(v: seq<real>, w: seq<real>, r: seq<real>, s: seq<real>)
    requires |v| == |w| && AreRanks(v, r) && AreRanks(w, s)
    ensures r == s <==> forall a, b :: 0 <= a < |v| && 0 <= b < |v| ==> (v[a] < v[b] <==> w[a] < w[b])
  {
    if r == s {
      forall a, b | 0 <= a < |v| && 0 <= b < |v| ensures v[a] < v[b] <==> w[a] < w[b] {
        OrderFromRanks(v, r, a, b);
        OrderFromRanks(w, s, a, b);
      }
    }
    if forall a, b :: 0 <= a < |v| && 0 <= b < |v| ==> (v[a] < v[b] <==> w[a] < w[b]) {
      forall k | 0 <= k < |v| ensures r[k] == s[k] {
        assert Below(v, v[k], |v|) == Below(w, w[k], |v|);
        forall j: nat | j < |v| ensures v[j] == v[k] <==> w[j] == w[k] {
          assert v[j] == v[k] <==> !(v[j] < v[k]) && !(v[k] < v[j]);
        }
        assert Tied(v, v[k], |v|) == Tied(w, w[k], |v|);
      }
    }
  }

  lemma OrderFromRanks(v: seq<real>, r: seq<real>, a: nat, b: nat)
    requires AreRanks(v, r) && a < |v| && b < |v|
    ensures v[a] < v[b] <==> r[a] < r[b]
  {
    if v[a] < v[b] {
      RankFollowsValue(v, a, b);
    } else if v[b] < v[a] {
      RankFollowsValue(v, b, a);
    }
  }

  // ---- The ranks share out n(n+1)/2 ----

  function Sum(s: seq<real>, n: nat): real
    requires n <= |s|
  {
    if n == 0 then 0.0 else Sum(s, n - 1) + s[n - 1]
  }

  /** What `a` adds to the rank of `b`: of any two, the pair shares one point. */
  function Point(a: real, b: real): real { if a < b then 1.0 else if a == b then 0.5 else 0.0 }

  function Points(v: seq<real>, x: real, m: nat): real
    requires m <= |v|
  {
    if m == 0 then 0.0 else Points(v, x, m - 1) + Point(v[m - 1], x)
  }

  lemma {:induction false} PointsCount(v: seq<real>, x: real, m: nat)
    requires m <= |v|
    ensures Points(v, x, m) == |Below(v, x, m)| as real + |Tied(v, x, m)| as real / 2.0
  {
    if m == 0 {
      assert Below(v, x, 0) == {} && Tied(v, x, 0) == {};
    } else {
      PointsCount(v, x, m - 1);
      OneMoreBelow(v, x, m - 1);
      OneMoreTied(v, x, m - 1);
    }
  }

  lemma OneMoreBelow(v: seq<real>, x: real, m: nat)
    requires m < |v|
    ensures |Below(v, x, m + 1)| == |Below(v, x, m)| + if v[m] < x then 1 else 0
  {
    assert Below(v, x, m + 1) == Below(v, x, m) + if v[m] < x then {m} else {};
  }

  lemma OneMoreTied(v: seq<real>, x: real, m: nat)
    requires m < |v|
    ensures |Tied(v, x, m + 1)| == |Tied(v, x, m)| + if v[m] == x then 1 else 0
  {
    assert Tied(v, x, m + 1) == Tied(v, x, m) + if v[m] == x then {m} else {};
  }

  /** Points of the first `k` values against the first `m`. */
  function Shared(v: seq<real>, k: nat, m: nat): real
    requires k <= |v| && m <= |v|
  {
    if k == 0 then 0.0 else Shared(v, k - 1, m) + Points(v, v[k - 1], m)
  }

  lemma {:induction false} OneMoreValue(v: seq<real>, k: nat, m: nat)
    requires k <= m < |v|
    ensures Shared(v, k, m + 1) + Points(v, v[m], k) == Shared(v, k, m) + k as real
  {
    if k > 0 {
      OneMoreValue(v, k - 1, m);
      assert Point(v[m], v[k - 1]) + Point(v[k - 1], v[m]) == 1.0;
    }
  }

  function Triangle(n: nat): (t: real)
    ensures t == n as real * (n as real + 1.0) / 2.0
  {
    if n == 0 then 0.0
    else
      NextTriangle((n - 1) as real);
      Triangle(n - 1) + n as real
  }

  lemma NextTriangle(k: real)
    ensures k * (k + 1.0) / 2.0 + (k + 1.0) == (k + 1.0) * ((k + 1.0) + 1.0) / 2.0
  {
  }

  lemma {:induction false} SharedTotal(v: seq<real>, m: nat)
    requires m <= |v|
    ensures Shared(v, m, m) == Triangle(m) - m as real / 2.0
  {
    if m > 0 {
      SharedTotal(v, m - 1);
      OneMoreValue(v, m - 1, m - 1);
    }
  }

  lemma {:induction false} RanksAreShares(v: seq<real>, ranks: seq<real>, k: nat)
    requires AreRanks(v, ranks) && k <= |v|
    ensures Sum(ranks, k) == Shared(v, k, |v|) + k as real / 2.0
  {
    if k > 0 {
      RanksAreShares(v, ranks, k - 1);
      PointsCount(v, v[k - 1], |v|);
    }
  }

  /** However the values tie, their ranks sum to 1 + 2 + ... + n. */
  lemma RanksSum(v: seq<real>, ranks: seq<real>)
    requires AreRanks(v, ranks)
    ensures Sum(ranks, |v|) == Triangle(|v|)
  {
    RanksAreShares(v, ranks, |v|);
    SharedTotal(v, |v|);
  }
}
