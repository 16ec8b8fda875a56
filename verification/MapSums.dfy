/** Sums over the values of a map, in whatever order the map is walked. */
module MapSums {

  ghost function Sum<K, V>(m: map<K, V>, f: V -> real): real
    decreases |m|
  {
    if m == map[] then 0.0
    else
      var k :| k in m;
      assert |m - {k}| < |m| by { Smaller(m, k); }
      f(m[k]) + Sum(m - {k}, f)
  }

  lemma Smaller<K, V>(m: map<K, V>, k: K)
    requires k in m
    ensures |m - {k}| == |m| - 1
  {
  }

  lemma {:induction false} SumPick<K, V>(m: map<K, V>, f: V -> real, k: K)
    requires k in m
    ensures Sum(m, f) == f(m[k]) + Sum(m - {k}, f)
    decreases |m|
  {
    var j :| j in m && Sum(m, f) == f(m[j]) + Sum(m - {j}, f);
    if j != k {
      Smaller(m, j);
      Smaller(m, k);
      SumPick(m - {j}, f, k);
      SumPick(m - {k}, f, j);
      assert m - {j} - {k} == m - {k} - {j};
    }
  }

  lemma SumUpdate<K, V>(m: map<K, V>, f: V -> real, k: K, v: V)
    ensures Sum(m[k := v], f) == Sum(m, f) + f(v) - (if k in m then f(m[k]) else 0.0)
  {
    SumPick(m[k := v], f, k);
    if k in m {
      SumPick(m, f, k);
      assert m[k := v] - {k} == m - {k};
    } else {
      assert m[k := v] - {k} == m;
    }
  }

  lemma SumRemove<K, V>(m: map<K, V>, f: V -> real, k: K)
    ensures Sum(m - {k}, f) == Sum(m, f) - (if k in m then f(m[k]) else 0.0)
  {
    if k in m {
      SumPick(m, f, k);
    } else {
      assert m - {k} == m;
    }
  }

  /** Sums add up pointwise. */
  lemma {:induction false} SumAdds<K, V>(m: map<K, V>, f: V -> real, g: V -> real, h: V -> real)
    requires forall k :: k in m ==> h(m[k]) == f(m[k]) + g(m[k])
    ensures Sum(m, h) == Sum(m, f) + Sum(m, g)
    decreases |m|
  {
    if m != map[] {
      var k :| k in m;
      SumPick(m, f, k);
      SumPick(m, g, k);
      SumPick(m, h, k);
      Smaller(m, k);
      SumAdds(m - {k}, f, g, h);
    }
  }

  /** Two summands that agree everywhere but at `k`. */
  lemma SumDiffersAt<K, V>(m: map<K, V>, f: V -> real, g: V -> real, k: K)
    requires forall j :: j in m && j != k ==> f(m[j]) == g(m[j])
    ensures Sum(m, f) == Sum(m, g) + (if k in m then f(m[k]) - g(m[k]) else 0.0)
  {
  }

  lemma {:induction false} SumSame<K, V>(m: map<K, V>, f: V -> real, g: V -> real)
    requires forall k :: k in m ==> f(m[k]) == g(m[k])
    ensures Sum(m, f) == Sum(m, g)
    decreases |m|
  {
    if m != map[] {
      var k :| k in m;
      SumPick(m, f, k);
      SumPick(m, g, k);
      Smaller(m, k);
      SumSame(m - {k}, f, g);
    }
  }

  ghost function Restrict<K, V>(m: map<K, V>, keys: set<K>): map<K, V> {
    map k | k in keys && k in m :: m[k]
  }

  lemma RestrictPick<K, V>(m: map<K, V>, keys: set<K>, k: K, f: V -> real)
    requires k in keys && k in m
    ensures Sum(Restrict(m, keys), f) == f(m[k]) + Sum(Restrict(m, keys - {k}), f)
  {
    SumPick(Restrict(m, keys), f, k);
    assert Restrict(m, keys) - {k} == Restrict(m, keys - {k});
  }

  /** Two maps whose values weigh the same key by key. */
  lemma {:induction false} SumSameWeights<K, V>(m: map<K, V>, n: map<K, V>, f: V -> real)
    requires m.Keys == n.Keys && forall k :: k in m ==> f(m[k]) == f(n[k])
    ensures Sum(m, f) == Sum(n, f)
    decreases |m|
  {
    if m == map[] {
      assert n == map[];
    } else {
      var k :| k in m;
      SumPick(m, f, k);
      SumPick(n, f, k);
      Smaller(m, k);
      SumSameWeights(m - {k}, n - {k}, f);
    }
  }

  lemma {:induction false} SumOfZeros<K, V>(m: map<K, V>, f: V -> real)
    requires forall k :: k in m ==> f(m[k]) == 0.0
    ensures Sum(m, f) == 0.0
    decreases |m|
  {
    if m != map[] {
      var k :| k in m;
      SumPick(m, f, k);
      Smaller(m, k);
      SumOfZeros(m - {k}, f);
    }
  }
}
