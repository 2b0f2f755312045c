/** Sums over finite maps: adding up per-owner counts, per-event balances and per-payment amounts. */
module MapSums {

  ghost function Sum<K(!new)>(m: map<K, int>): int {
    if m == map[] then 0
    else
      var k :| k in m;
      m[k] + Sum(m - {k})
  }

  /** The sum does not depend on the order of the keys. */
  lemma {:induction false} SumTake<K(!new)>(m: map<K, int>, k: K)
    requires k in m
    ensures Sum(m) == m[k] + Sum(m - {k})
    decreases |m|
  {
    var c :| c in m && Sum(m) == m[c] + Sum(m - {c});
    if c != k {
      assert |m - {c}| < |m| by { assert (m - {c}).Keys == m.Keys - {c}; }
      assert |m - {k}| < |m| by { assert (m - {k}).Keys == m.Keys - {k}; }
      SumTake(m - {c}, k);
      SumTake(m - {k}, c);
      assert m - {c} - {k} == m - {k} - {c};
    }
  }

  function At<K>(m: map<K, int>, k: K): int {
    if k in m then m[k] else 0
  }

  /** Overwriting one entry changes the sum by the difference. */
  lemma SumUpdate<K(!new)>(m: map<K, int>, k: K, v: int)
    ensures Sum(m[k := v]) == Sum(m) - At(m, k) + v
  {
    var n := m[k := v];
    SumTake(n, k);
    if k in m {
      SumTake(m, k);
      assert n - {k} == m - {k};
    } else {
      assert n - {k} == m;
    }
  }

  lemma SizeAdded<K, V>(m: map<K, V>, k: K, v: V)
    requires k !in m
    ensures |m[k := v]| == |m| + 1
  {
    assert m[k := v].Keys == m.Keys + {k};
    assert |m[k := v].Keys| == |m.Keys| + 1;
  }

  lemma SizeRemoved<K, V>(m: map<K, V>, n: map<K, V>, k: K)
    requires k in m && n.Keys == m.Keys - {k}
    ensures |n| == |m| - 1
  {
    assert |n.Keys| == |m.Keys| - 1;
  }

  /** A sum of non-negative entries is non-negative and bounds each of them. */
  lemma {:induction false} SumNonNegative<K(!new)>(m: map<K, int>)
    requires forall k :: k in m ==> m[k] >= 0
    ensures Sum(m) >= 0
    decreases |m|
  {
    if m != map[] {
      var k :| k in m && Sum(m) == m[k] + Sum(m - {k});
      assert |m - {k}| < |m| by { assert (m - {k}).Keys == m.Keys - {k}; }
      SumNonNegative(m - {k});
    }
  }

  lemma SumBounds<K(!new)>(m: map<K, int>, k: K)
    requires (forall j :: j in m ==> m[j] >= 0) && k in m
    ensures Sum(m) >= m[k] >= 0
  {
    SumTake(m, k);
    SumNonNegative(m - {k});
  }

  /** A difference taken entry by entry. */
  lemma {:induction false} SumDifference<K(!new)>(c: map<K, int>, a: map<K, int>, f: map<K, int>)
    requires c.Keys == a.Keys == f.Keys && forall i :: i in c ==> c[i] == a[i] - f[i]
    ensures Sum(c) == Sum(a) - Sum(f)
    decreases |c|
  {
    if c != map[] {
      var k :| k in c;
      SumTake(c, k);
      SumTake(a, k);
      SumTake(f, k);
      assert |c - {k}| < |c| by { assert (c - {k}).Keys == c.Keys - {k}; }
      SumDifference(c - {k}, a - {k}, f - {k});
    } else {
      assert a == map[] && f == map[];
    }
  }
}
