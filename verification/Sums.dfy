/** Sums over the values of a finite map. */
module Sums {
  ghost function Total<K(!new)>(m: map<K, int>): int {
    if m == map[] then 0
    else
      var k :| k in m;
      m[k] + Total(m - {k})
  }

  /** The sum does not depend on the order in which keys are taken. */
  lemma {:induction false} TotalTake<K(!new)>(m: map<K, int>, k: K)
    requires k in m
    ensures Total(m) == m[k] + Total(m - {k})
    decreases |m|
  {
    var j :| j in m && Total(m) == m[j] + Total(m - {j});
    if j != k {
      var n := m - {j};
      TotalTake(n, k);
      assert n - {k} == (m - {k}) - {j};
      TotalTake(m - {k}, j);
    }
  }

  lemma TotalPut<K(!new)>(m: map<K, int>, k: K, v: int)
    ensures Total(m[k := v]) == Total(m) + v - (if k in m then m[k] else 0)
  {
    TotalTake(m[k := v], k);
    assert m[k := v] - {k} == m - {k};
    if k in m {
      TotalTake(m, k);
    } else {
      assert m - {k} == m;
    }
  }

  lemma {:induction false} TotalNonNegative<K(!new)>(m: map<K, int>)
    requires forall k :: k in m ==> 0 <= m[k]
    ensures 0 <= Total(m)
    decreases |m|
  {
    if m != map[] {
      var k :| k in m && Total(m) == m[k] + Total(m - {k});
      TotalNonNegative(m - {k});
    }
  }
}
