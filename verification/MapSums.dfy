/** Totals over finite maps, and how one changed entry changes them. */
module MapSums {

  ghost function Total<K>(m: map<K, int>): int
    decreases |m|
  {
    if m == map[] then 0
    else
      var k :| k in m;
      m[k] + Total(m - {k})
  }

  lemma {:induction false} TotalOfRemoved<K>(m: map<K, int>, k: K)
    requires k in m
    ensures Total(m) == m[k] + Total(m - {k})
    decreases |m|
  {
    var l :| l in m && Total(m) == m[l] + Total(m - {l});
    if l != k {
      TotalOfRemoved(m - {l}, k);
      TotalOfRemoved(m - {k}, l);
      assert m - {l} - {k} == m - {k} - {l};
    }
  }

  lemma TotalOfUpdated<K>(m: map<K, int>, k: K, v: int)
    ensures Total(m[k := v]) == Total(m) + v - if k in m then m[k] else 0
  {
    TotalOfRemoved(m[k := v], k);
    if k in m {
      TotalOfRemoved(m, k);
      assert m[k := v] - {k} == m - {k};
    } else {
      assert m[k := v] - {k} == m;
    }
  }
}
