/** Sums over finite maps. */
module Sums {

  ghost function Total<K(!new)>(m: map<K, nat>): nat
    decreases |m|
  {
    if m == map[] then 0
    else
      var k :| k in m;
      m[k] + Total(m - {k})
  }

  function Get<K>(m: map<K, nat>, k: K): nat {
    if k in m then m[k] else 0
  }

  /** Any key may be taken out first. */
  lemma {:induction false} TotalDrop<K(!new)>(m: map<K, nat>, k: K)
    ensures Total(m) == Get(m, k) + Total(m - {k})
    decreases |m|
  {
    if k !in m {
      assert m - {k} == m;
    } else {
      var j :| j in m && Total(m) == m[j] + Total(m - {j});
      if j != k {
        TotalDrop(m - {j}, k);
        assert m - {j} - {k} == m - {k} - {j};
        TotalDrop(m - {k}, j);
      }
    }
  }

  lemma TotalPut<K(!new)>(m: map<K, nat>, k: K, v: nat)
    ensures Total(m[k := v]) + Get(m, k) == Total(m) + v
  {
    TotalDrop(m, k);
    TotalDrop(m[k := v], k);
    assert m[k := v] - {k} == m - {k};
  }

  lemma TotalAtLeast<K(!new)>(m: map<K, nat>, k: K)
    ensures Get(m, k) <= Total(m)
  {
    TotalDrop(m, k);
  }

  lemma MapSizePut<K, V>(m: map<K, V>, k: K, v: V)
    requires k !in m
    ensures |m[k := v]| == |m| + 1
  {
    assert m[k := v].Keys == m.Keys + {k};
  }

  lemma MapSizeDrop<K, V>(m: map<K, V>, k: K)
    ensures |m - {k}| == if k in m then |m| - 1 else |m|
  {
    assert (m - {k}).Keys == m.Keys - {k};
  }
}
