/** Sums over the values of a map, and cancellation in sums of multisets. */
module Sums {

  ghost function SumValues<K>(m: map<K, nat>): nat
    decreases |m|
  {
    if m == map[] then 0
    else
      var k :| k in m;
      assert |m - {k}| < |m| by { assert (m - {k}).Keys == m.Keys - {k}; }
      m[k] + SumValues(m - {k})
  }

  lemma {:induction false} SumRemove<K>(m: map<K, nat>, k: K)
    requires k in m
    ensures SumValues(m) == m[k] + SumValues(m - {k})
    decreases |m|
  {
    var j :| j in m && SumValues(m) == m[j] + SumValues(m - {j});
    if j != k {
      assert (m - {j}).Keys == m.Keys - {j};
      SumRemove(m - {j}, k);
      SumRemove2(m, j, k);
    }
  }

  lemma {:induction false} SumRemove2<K>(m: map<K, nat>, j: K, k: K)
    requires j in m && k in m && j != k
    ensures m[k] + SumValues(m - {j} - {k}) + m[j] == m[k] + SumValues(m - {k})
    decreases |m|, 0
  {
    assert (m - {k}).Keys == m.Keys - {k};
    assert m - {j} - {k} == m - {k} - {j};
    SumRemove(m - {k}, j);
  }

  lemma SumAdd<K>(m: map<K, nat>, k: K, v: nat)
    requires k !in m
    ensures SumValues(m[k := v]) == SumValues(m) + v
  {
    SumRemove(m[k := v], k);
    assert m[k := v] - {k} == m;
  }

  lemma SumUpdate<K>(m: map<K, nat>, k: K, v: nat)
    requires k in m
    ensures SumValues(m[k := v]) + m[k] == SumValues(m) + v
  {
    SumRemove(m, k);
    SumRemove(m[k := v], k);
    assert m[k := v] - {k} == m - {k};
  }

  lemma Cancel<T>(a: multiset<T>, b: multiset<T>, m: multiset<T>)
    requires a + m == b + m
    ensures a == b
  {
    forall y ensures a[y] == b[y] {
      assert (a + m)[y] == (b + m)[y];
    }
  }
}
