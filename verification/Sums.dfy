// Sums over the values of a finite map: what a ledger's rows, or the states of
// many signers, add up to.
module Sums {
  // The value at k, or 0 for an absent row (COALESCE(..., 0) in the queries).
  function Get<K(==)>(m: map<K, int>, k: K): int {
    if k in m then m[k] else 0
  }

  // m with d added at k, creating the row.
  function Add<K(==)>(m: map<K, int>, k: K, d: int): map<K, int> {
    m[k := Get(m, k) + d]
  }

  lemma GetAdded<K>(m: map<K, int>, k: K, d: int)
    ensures Get(Add(m, k, d), k) == Get(m, k) + d
  {
  }

  ghost function Sum<K>(m: map<K, int>): int {
    if m == map[] then 0
    else
      var k :| k in m;
      m[k] + Sum(m - {k})
  }

  lemma {:induction false} SumRemove<K>(m: map<K, int>, k: K)
    requires k in m
    ensures Sum(m) == m[k] + Sum(m - {k})
    decreases |m|
  {
    var j :| j in m && Sum(m) == m[j] + Sum(m - {j});
    if j != k {
      SumRemove(m - {j}, k);
      SumRemove(m - {k}, j);
      assert m - {j} - {k} == m - {k} - {j};
    }
  }

  lemma SumUpdate<K>(m: map<K, int>, k: K, v: int)
    ensures Sum(m[k := v]) == Sum(m) - Get(m, k) + v
  {
    SumRemove(m[k := v], k);
    assert m[k := v] - {k} == m - {k};
    if k in m {
      SumRemove(m, k);
    } else {
      assert m - {k} == m;
    }
  }

  lemma SumAdd<K>(m: map<K, int>, k: K, d: int)
    ensures Sum(Add(m, k, d)) == Sum(m) + d
  {
    SumUpdate(m, k, Get(m, k) + d);
  }

  lemma {:induction false} SumNonNegative<K>(m: map<K, int>)
    requires forall k :: k in m ==> m[k] >= 0
    ensures Sum(m) >= 0
    ensures forall k :: k in m ==> m[k] <= Sum(m)
    decreases |m|
  {
    forall k | k in m ensures 0 <= m[k] <= Sum(m) {
      SumRemove(m, k);
      SumNonNegative(m - {k});
    }
    if m != map[] {
      var k :| k in m;
      assert m[k] <= Sum(m);
    }
  }
}
