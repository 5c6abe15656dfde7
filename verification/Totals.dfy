/** Sums over the values of a finite map. */
module Totals {

  /** The sum of all values of `m`, taken in any order. */
  ghost function Total<K>(m: map<K, int>): int
  {
    if m == map[] then 0
    else
      var k :| k in m;
      m[k] + Total(m - {k})
  }

  /** Any key may be taken first. */
  lemma {:induction false} TotalRemove<K>(m: map<K, int>, k: K)
    requires k in m
    ensures Total(m) == m[k] + Total(m - {k})
    decreases |m|
  {
    var j :| j in m && Total(m) == m[j] + Total(m - {j});
    if j != k {
      TotalRemove(m - {j}, k);
      TotalRemove(m - {k}, j);
      assert m - {j} - {k} == m - {k} - {j};
    }
  }

  /** Adding a key that is not there yet adds its value, whatever was there before. */
  lemma TotalInsert<K>(m: map<K, int>, k: K, value: int)
    requires k !in m
    ensures Total(m[k := value]) == Total(m) + value
  {
    TotalRemove(m[k := value], k);
    assert m[k := value] - {k} == m;
  }

  lemma TotalDisjointStep<K>(m: map<K, int>, n: map<K, int>, k: K)
    requires m.Keys !! n.Keys && k in n
    requires Total(m + (n - {k})) == Total(m) + Total(n - {k})
    ensures Total(m + n) == Total(m) + Total(n)
  {
    hide Total;
    TotalRemove(n, k);
    TotalRemove(m + n, k);
    assert m + n - {k} == m + (n - {k});
  }

  /** The total of two maps without a common key. */
  lemma {:induction false} TotalDisjoint<K>(m: map<K, int>, n: map<K, int>)
    requires m.Keys !! n.Keys
    ensures Total(m + n) == Total(m) + Total(n)
    decreases n.Keys
  {
    if n == map[] {
      assert m + n == m;
    } else {
      hide Total;
      var k :| k in n;
      TotalDisjoint(m, n - {k});
      TotalDisjointStep(m, n, k);
    }
  }
}
