/** Totals over finite maps and sizes of filtered sets, for counters that must agree with who is counted. */
module Counting {
  function Get<K>(m: map<K, nat>, k: K): nat { if k in m then m[k] else 0 }

  /** One more for `k`. */
  function Bump<K>(m: map<K, nat>, k: K): map<K, nat> { m[k := Get(m, k) + 1] }

  /** One less for `k`, whose entry disappears at zero. */
  function Unbump<K>(m: map<K, nat>, k: K): map<K, nat> {
    if Get(m, k) <= 1 then m - {k} else m[k := m[k] - 1]
  }

  ghost function Total<K>(m: map<K, nat>): nat
    decreases |m|
  {
    if m == map[] then 0
    else
      var k :| k in m;
      m[k] + Total(m - {k})
  }

  lemma {:induction false} TotalSplits<K>(m: map<K, nat>, k: K)
    requires k in m
    ensures Total(m) == m[k] + Total(m - {k})
    decreases |m|
  {
    var pick :| pick in m && Total(m) == m[pick] + Total(m - {pick});
    if pick != k {
      TotalSplits(m - {pick}, k);
      TotalSplits(m - {k}, pick);
      assert m - {pick} - {k} == m - {k} - {pick};
    }
  }

  lemma TotalOfUpdate<K>(m: map<K, nat>, k: K, v: nat)
    ensures Total(m[k := v]) + Get(m, k) == Total(m) + v
  {
    TotalSplits(m[k := v], k);
    assert m[k := v] - {k} == m - {k};
    if k in m {
      TotalSplits(m, k);
    } else {
      assert m - {k} == m;
    }
  }

  lemma TotalOfBump<K>(m: map<K, nat>, k: K)
    ensures Total(Bump(m, k)) == Total(m) + 1
  {
    TotalOfUpdate(m, k, Get(m, k) + 1);
  }

  lemma TotalOfUnbump<K>(m: map<K, nat>, k: K)
    requires Get(m, k) > 0
    ensures Total(Unbump(m, k)) == Total(m) - 1
  {
    if m[k] == 1 {
      TotalSplits(m, k);
    } else {
      TotalOfUpdate(m, k, m[k] - 1);
    }
  }

  /** A total of zero means nobody is counted. */
  lemma ZeroTotal<K>(m: map<K, nat>)
    requires Total(m) == 0 && forall k :: k in m ==> m[k] > 0
    ensures m == map[]
  {
  }
}
