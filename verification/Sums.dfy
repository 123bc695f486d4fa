/** Sums over the values of a finite map: the only arithmetic the ledgers below need. */
module Sums {

  ghost function Sum<K>(m: map<K, int>): int
    decreases |m|
  {
    if m == map[] then 0 else var k :| k in m; m[k] + Sum(m - {k})
  }

  lemma {:induction false} SumRemove<K>(m: map<K, int>, k: K)
    requires k in m
    ensures Sum(m) == m[k] + Sum(m - {k})
    decreases |m|
  {
    var j :| j in m && Sum(m) == m[j] + Sum(m - {j});
    if j != k {
      SumRemove(m - {j}, k);
      SumRemove(m - {k}, j);
      assert m - {j} - {k} == m - {k} - {j};
    }
  }

  /** Two maps that agree off one key have sums that agree off that key. */
  lemma SumDiffers<K>(m: map<K, int>, n: map<K, int>, k: K)
    requires forall j | j != k :: (j in m <==> j in n) && (j in m ==> m[j] == n[j])
    ensures Sum(n) - (if k in n then n[k] else 0) == Sum(m) - (if k in m then m[k] else 0)
  {
    if k in m {
      SumRemove(m, k);
    }
    if k in n {
      SumRemove(n, k);
    }
    assert m - {k} == n - {k};
    assert k !in m ==> m - {k} == m;
    assert k !in n ==> n - {k} == n;
  }

  lemma {:induction false} SumNonNegative<K>(m: map<K, int>)
    requires forall k | k in m :: m[k] >= 0
    ensures Sum(m) >= 0
    decreases |m|
  {
    if m != map[] {
      var k :| k in m;
      SumRemove(m, k);
      SumNonNegative(m - {k});
    }
  }

  lemma OneMore(n: nat, cap: int, x: int, rest: int)
    requires x <= cap && rest <= n * cap
    ensures x + rest <= (n + 1) * cap
  {
  }

  /** A pointwise bound on a finite set of keys bounds the sum by the number of keys. */
  lemma {:induction false} SumBounded<K>(m: map<K, int>, cap: int)
    requires forall k | k in m :: m[k] <= cap
    ensures Sum(m) <= |m| * cap
    decreases |m|
  {
    if m != map[] {
      var k :| k in m;
      SumRemove(m, k);
      SumBounded(m - {k}, cap);
      assert (m - {k}).Keys == m.Keys - {k};
      assert |(m - {k}).Keys| == |m.Keys - {k}| == |m| - 1 by {
        assert (m - {k}).Keys == m.Keys - {k};
      }
      OneMore(|m - {k}|, cap, m[k], Sum(m - {k}));
    }
  }
}
