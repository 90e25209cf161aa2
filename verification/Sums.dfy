/** Sums of integer-valued maps: the arithmetic under every budget statement. */
module Sums {

  ghost function Total<K>(m: map<K, int>): int
    decreases |m|
  {
    if m == map[] then 0
    else
      var k :| k in m;
      m[k] + Total(m - {k})
  }

  /** The total does not depend on which key is taken out first. */
  lemma {:induction false} TotalRemove<K>(m: map<K, int>, k: K)
    requires k in m
    ensures Total(m) == m[k] + Total(m - {k})
    decreases |m|
  {
    var j :| j in m && Total(m) == m[j] + Total(m - {j});
    if j != k {
      TotalRemove(m - {j}, k);
      TotalRemove(m - {k}, j);
      assert m - {j} - {k} == m - {k} - {j};
    }
  }

  lemma TotalUpdate<K>(m: map<K, int>, k: K, v: int)
    ensures Total(m[k := v]) == Total(m) - (if k in m then m[k] else 0) + v
  {
    TotalRemove(m[k := v], k);
    assert m[k := v] - {k} == m - {k};
    if k in m {
      TotalRemove(m, k);
    } else {
      assert m - {k} == m;
    }
  }

  /** Adding up two maps key by key adds up their totals. */
  lemma {:induction false} TotalSum<K>(a: map<K, int>, b: map<K, int>, sum: map<K, int>)
    requires a.Keys == b.Keys == sum.Keys
    requires forall k :: k in sum ==> sum[k] == a[k] + b[k]
    ensures Total(sum) == Total(a) + Total(b)
    decreases |sum|
  {
    if sum == map[] {
      assert a == map[] && b == map[];
    } else {
      var j :| j in sum;
      TotalRemove(sum, j);
      TotalRemove(a, j);
      TotalRemove(b, j);
      TotalSum(a - {j}, b - {j}, sum - {j});
    }
  }

  lemma {:induction false} TotalNonNegative<K>(m: map<K, int>)
    requires forall k :: k in m ==> 0 <= m[k]
    ensures 0 <= Total(m)
    decreases |m|
  {
    if m != map[] {
      var j :| j in m;
      TotalRemove(m, j);
      TotalNonNegative(m - {j});
    }
  }

  /** Leaving out entries that are not negative cannot raise the total. */
  lemma {:induction false} TotalSubset<K>(part: map<K, int>, whole: map<K, int>)
    requires part.Keys <= whole.Keys
    requires forall k :: k in part ==> part[k] == whole[k]
    requires forall k :: k in whole ==> 0 <= whole[k]
    ensures Total(part) <= Total(whole)
    decreases |whole|
  {
    if part == map[] {
      TotalNonNegative(whole);
    } else {
      var j :| j in part;
      TotalRemove(whole, j);
      TotalRemove(part, j);
      TotalSubset(part - {j}, whole - {j});
    }
  }
}
