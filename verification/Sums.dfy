/** Sums over the values of a finite map. */
module Sums {
  ghost function Sum(m: map<nat, nat>): nat
    decreases |m|
  {
    if m == map[] then 0
    else
      var k :| k in m;
      m[k] + Sum(m - {k})
  }

  // Any key may be taken out first.
  lemma {:induction false} SumSplits(m: map<nat, nat>, k: nat)
    requires k in m
    ensures Sum(m) == m[k] + Sum(m - {k})
    decreases |m|
  {
    var j :| j in m && Sum(m) == m[j] + Sum(m - {j});
    if j != k {
      SumSplits(m - {j}, k);
      SumSplits(m - {k}, j);
      assert m - {j} - {k} == m - {k} - {j};
    }
  }

  lemma SumAdds(m: map<nat, nat>, k: nat, v: nat)
    ensures Sum(m[k := v]) == v + Sum(m - {k})
    ensures k !in m ==> Sum(m[k := v]) == v + Sum(m)
  {
    SumSplits(m[k := v], k);
    assert m[k := v] - {k} == m - {k};
    if k !in m { assert m - {k} == m; }
  }

  // Every value of b is one of a's, or smaller.
  ghost predicate Below(a: map<nat, nat>, b: map<nat, nat>) {
    forall k :: k in b ==> k in a && b[k] <= a[k]
  }

  lemma {:induction false} SumShrinks(a: map<nat, nat>, b: map<nat, nat>)
    requires Below(a, b)
    ensures Sum(b) <= Sum(a)
    decreases |a|
  {
    if a != map[] {
      var k :| k in a;
      SumSplits(a, k);
      SumShrinks(a - {k}, b - {k});
      if k in b { SumSplits(b, k); } else { assert b - {k} == b; }
    }
  }

  lemma SumDrops(a: map<nat, nat>, b: map<nat, nat>, k: nat)
    requires Below(a, b) && k in a && 0 < a[k] && (k in b ==> b[k] < a[k])
    ensures Sum(b) < Sum(a)
  {
    SumSplits(a, k);
    SumShrinks(a - {k}, b - {k});
    if k in b { SumSplits(b, k); } else { assert b - {k} == b; }
  }
}
