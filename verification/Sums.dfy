/**
Sums of the values of a finite map, in whatever order they are taken.
*/
module Sums {
  ghost function Sum<K(!new)>(m: map<K, nat>): nat
    decreases |m|
  {
    if m == map[] then 0 else var k :| k in m; m[k] + Sum(m - {k})
  }

  lemma {:induction false} SumSplit<K(!new)>(m: map<K, nat>, k: K)
    requires k in m
    ensures Sum(m) == m[k] + Sum(m - {k})
    decreases |m|
  {
    var j :| j in m && Sum(m) == m[j] + Sum(m - {j});
    if j != k {
      SumSplit(m - {j}, k);
      SumSplit(m - {k}, j);
      assert m - {j} - {k} == m - {k} - {j};
    }
  }

  lemma SumPut<K(!new)>(m: map<K, nat>, k: K, v: nat)
    ensures Sum(m[k := v]) == Sum(m - {k}) + v
    ensures Sum(m) == Sum(m - {k}) + if k in m then m[k] else 0
  {
    SumSplit(m[k := v], k);
    assert m[k := v] - {k} == m - {k};
    if k in m {
      SumSplit(m, k);
    } else {
      assert m - {k} == m;
    }
  }

  lemma {:induction false} AllZero<K(!new)>(m: map<K, nat>)
    requires forall k <- m :: m[k] == 0
    ensures Sum(m) == 0
    decreases |m|
  {
    if m != map[] {
      var k :| k in m;
      SumSplit(m, k);
      AllZero(m - {k});
    }
  }

  function Times(n: nat, c: nat): nat {
    n * c
  }

  /** Values that grew by at most `c`, and at the keys of `at` only. */
  lemma {:induction false} SumGrows<K(!new)>(m: map<K, nat>, m': map<K, nat>, at: set<K>, c: nat)
    requires m'.Keys == m.Keys && forall k <- m :: m'[k] <= m[k] + if k in at then c else 0
    ensures Sum(m') <= Sum(m) + Times(|at|, c)
    decreases |m|
  {
    if m == map[] {
      NoSum(m');
    } else {
      hide Sum, Times;
      var k :| k in m;
      SumSplit(m, k);
      SumSplit(m', k);
      RestGrows(m, m', at, c, k);
      SumGrows(m - {k}, m' - {k}, at - {k}, c);
      Fewer(at, k, c);
    }
  }

  lemma NoSum<K(!new)>(m: map<K, nat>)
    requires m.Keys == {}
    ensures Sum(m) == 0
  {
    assert m == map[];
  }

  lemma RestGrows<K>(m: map<K, nat>, m': map<K, nat>, at: set<K>, c: nat, k: K)
    requires m'.Keys == m.Keys && forall j <- m :: m'[j] <= m[j] + if j in at then c else 0
    ensures (m' - {k}).Keys == (m - {k}).Keys
    ensures forall j <- m - {k} :: (m' - {k})[j] <= (m - {k})[j] + if j in at - {k} then c else 0
  {
  }

  lemma Fewer<K>(at: set<K>, k: K, c: nat)
    ensures Times(|at - {k}|, c) + (if k in at then c else 0) == Times(|at|, c)
  {
    if k in at {
      assert |at| == |at - {k}| + 1;
    } else {
      assert at - {k} == at;
    }
  }
}
