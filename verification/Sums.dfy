/**
 Sums and counts over finite maps and sets, used to state what the code's counters count.
 */
module Sums {

  // The sum of a map's values.
  ghost function Sum<K(!new)>(m: map<K, nat>): nat
    decreases |m|
  {
    if m == map[] then 0 else
      var k :| k in m;
      m[k] + Sum(m - {k})
  }

  lemma {:induction false} SumRemove<K(!new)>(m: map<K, nat>, k: K)
    requires k in m
    ensures Sum(m) == m[k] + Sum(m - {k})
    decreases |m|
  {
    var j :| j in m && Sum(m) == m[j] + Sum(m - {j});
    if j != k {
      SumRemove(m - {j}, k);
      SumRemove(m - {k}, j);
      assert m - {j} - {k} == m - {k} - {j};
    }
  }

  lemma SumUpdate<K(!new)>(m: map<K, nat>, k: K, v: nat)
    ensures Sum(m[k := v]) == Sum(m) + v - (if k in m then m[k] else 0)
  {
    SumRemove(m[k := v], k);
    assert m[k := v] - {k} == m - {k};
    if k in m {
      SumRemove(m, k);
    } else {
      assert m - {k} == m;
    }
  }

  lemma {:induction false} SumIsZero<K(!new)>(m: map<K, nat>)
    ensures Sum(m) == 0 <==> forall k | k in m :: m[k] == 0
    decreases |m|
  {
    if m != map[] {
      var j :| j in m && Sum(m) == m[j] + Sum(m - {j});
      SumIsZero(m - {j});
      assert forall k | k in m :: k == j || k in m - {j};
    }
  }

  // The weights of a map's values.
  function Weights<K, V>(m: map<K, V>, w: V -> nat): map<K, nat> {
    map k | k in m :: w(m[k])
  }

  lemma WeightMove<K(!new), V>(m: map<K, V>, w: V -> nat, k: K, v: V)
    requires k in m
    ensures Sum(Weights(m[k := v], w)) == Sum(Weights(m, w)) + w(v) - w(m[k])
  {
    SumUpdate(Weights(m, w), k, w(v));
    assert Weights(m[k := v], w) == Weights(m, w)[k := w(v)];
  }

  lemma SubsetSize<T>(a: set<T>, b: set<T>)
    requires a <= b
    ensures |a| <= |b|
    ensures |a| == |b| ==> a == b
  {
    assert b == a + (b - a);
  }

  predicate Between(lo: int, i: int, hi: int) {
    lo <= i < hi
  }

  // The integers lo, ..., hi - 1.
  function Range(lo: int, hi: int): set<int> {
    set i | lo <= i < hi && Between(lo, i, hi)
  }

  lemma {:induction false} RangeSize(lo: int, hi: int)
    ensures |Range(lo, hi)| == if lo <= hi then hi - lo else 0
    decreases hi - lo
  {
    if lo < hi {
      RangeSize(lo + 1, hi);
      assert Range(lo, hi) == {lo} + Range(lo + 1, hi);
    } else {
      assert Range(lo, hi) == {};
    }
  }

  lemma Pick<T>(s: set<T>) returns (x: T)
    requires s != {}
    ensures x in s
  {
    x :| x in s;
  }

  lemma {:induction false} Maximum(s: set<int>) returns (m: int)
    requires s != {}
    ensures m in s && forall x | x in s :: x <= m
    decreases |s|
  {
    m := Pick(s);
    if s != {m} {
      assert s - {m} + {m} == s;
      var r := Maximum(s - {m});
      assert forall x | x in s :: x == m || x in s - {m};
      if m < r { m := r; }
    }
  }

  lemma AddRange(s: set<int>, lo: int, hi: int)
    requires lo <= hi && forall i | lo <= i < hi :: i !in s
    ensures |s + Range(lo, hi)| == |s| + hi - lo
  {
    RangeSize(lo, hi);
    UnionSize(s, Range(lo, hi));
  }

  lemma UnionSize<T>(a: set<T>, b: set<T>)
    requires a !! b
    ensures |a + b| == |a| + |b|
  {
  }

  predicate Distinct<T(==)>(s: seq<T>) {
    forall i, j | 0 <= i < j < |s| :: s[i] != s[j]
  }

  function Elements<T>(s: seq<T>): set<T> {
    set x | x in s
  }

  lemma {:induction false} DistinctSize<T>(s: seq<T>)
    requires Distinct(s)
    ensures |Elements(s)| == |s|
  {
    if s != [] {
      DistinctSize(s[..|s| - 1]);
      LastIsNew(s);
    }
  }

  lemma LastIsNew<T>(s: seq<T>)
    requires Distinct(s) && s != []
    ensures s[|s| - 1] !in Elements(s[..|s| - 1])
    ensures Elements(s) == Elements(s[..|s| - 1]) + {s[|s| - 1]}
  {
    assert s == s[..|s| - 1] + [s[|s| - 1]];
  }

  // Some element of a set; nothing is promised about the order of iteration.
  method Choose<T(==)>(s: set<T>) returns (x: T)
    requires s != {}
    ensures x in s
  {
    x :| x in s;
  }
}
