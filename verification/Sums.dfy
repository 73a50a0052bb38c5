/** Sums over maps and small sequence facts used by the counting arguments. */
module Sums {
  /** The sum of a map's values. */
  ghost function Sum<K(!new)>(m: map<K, int>): int {
    if m == map[] then 0 else var k :| k in m; m[k] + Sum(m - {k})
  }

  lemma {:induction false} SumRemove<K(!new)>(m: map<K, int>, k: K)
    requires k in m
    ensures Sum(m) == m[k] + Sum(m - {k})
    decreases |m|
  {
    var j :| j in m && Sum(m) == m[j] + Sum(m - {j});
    if j != k {
      SumRemove(m - {j}, k);
      SumRemove(m - {k}, j);
      assert m - {j} - {k} == m - {k} - {j};
    }
  }

  lemma SumPut<K(!new)>(m: map<K, int>, k: K, v: int)
    ensures Sum(m[k := v]) == Sum(m) + v - (if k in m then m[k] else 0)
  {
    var m' := m[k := v];
    SumRemove(m', k);
    if k in m {
      SumRemove(m, k);
      assert m' - {k} == m - {k};
    } else {
      assert m' - {k} == m;
    }
  }

  /** A map that two maps without a common key make up sums to what they sum to. */
  lemma {:induction false} SumApart<K(!new)>(m: map<K, int>, a: map<K, int>, b: map<K, int>)
    requires forall k :: k in m <==> k in a || k in b
    requires forall k :: k in a ==> m[k] == a[k] && k !in b
    requires forall k :: k in b ==> m[k] == b[k]
    ensures Sum(m) == Sum(a) + Sum(b)
    decreases |b|
  {
    if b == map[] {
      assert m == a;
    } else {
      var k :| k in b;
      SumRemove(b, k);
      SumRemove(m, k);
      assert Sum(m - {k}) == Sum(a) + Sum(b - {k}) by { SumApart(m - {k}, a, b - {k}); }
    }
  }

  /** Summing an indicator counts. */
  lemma {:induction false} SumCounts<K(!new)>(m: map<K, int>, s: set<K>)
    requires s <= m.Keys
    requires forall k :: k in m ==> m[k] == if k in s then 1 else 0
    ensures Sum(m) == |s|
    decreases |m|
  {
    if m == map[] {
      assert s == {};
    } else {
      var k :| k in m && Sum(m) == m[k] + Sum(m - {k});
      SumCounts(m - {k}, s - {k});
    }
  }

  /** A sequence without its element at one position. */
  function Without<T>(s: seq<T>, j: nat): seq<T>
    requires j < |s|
  {
    s[..j] + s[j + 1..]
  }

  lemma WithoutMultiset<T>(s: seq<T>, j: nat)
    requires j < |s|
    ensures multiset(s) == multiset(Without(s, j)) + multiset{s[j]}
  {
    assert s == s[..j] + [s[j]] + s[j + 1..];
  }
}
