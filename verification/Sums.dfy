/** Sums over the values of a finite map, and how they react to single-entry changes. */
module Sums {
  import opened Words

  ghost function Sum<K>(m: map<K, u64>): nat {
    if m == map[] then 0 else
      var k :| k in m;
      m[k] + Sum(m - {k})
  }

  lemma {:induction false} SumRemove<K>(m: map<K, u64>, k: K)
    requires k in m
    ensures Sum(m) == m[k] + Sum(m - {k})
    decreases m.Keys
  {
    var j :| j in m && Sum(m) == m[j] + Sum(m - {j});
    if j != k {
      SumRemove(m - {j}, k);
      SumRemove(m - {k}, j);
      assert m - {j} - {k} == m - {k} - {j};
    }
  }

  lemma {:induction false} SumUpdate<K>(m: map<K, u64>, k: K, v: u64)
    ensures Sum(m[k := v]) == Sum(m) - Get0(m, k) + v
  {
    SumRemove(m[k := v], k);
    assert m[k := v] - {k} == m - {k};
    if k in m {
      SumRemove(m, k);
    } else {
      assert m - {k} == m;
    }
  }

  lemma {:induction false} SumDrop<K>(m: map<K, u64>, k: K)
    ensures Sum(m - {k}) == Sum(m) - Get0(m, k)
  {
    if k in m {
      SumRemove(m, k);
    } else {
      assert m - {k} == m;
    }
  }

  lemma {:induction false} SumAtLeast<K>(m: map<K, u64>, k: K)
    ensures Get0(m, k) <= Sum(m)
  {
    if k in m {
      SumRemove(m, k);
    }
  }

  /** If an injection sends every entry of `m` to an entry of `big` at least as large,
      then `m` sums to no more than `big`. */
  lemma {:induction false} SumEmbeds<K, L>(m: map<K, u64>, big: map<L, u64>, f: K -> L)
    requires forall j, k | j in m && k in m :: f(j) == f(k) ==> j == k
    requires forall k | k in m :: m[k] <= Get0(big, f(k))
    ensures Sum(m) <= Sum(big)
    decreases m.Keys
  {
    if m != map[] {
      var k :| k in m;
      SumRemove(m, k);
      SumDrop(big, f(k));
      SumEmbeds(m - {k}, big - {f(k)}, f);
    }
  }
}
