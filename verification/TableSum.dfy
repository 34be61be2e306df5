/** Sums of a per-row amount over a finite table, with the update laws of an SQL SUM. */
module TableSum {

  ghost function Pick<K, V>(m: map<K, V>): (k: K)
    requires m != map[]
    ensures k in m
  {
    assert m.Keys != {};
    var k :| k in m.Keys;
    k
  }

  ghost function Sum<K, V>(m: map<K, V>, f: V -> nat): nat
    decreases |m|
  {
    if m == map[] then 0
    else
      var k := Pick(m);
      assert |m - {k}| < |m| by { KeysAfterRemove(m, k); }
      f(m[k]) + Sum(m - {k}, f)
  }

  lemma KeysAfterRemove<K, V>(m: map<K, V>, k: K)
    requires k in m
    ensures (m - {k}).Keys == m.Keys - {k}
    ensures |m - {k}| == |m| - 1
  {
    var rest := m - {k};
    assert rest.Keys == m.Keys - {k};
    assert |rest| == |rest.Keys|;
  }

  // The sum does not depend on which row is taken out first.
  lemma {:induction false} SumRemove<K, V>(m: map<K, V>, f: V -> nat, k: K)
    requires k in m
    ensures Sum(m, f) == f(m[k]) + Sum(m - {k}, f)
    decreases |m|
  {
    var p := Pick(m);
    KeysAfterRemove(m, p);
    if p != k {
      KeysAfterRemove(m, k);
      SumRemove(m - {p}, f, k);
      SumRemove(m - {k}, f, p);
      assert m - {p} - {k} == m - {k} - {p};
    }
  }

  lemma SumInsert<K, V>(m: map<K, V>, f: V -> nat, k: K, v: V)
    requires k !in m
    ensures Sum(m[k := v], f) == Sum(m, f) + f(v)
  {
    SumRemove(m[k := v], f, k);
    assert m[k := v] - {k} == m;
  }

  lemma SumUpdate<K, V>(m: map<K, V>, f: V -> nat, k: K, v: V)
    requires k in m
    ensures Sum(m[k := v], f) + f(m[k]) == Sum(m, f) + f(v)
  {
    SumRemove(m[k := v], f, k);
    SumRemove(m, f, k);
    assert m[k := v] - {k} == m - {k};
  }

  lemma SumAtLeast<K, V>(m: map<K, V>, f: V -> nat, k: K)
    requires k in m
    ensures f(m[k]) <= Sum(m, f)
  {
    SumRemove(m, f, k);
  }

  // Two tables with the same keys whose rows compare row by row.
  lemma {:induction false} SumMonotone<K, V, W>(m: map<K, V>, f: V -> nat, n: map<K, W>, g: W -> nat)
    requires m.Keys == n.Keys
    requires forall k | k in m :: f(m[k]) <= g(n[k])
    ensures Sum(m, f) <= Sum(n, g)
    decreases |m|
  {
    if m != map[] {
      var k := Pick(m);
      KeysAfterRemove(m, k);
      KeysAfterRemove(n, k);
      SumRemove(n, g, k);
      SumMonotone(m - {k}, f, n - {k}, g);
    }
  }

  lemma SumCongruent<K, V, W>(m: map<K, V>, f: V -> nat, n: map<K, W>, g: W -> nat)
    requires m.Keys == n.Keys
    requires forall k | k in m :: f(m[k]) == g(n[k])
    ensures Sum(m, f) == Sum(n, g)
  {
    SumMonotone(m, f, n, g);
    SumMonotone(n, g, m, f);
  }

  lemma {:induction false} SumZero<K, V>(m: map<K, V>, f: V -> nat)
    ensures Sum(m, f) == 0 <==> forall k | k in m :: f(m[k]) == 0
    decreases |m|
  {
    if m != map[] {
      var p := Pick(m);
      KeysAfterRemove(m, p);
      SumZero(m - {p}, f);
      if forall k | k in m - {p} :: f((m - {p})[k]) == 0 {
        assert forall k | k in m && k != p :: k in m - {p} && f((m - {p})[k]) == f(m[k]);
      } else {
        var k :| k in m - {p} && f((m - {p})[k]) != 0;
        assert k in m && f(m[k]) != 0;
      }
    }
  }

  // Rows outside `keys` that count nothing can be left out of the sum.
  lemma {:induction false} SumRestrict<K, V>(m: map<K, V>, f: V -> nat, keys: set<K>)
    requires forall k | k in m && k !in keys :: f(m[k]) == 0
    ensures Sum(m, f) == Sum(map k | k in m && k in keys :: m[k], f)
    decreases |m|
  {
    var kept := map k | k in m && k in keys :: m[k];
    if out :| out in m && out !in keys {
      KeysAfterRemove(m, out);
      SumRemove(m, f, out);
      SumRestrict(m - {out}, f, keys);
      assert kept == map k | k in m - {out} && k in keys :: (m - {out})[k];
    } else {
      assert kept == m;
    }
  }
}
