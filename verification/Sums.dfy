/** Sums over the values of a map, independent of iteration order. */
module Sums {

  ghost function Sum<K, V>(m: map<K, V>, f: V -> nat): nat
    decreases |m|
  {
    if m == map[] then 0
    else
      var k :| k in m;
      f(m[k]) + Sum(m - {k}, f)
  }

  lemma {:induction false} SumRemove<K, V>(m: map<K, V>, f: V -> nat, k: K)
    requires k in m
    ensures Sum(m, f) == f(m[k]) + Sum(m - {k}, f)
    decreases |m|
  {
    var c :| c in m && Sum(m, f) == f(m[c]) + Sum(m - {c}, f);
    if c != k {
      SumRemove(m - {c}, f, k);
      SumRemove(m - {k}, f, c);
      assert m - {c} - {k} == m - {k} - {c};
    }
  }

  lemma SumInsert<K, V>(m: map<K, V>, f: V -> nat, k: K, v: V)
    requires k !in m
    ensures Sum(m[k := v], f) == Sum(m, f) + f(v)
  {
    SumRemove(m[k := v], f, k);
    assert m[k := v] - {k} == m;
  }

  lemma SumUpdate<K, V>(m: map<K, V>, f: V -> nat, k: K, v: V)
    requires k in m
    ensures Sum(m[k := v], f) + f(m[k]) == Sum(m, f) + f(v)
  {
    SumRemove(m, f, k);
    SumRemove(m[k := v], f, k);
    assert m[k := v] - {k} == m - {k};
  }

  /** One map dominates another value by value. */
  lemma {:induction false} SumMonotone<K, V, W>(m: map<K, V>, f: V -> nat, n: map<K, W>, g: W -> nat)
    requires m.Keys <= n.Keys && forall k <- m :: f(m[k]) <= g(n[k])
    ensures Sum(m, f) <= Sum(n, g)
    decreases |m|
  {
    if m != map[] {
      var k :| k in m;
      SumRemove(m, f, k);
      SumRemove(n, g, k);
      SumMonotone(m - {k}, f, n - {k}, g);
    } else {
      assert Sum(m, f) == 0;
    }
  }

  lemma {:induction false} SumZero<K, V>(m: map<K, V>, f: V -> nat)
    requires forall k <- m :: f(m[k]) == 0
    ensures Sum(m, f) == 0
    decreases |m|
  {
    if m != map[] {
      var k :| k in m;
      SumRemove(m, f, k);
      SumZero(m - {k}, f);
    }
  }

  /** And strictly, as soon as it does so at one key. */
  lemma SumBelow<K, V>(m: map<K, V>, n: map<K, V>, f: V -> nat, k: K)
    requires m.Keys == n.Keys && (forall j <- m :: f(m[j]) <= f(n[j])) && k in m && f(m[k]) < f(n[k])
    ensures Sum(m, f) < Sum(n, f)
  {
    SumRemove(m, f, k);
    SumRemove(n, f, k);
    SumMonotone(m - {k}, f, n - {k}, f);
  }
}
