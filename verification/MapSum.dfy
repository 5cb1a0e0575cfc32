/** Sums over the values of a finite map, used for every aggregate that the
    source keeps incrementally and that must agree with a fresh recount. */
module MapSum {

  ghost function Pick<K, V>(m: map<K, V>): (k: K)
    requires |m| > 0
    ensures k in m
  {
    assert m.Keys != {};
    var k :| k in m.Keys;
    k
  }

  ghost function Sum<K, V>(m: map<K, V>, f: V -> int): int
    decreases |m|
  {
    if |m| == 0 then 0 else
      var k := Pick(m);
      assert (m - {k}).Keys == m.Keys - {k};
      f(m[k]) + Sum(m - {k}, f)
  }

  /** The order in which a map is summed does not matter: any key may go first. */
  lemma {:induction false} SumRemove<K, V>(m: map<K, V>, k: K, f: V -> int)
    requires k in m
    ensures Sum(m, f) == f(m[k]) + Sum(m - {k}, f)
    decreases |m|
  {
    assert |m| == |m.Keys| && m.Keys != {};
    var k0 := Pick(m);
    if k0 == k {
    } else {
      var m0, m1 := m - {k0}, m - {k};
      assert m0.Keys == m.Keys - {k0} && m1.Keys == m.Keys - {k};
      SumRemove(m0, k, f);
      SumRemove(m1, k0, f);
      assert m0 - {k} == m1 - {k0};
    }
  }

  lemma SumInsert<K, V>(m: map<K, V>, k: K, v: V, f: V -> int)
    requires k !in m
    ensures Sum(m[k := v], f) == Sum(m, f) + f(v)
  {
    SumRemove(m[k := v], k, f);
    assert m[k := v] - {k} == m;
  }

  lemma SumUpdate<K, V>(m: map<K, V>, k: K, v: V, f: V -> int)
    requires k in m
    ensures Sum(m[k := v], f) == Sum(m, f) - f(m[k]) + f(v)
  {
    SumRemove(m, k, f);
    SumRemove(m[k := v], k, f);
    assert m[k := v] - {k} == m - {k};
  }

  /** If f is bounded by c times g on every value, the sums are bounded alike. */
  lemma {:induction false} SumScaledBound<K, V>(m: map<K, V>, f: V -> int, g: V -> int, c: int)
    requires forall k | k in m :: f(m[k]) <= c * g(m[k])
    ensures Sum(m, f) <= c * Sum(m, g)
    decreases |m|
  {
    if |m| == 0 {
    } else {
      var k := Pick(m);
      assert (m - {k}).Keys == m.Keys - {k};
      SumScaledBound(m - {k}, f, g, c);
      AddScaled(c, g(m[k]), Sum(m - {k}, g), f(m[k]), Sum(m - {k}, f));
    }
  }

  lemma AddScaled(c: int, a: int, b: int, x: int, y: int)
    requires x <= c * a && y <= c * b
    ensures x + y <= c * (a + b)
  {
  }

  lemma {:induction false} SumNonNegative<K, V>(m: map<K, V>, f: V -> int)
    requires forall k | k in m :: f(m[k]) >= 0
    ensures Sum(m, f) >= 0
    decreases |m|
  {
    if |m| == 0 {
    } else {
      var k := Pick(m);
      assert (m - {k}).Keys == m.Keys - {k};
      SumNonNegative(m - {k}, f);
    }
  }

  /** A sum of non-negative terms is at least each of them. */
  lemma SumAtLeast<K, V>(m: map<K, V>, k: K, f: V -> int)
    requires k in m
    requires forall j | j in m :: f(m[j]) >= 0
    ensures f(m[k]) <= Sum(m, f)
  {
    SumRemove(m, k, f);
    SumNonNegative(m - {k}, f);
  }

  /** A positive sum has a positive term. */
  lemma {:induction false} SumPositive<K, V>(m: map<K, V>, f: V -> int) returns (k: K)
    requires Sum(m, f) > 0
    ensures k in m && f(m[k]) > 0
    decreases |m|
  {
    k := Pick(m);
    if f(m[k]) <= 0 {
      assert (m - {k}).Keys == m.Keys - {k};
      k := SumPositive(m - {k}, f);
    }
  }
}
