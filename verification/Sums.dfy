/** Sums over the values of a finite map. */
module Sums {

  ghost function Pick<K, V>(m: map<K, V>): (k: K)
    requires m != map[]
    ensures k in m
  {
    assert m.Keys != {};
    var k :| k in m.Keys;
    k
  }

  /** The sum of f over the values of m. */
  ghost function Sum<K, V>(m: map<K, V>, f: V -> int): int
    decreases |m|
  {
    if m == map[] then 0
    else
      var k := Pick(m);
      Shrinks(m, k);
      f(m[k]) + Sum(m - {k}, f)
  }

  lemma Shrinks<K, V>(m: map<K, V>, k: K)
    requires k in m
    ensures |m - {k}| < |m|
  {
    assert (m - {k}).Keys == m.Keys - {k};
    assert |m.Keys - {k}| == |m.Keys| - 1;
    assert |m - {k}| == |(m - {k}).Keys|;
    assert |m| == |m.Keys|;
  }

  /** Any entry can be taken out first. */
  lemma {:induction false} SumWithout<K, V>(m: map<K, V>, k: K, f: V -> int)
    requires k in m
    ensures Sum(m, f) == f(m[k]) + Sum(m - {k}, f)
    decreases |m|
  {
    var j := Pick(m);
    if j != k {
      Shrinks(m, j);
      Shrinks(m, k);
      SumWithout(m - {j}, k, f);
      SumWithout(m - {k}, j, f);
      assert m - {j} - {k} == m - {k} - {j};
    }
  }

  /** Writing one entry replaces its old contribution by the new one. */
  lemma SumUpdate<K, V>(m: map<K, V>, k: K, v: V, f: V -> int)
    ensures Sum(m[k := v], f) == Sum(m, f) + f(v) - (if k in m then f(m[k]) else 0)
  {
    SumWithout(m[k := v], k, f);
    assert m[k := v] - {k} == m - {k};
    if k in m {
      SumWithout(m, k, f);
    } else {
      assert m - {k} == m;
    }
  }

  /** Taking out a part takes out its sum. */
  lemma {:induction false} SumSplit<K, V>(m: map<K, V>, part: map<K, V>, f: V -> int)
    requires forall k | k in part :: k in m && part[k] == m[k]
    ensures Sum(m, f) == Sum(part, f) + Sum(m - part.Keys, f)
    decreases |part|
  {
    if part == map[] {
      assert m - part.Keys == m;
    } else {
      var k := Pick(part);
      Shrinks(part, k);
      SumWithout(m, k, f);
      var part' := part - {k};
      SumSplit(m - {k}, part', f);
      assert (m - {k}) - part'.Keys == m - part.Keys;
    }
  }

  lemma {:induction false} SumNonNegative<K, V>(m: map<K, V>, f: V -> int)
    requires forall k | k in m :: f(m[k]) >= 0
    ensures Sum(m, f) >= 0
    decreases |m|
  {
    if m != map[] {
      var k := Pick(m);
      Shrinks(m, k);
      SumNonNegative(m - {k}, f);
    }
  }

  lemma {:induction false} SumZero<K, V>(m: map<K, V>, f: V -> int)
    requires forall k | k in m :: f(m[k]) == 0
    ensures Sum(m, f) == 0
    decreases |m|
  {
    if m != map[] {
      var k := Pick(m);
      Shrinks(m, k);
      SumZero(m - {k}, f);
    }
  }

  lemma {:induction false} SumAtMost<K, V>(m: map<K, V>, f: V -> int, g: V -> int, c: int)
    requires forall k | k in m :: f(m[k]) <= c * g(m[k])
    ensures Sum(m, f) <= c * Sum(m, g)
    decreases |m|
  {
    if m != map[] {
      var k := Pick(m);
      Shrinks(m, k);
      SumAtMost(m - {k}, f, g, c);
      Distributes(c, g(m[k]), Sum(m - {k}, g));
    }
  }

  lemma Distributes(c: int, x: int, y: int)
    ensures c * (x + y) == c * x + c * y
  {
  }
}
