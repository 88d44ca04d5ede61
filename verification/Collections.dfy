/** Sums over sequences and maps, and the result types the other modules share. */
module Collections {

  datatype Option<+T> = None | Some(value: T)

  datatype Result<+T, +E> = Success(value: T) | Failure(error: E)

  function Max(a: int, b: int): int { if a < b then b else a }

  function Min(a: int, b: int): int { if a < b then a else b }

  function Sum(s: seq<int>): int {
    if s == [] then 0 else s[0] + Sum(s[1..])
  }

  lemma {:induction false} SumAppend(a: seq<int>, b: seq<int>)
    ensures Sum(a + b) == Sum(a) + Sum(b)
  {
    if a == [] {
      assert a + b == b;
    } else {
      SumAppend(a[1..], b);
      assert (a + b)[1..] == a[1..] + b;
    }
  }

  /** Adding one amount at one index moves the sum by exactly that amount. */
  lemma {:induction false} SumUpdate(s: seq<int>, i: nat, v: int)
    requires i < |s|
    ensures Sum(s[i := v]) == Sum(s) - s[i] + v
  {
    if i == 0 {
      assert s[i := v][1..] == s[1..];
    } else {
      SumUpdate(s[1..], i - 1, v);
      assert s[i := v][1..] == s[1..][i - 1 := v];
    }
  }

  /** The total of a finite map's values. */
  ghost function MapSum<K>(m: map<K, int>): int {
    if m == map[] then 0
    else
      var k :| k in m;
      m[k] + MapSum(m - {k})
  }

  /** The total does not depend on which key is taken out first. */
  lemma {:induction false} MapSumRemove<K>(m: map<K, int>, k: K)
    requires k in m
    ensures MapSum(m) == m[k] + MapSum(m - {k})
    decreases |m|
  {
    var j :| j in m && MapSum(m) == m[j] + MapSum(m - {j});
    if j != k {
      MapSumRemove(m - {j}, k);
      MapSumRemove(m - {k}, j);
      assert m - {j} - {k} == m - {k} - {j};
    }
  }

  lemma MapSumInsert<K>(m: map<K, int>, k: K, v: int)
    ensures MapSum(m[k := v]) == MapSum(m) + v - (if k in m then m[k] else 0)
  {
    var n := m[k := v];
    MapSumRemove(n, k);
    assert n - {k} == m - {k};
    if k in m {
      MapSumRemove(m, k);
    } else {
      assert m - {k} == m;
    }
  }

  /** Non-negative values: every part is at most the whole. */
  lemma {:induction false} MapSumNonNegative<K>(m: map<K, int>)
    requires forall k :: k in m ==> 0 <= m[k]
    ensures 0 <= MapSum(m)
    decreases |m|
  {
    if m != map[] {
      var k :| k in m && MapSum(m) == m[k] + MapSum(m - {k});
      MapSumNonNegative(m - {k});
    }
  }

  /** Rates compare as their cross products do. */
  lemma RatesCompare(a: int, b: int, c: int, d: int)
    requires b >= 1 && d >= 1
    ensures a as real / b as real < c as real / d as real <==> a * d < c * b
  {
    var x, y := a as real / b as real, c as real / d as real;
    var m := b as real * d as real;
    assert x * b as real == a as real && y * d as real == c as real;
    assert x * m == (a * d) as real && y * m == (c * b) as real;
    if x < y {
      Scaled(x, y, m);
    } else {
      Scaled(y, x, m);
    }
  }

  lemma Scaled(x: real, y: real, m: real)
    requires x <= y && m > 0.0
    ensures x * m <= y * m && (x < y ==> x * m < y * m)
  {
  }
}
