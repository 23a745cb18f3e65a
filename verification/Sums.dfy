/**
 Sums over the rows of a table and over keyed balances.

 Every conservation statement in this project is about one of the two sums below:
 `SumBy` adds a weight over the rows of a table, `SumMap` adds the values of a
 balance table keyed by user.
 */
module Sums {

  /** Sum of `weight(row)` over all rows. */
  function SumBy<T>(rows: seq<T>, weight: T -> int): int {
    if rows == [] then 0
    else SumBy(rows[..|rows| - 1], weight) + weight(rows[|rows| - 1])
  }

  lemma {:induction false} SumByConcat<T>(a: seq<T>, b: seq<T>, weight: T -> int)
    ensures SumBy(a + b, weight) == SumBy(a, weight) + SumBy(b, weight)
  {
    if b == [] {
      assert a + b == a;
    } else {
      var last := |b| - 1;
      SumByConcat(a, b[..last], weight);
      assert (a + b)[..|a + b| - 1] == a + b[..last];
    }
  }

  lemma SumByPush<T>(rows: seq<T>, row: T, weight: T -> int)
    ensures SumBy(rows + [row], weight) == SumBy(rows, weight) + weight(row)
  {
    assert (rows + [row])[..|rows|] == rows;
  }

  lemma {:induction false} SumByUpdate<T>(rows: seq<T>, i: nat, row: T, weight: T -> int)
    requires i < |rows|
    ensures SumBy(rows[i := row], weight) == SumBy(rows, weight) - weight(rows[i]) + weight(row)
  {
    var last := |rows| - 1;
    if i == last {
      assert rows[i := row][..last] == rows[..last];
    } else {
      SumByUpdate(rows[..last], i, row, weight);
      assert rows[i := row][..last] == rows[..last][i := row];
    }
  }

  /** Two weights that agree on every row give the same sum. */
  lemma {:induction false} SumByAgree<T>(rows: seq<T>, f: T -> int, g: T -> int)
    requires forall i :: 0 <= i < |rows| ==> f(rows[i]) == g(rows[i])
    ensures SumBy(rows, f) == SumBy(rows, g)
  {
    if rows != [] {
      SumByAgree(rows[..|rows| - 1], f, g);
    }
  }

  lemma {:induction false} SumByPlus<T>(rows: seq<T>, f: T -> int, g: T -> int, h: T -> int)
    requires forall i :: 0 <= i < |rows| ==> h(rows[i]) == f(rows[i]) + g(rows[i])
    ensures SumBy(rows, h) == SumBy(rows, f) + SumBy(rows, g)
  {
    if rows != [] {
      SumByPlus(rows[..|rows| - 1], f, g, h);
    }
  }

  lemma {:induction false} SumByZero<T>(rows: seq<T>, f: T -> int)
    requires forall i :: 0 <= i < |rows| ==> f(rows[i]) == 0
    ensures SumBy(rows, f) == 0
  {
    if rows != [] {
      SumByZero(rows[..|rows| - 1], f);
    }
  }

  /** With non-negative weights, no single row outweighs the sum. */
  lemma {:induction false} SumByBounds<T>(rows: seq<T>, f: T -> int)
    requires forall i :: 0 <= i < |rows| ==> f(rows[i]) >= 0
    ensures SumBy(rows, f) >= 0
    ensures forall i :: 0 <= i < |rows| ==> f(rows[i]) <= SumBy(rows, f)
  {
    if rows != [] {
      var init := rows[..|rows| - 1];
      SumByBounds(init, f);
      forall i | 0 <= i < |rows|
        ensures f(rows[i]) <= SumBy(rows, f)
      {
        if i < |init| {
          assert init[i] == rows[i];
        }
      }
    }
  }

  /** The order of the rows does not matter. */
  lemma {:induction false} SumByPermutation<T>(a: seq<T>, b: seq<T>, weight: T -> int)
    requires multiset(a) == multiset(b)
    ensures SumBy(a, weight) == SumBy(b, weight)
  {
    if a == [] {
      assert |multiset(b)| == 0;
    } else {
      var last := a[|a| - 1];
      var init := a[..|a| - 1];
      assert a == init + [last];
      assert last in multiset(b);
      var k :| 0 <= k < |b| && b[k] == last;
      var before, after := b[..k], b[k + 1..];
      assert b == before + [last] + after;
      assert multiset(before + after) == multiset(init) by {
        assert multiset(before + after) == multiset(before) + multiset(after) == multiset(b) - multiset{last};
        assert a == init + [last];
        assert multiset(init) == multiset(a) - multiset{last};
      }
      SumByPermutation(init, before + after, weight);
      SumByConcat(before, after, weight);
      SumByConcat(before + [last], after, weight);
      SumByPush(before, last, weight);
    }
  }

  /** The value stored for `k`, reading a missing key as zero (`map.get(k) ?? 0n`). */
  function Get<K>(m: map<K, int>, k: K): int {
    if k in m then m[k] else 0
  }

  /** Sum of all values of a balance table. */
  ghost function SumMap<K>(m: map<K, int>): int {
    if m == map[] then 0
    else
      var k :| k in m;
      m[k] + SumMap(m - {k})
  }

  lemma {:induction false} SumMapRemove<K>(m: map<K, int>, k: K)
    requires k in m
    ensures SumMap(m) == m[k] + SumMap(m - {k})
    decreases |m|
  {
    var j :| j in m && SumMap(m) == m[j] + SumMap(m - {j});
    if j != k {
      SumMapRemove(m - {j}, k);
      SumMapRemove(m - {k}, j);
      assert m - {j} - {k} == m - {k} - {j};
    }
  }

  /** Writing `x` under `k` changes the total by exactly the change at `k`. */
  lemma SumMapWrite<K>(m: map<K, int>, k: K, x: int)
    ensures SumMap(m[k := x]) == SumMap(m) - Get(m, k) + x
  {
    SumMapRemove(m[k := x], k);
    if k in m {
      SumMapRemove(m, k);
      assert m[k := x] - {k} == m - {k};
    } else {
      assert m[k := x] - {k} == m;
    }
  }

  lemma {:induction false} SumMapBounds<K>(m: map<K, int>)
    requires forall k :: k in m ==> m[k] >= 0
    ensures SumMap(m) >= 0
    ensures forall k :: k in m ==> m[k] <= SumMap(m)
    decreases |m|
  {
    forall k | k in m
      ensures 0 <= m[k] <= SumMap(m)
    {
      SumMapRemove(m, k);
      SumMapBounds(m - {k});
    }
  }

  /** Keys that hold zero can be left out. */
  lemma {:induction false} SumMapDropZeros<K>(m: map<K, int>, part: map<K, int>)
    requires part.Keys <= m.Keys
    requires forall k :: k in part ==> part[k] == m[k]
    requires forall k :: k in m && k !in part ==> m[k] == 0
    ensures SumMap(part) == SumMap(m)
    decreases |m|
  {
    if forall k :: k in m ==> k in part {
      assert part == m;
    } else {
      var k :| k in m && k !in part;
      SumMapRemove(m, k);
      SumMapDropZeros(m - {k}, part);
    }
  }

  lemma {:induction false} SumMapPlus<K>(a: map<K, int>, b: map<K, int>, c: map<K, int>)
    requires a.Keys == b.Keys == c.Keys
    requires forall k :: k in c ==> c[k] == a[k] + b[k]
    ensures SumMap(c) == SumMap(a) + SumMap(b)
    decreases |c|
  {
    if c.Keys == {} {
      assert a == map[] && b == map[] && c == map[];
    } else {
      var k :| k in c;
      SumMapRemove(a, k);
      SumMapRemove(b, k);
      SumMapRemove(c, k);
      SumMapPlus(a - {k}, b - {k}, c - {k});
    }
  }

  /** Row by row equal weights of two tables of the same length give equal sums. */
  lemma {:induction false} SumByParallel<S, T>(a: seq<S>, b: seq<T>, f: S -> int, g: T -> int)
    requires |a| == |b|
    requires forall i :: 0 <= i < |a| ==> f(a[i]) == g(b[i])
    ensures SumBy(a, f) == SumBy(b, g)
  {
    if a != [] {
      SumByParallel(a[..|a| - 1], b[..|b| - 1], f, g);
    }
  }
}
