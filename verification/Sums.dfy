/** Sums over table rows and over Go maps: the aggregates the ledger laws are stated with. */
module Sums {

  /** Total of `f` over the rows of a table, in row order. */
  ghost function Sum<T>(rows: seq<T>, f: T -> int): int
  {
    if rows == [] then 0 else Sum(rows[..|rows| - 1], f) + f(rows[|rows| - 1])
  }

  lemma SumAppend<T>(rows: seq<T>, row: T, f: T -> int)
    ensures Sum(rows + [row], f) == Sum(rows, f) + f(row)
  {
    assert (rows + [row])[..|rows|] == rows;
  }

  lemma {:induction false} SumConcat<T>(a: seq<T>, b: seq<T>, f: T -> int)
    ensures Sum(a + b, f) == Sum(a, f) + Sum(b, f)
  {
    if b == [] {
      assert a + b == a;
    } else {
      var front := b[..|b| - 1];
      assert a + b == (a + front) + [b[|b| - 1]];
      SumAppend(a + front, b[|b| - 1], f);
      SumConcat(a, front, f);
    }
  }

  lemma SumGrows<T>(a: seq<T>, b: seq<T>, f: T -> int)
    requires a <= b
    ensures Sum(b, f) == Sum(a, f) + Sum(b[|a|..], f)
  {
    assert b == a + b[|a|..];
    SumConcat(a, b[|a|..], f);
  }

  lemma SumOne<T>(row: T, f: T -> int)
    ensures Sum([row], f) == f(row)
  {
    SumAppend([], row, f);
    assert [] + [row] == [row];
  }

  lemma {:induction false} SumUpdate<T>(rows: seq<T>, i: nat, row: T, f: T -> int)
    requires i < |rows|
    ensures Sum(rows[i := row], f) == Sum(rows, f) - f(rows[i]) + f(row)
  {
    var last := |rows| - 1;
    if i == last {
      assert rows[i := row][..last] == rows[..last];
    } else {
      assert rows[i := row][..last] == rows[..last][i := row];
      SumUpdate(rows[..last], i, row, f);
    }
  }

  lemma {:induction false} SumPlus<T>(rows: seq<T>, f: T -> int, g: T -> int, h: T -> int)
    requires forall i :: 0 <= i < |rows| ==> f(rows[i]) == g(rows[i]) + h(rows[i])
    ensures Sum(rows, f) == Sum(rows, g) + Sum(rows, h)
  {
    if rows != [] { SumPlus(rows[..|rows| - 1], f, g, h); }
  }

  lemma {:induction false} SumZero<T>(rows: seq<T>, f: T -> int)
    requires forall i :: 0 <= i < |rows| ==> f(rows[i]) == 0
    ensures Sum(rows, f) == 0
  {
    if rows != [] {
      SumZero(rows[..|rows| - 1], f);
    }
  }

  lemma {:induction false} SumSame<S, T>(a: seq<S>, f: S -> int, b: seq<T>, g: T -> int)
    requires |a| == |b|
    requires forall i :: 0 <= i < |a| ==> f(a[i]) == g(b[i])
    ensures Sum(a, f) == Sum(b, g)
  {
    if a != [] {
      SumSame(a[..|a| - 1], f, b[..|b| - 1], g);
    }
  }

  lemma {:induction false} SumBoundsRow<T>(rows: seq<T>, i: nat, f: T -> int)
    requires i < |rows|
    requires forall k :: 0 <= k < |rows| ==> 0 <= f(rows[k])
    ensures 0 <= f(rows[i]) <= Sum(rows, f)
  {
    SumNonNegative(rows[..|rows| - 1], f);
    if i < |rows| - 1 {
      SumBoundsRow(rows[..|rows| - 1], i, f);
    }
  }

  lemma {:induction false} SumNonNegative<T>(rows: seq<T>, f: T -> int)
    requires forall k :: 0 <= k < |rows| ==> 0 <= f(rows[k])
    ensures 0 <= Sum(rows, f)
  {
    if rows != [] {
      SumNonNegative(rows[..|rows| - 1], f);
    }
  }

  /** Only row `i` contributes. */
  lemma {:induction false} SumSingle<T>(rows: seq<T>, i: nat, f: T -> int)
    requires i < |rows|
    requires forall k :: 0 <= k < |rows| && k != i ==> f(rows[k]) == 0
    ensures Sum(rows, f) == f(rows[i])
  {
    var last := |rows| - 1;
    if i == last {
      SumZero(rows[..last], f);
    } else {
      SumSingle(rows[..last], i, f);
    }
  }

  /** Total of a Go map of amounts. Go visits a map in an unspecified order; `TakeKey` below says the order is
      immaterial. */
  ghost function SumMap<K>(m: map<K, int>): int
  {
    if m == map[] then 0
    else
      var k :| k in m;
      m[k] + SumMap(m - {k})
  }

  lemma RemoveKey<K, V>(m: map<K, V>, k: K)
    requires k in m
    ensures |m - {k}| == |m| - 1
  {
    assert m.Keys == (m - {k}).Keys + {k};
  }

  lemma {:induction false} TakeKey<K>(m: map<K, int>, k: K)
    requires k in m
    ensures SumMap(m) == m[k] + SumMap(m - {k})
    decreases |m|
  {
    var first :| first in m && SumMap(m) == m[first] + SumMap(m - {first});
    if first != k {
      var rest := m - {first};
      assert |m| == |rest| + 1 by { assert m.Keys == rest.Keys + {first}; }
      TakeKey(rest, k);
      assert rest - {k} == (m - {k}) - {first};
      assert |m - {k}| < |m| by { assert m.Keys == (m - {k}).Keys + {k}; }
      TakeKey(m - {k}, first);
    }
  }

  lemma SumEmpty<K>()
    ensures SumMap<K>(map[]) == 0
  {
  }

  lemma PutKey<K>(m: map<K, int>, k: K, v: int)
    ensures SumMap(m[k := v]) == SumMap(m) - (if k in m then m[k] else 0) + v
  {
    TakeKey(m[k := v], k);
    if k in m {
      TakeKey(m, k);
      assert m[k := v] - {k} == m - {k};
    } else {
      assert m[k := v] - {k} == m;
    }
  }
}
