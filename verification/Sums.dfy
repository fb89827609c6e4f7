/** Finite sums of real terms. */
module Sums {

  /** f(0) + ... + f(n - 1), added up from the left as the loops do. */
  function Sum(n: nat, f: int -> real): real
  {
    if n == 0 then 0.0 else Sum(n - 1, f) + f(n - 1)
  }

  /** The product, as a named function: equal factors then give equal products without
      any arithmetic. */
  function Times(a: real, b: real): real { a * b }

  lemma {:induction false} SumEqual(n: nat, f: int -> real, g: int -> real)
    requires forall i | 0 <= i < n :: f(i) == g(i)
    ensures Sum(n, f) == Sum(n, g)
  {
    if n > 0 { SumEqual(n - 1, f, g); }
  }

  lemma {:induction false} SumAtMost(n: nat, f: int -> real, g: int -> real)
    requires forall i | 0 <= i < n :: f(i) <= g(i)
    ensures Sum(n, f) <= Sum(n, g)
  {
    if n > 0 { SumAtMost(n - 1, f, g); }
  }

  lemma {:induction false} SumPositive(n: nat, f: int -> real)
    requires forall i | 0 <= i < n :: f(i) > 0.0
    ensures Sum(n, f) >= 0.0 && (n > 0 ==> Sum(n, f) > 0.0)
  {
    if n > 0 { SumPositive(n - 1, f); }
  }

  lemma {:induction false} SumOfZero(n: nat)
    ensures Sum(n, _ => 0.0) == 0.0
  {
    if n > 0 { SumOfZero(n - 1); }
  }

  lemma {:induction false} SumAdds(n: nat, f: int -> real, g: int -> real)
    ensures Sum(n, i => f(i) + g(i)) == Sum(n, f) + Sum(n, g)
  {
    if n > 0 { SumAdds(n - 1, f, g); }
  }

  lemma {:induction false} SumScales(n: nat, f: int -> real, k: real)
    ensures Sum(n, i => Times(f(i), k)) == Times(Sum(n, f), k)
  {
    if n > 0 {
      SumScales(n - 1, f, k);
      Distribute(Sum(n - 1, f), f(n - 1), k);
    }
  }

  lemma {:induction false} SumOfConstant(n: nat, k: real)
    ensures Sum(n, _ => k) == Times(n as real, k)
  {
    if n > 0 {
      SumOfConstant(n - 1, k);
      Distribute((n - 1) as real, 1.0, k);
    }
  }

  lemma {:induction false} SumOfIndices(n: nat)
    ensures 2.0 * Sum(n, (i: int) => i as real) == Times(n as real, (n - 1) as real)
  {
    if n > 0 { SumOfIndices(n - 1); }
  }

  lemma Distribute(a: real, b: real, k: real)
    ensures Times(a + b, k) == Times(a, k) + Times(b, k)
  {
  }

  // ----- sums over a rectangle

  function Row(f: (int, int) -> real, i: int): int -> real { (j: int) => f(i, j) }

  /** The sums of the rows of f, each of length n. */
  function RowSums(f: (int, int) -> real, n: nat): int -> real { (i: int) => Sum(n, Row(f, i)) }

  function GridSum(m: nat, n: nat, f: (int, int) -> real): real { Sum(m, RowSums(f, n)) }

  function Turned(f: (int, int) -> real): (int, int) -> real { (j: int, i: int) => f(i, j) }

  lemma GridEqual(m: nat, n: nat, f: (int, int) -> real, g: (int, int) -> real)
    requires forall i, j | 0 <= i < m && 0 <= j < n :: f(i, j) == g(i, j)
    ensures GridSum(m, n, f) == GridSum(m, n, g)
  {
    forall i | 0 <= i < m
      ensures RowSums(f, n)(i) == RowSums(g, n)(i)
    {
      SumEqual(n, Row(f, i), Row(g, i));
    }
    SumEqual(m, RowSums(f, n), RowSums(g, n));
  }

  lemma GridAtMost(m: nat, n: nat, f: (int, int) -> real, g: (int, int) -> real)
    requires forall i, j | 0 <= i < m && 0 <= j < n :: f(i, j) <= g(i, j)
    ensures GridSum(m, n, f) <= GridSum(m, n, g)
  {
    forall i | 0 <= i < m
      ensures RowSums(f, n)(i) <= RowSums(g, n)(i)
    {
      SumAtMost(n, Row(f, i), Row(g, i));
    }
    SumAtMost(m, RowSums(f, n), RowSums(g, n));
  }

  lemma GridScales(m: nat, n: nat, f: (int, int) -> real, k: real)
    ensures GridSum(m, n, (i, j) => Times(f(i, j), k)) == Times(GridSum(m, n, f), k)
  {
    var g := (i: int, j: int) => Times(f(i, j), k);
    forall i | 0 <= i < m
      ensures RowSums(g, n)(i) == Times(RowSums(f, n)(i), k)
    {
      SumScales(n, Row(f, i), k);
      SumEqual(n, Row(g, i), j => Times(Row(f, i)(j), k));
    }
    SumEqual(m, RowSums(g, n), i => Times(RowSums(f, n)(i), k));
    SumScales(m, RowSums(f, n), k);
    GridEqual(m, n, g, (i, j) => Times(f(i, j), k));
  }

  /** Sums over a rectangle may be taken by rows or by columns. */
  lemma {:induction false} GridTurns(m: nat, n: nat, f: (int, int) -> real)
    ensures GridSum(m, n, f) == GridSum(n, m, Turned(f))
  {
    var columns := RowSums(Turned(f), m);
    if m == 0 {
      SumEqual(n, columns, _ => 0.0);
      SumOfZero(n);
    } else {
      var rest := RowSums(Turned(f), m - 1);
      var last := Row(f, m - 1);
      forall j | 0 <= j < n
        ensures columns(j) == rest(j) + last(j)
      {
        assert Sum(m, Row(Turned(f), j)) == Sum(m - 1, Row(Turned(f), j)) + Row(Turned(f), j)(m - 1);
      }
      GridTurns(m - 1, n, f);
      SumAdds(n, rest, last);
      SumEqual(n, columns, j => rest(j) + last(j));
    }
  }

  lemma {:induction false} SumSplits(m: nat, n: nat, f: int -> real)
    ensures Sum(m + n, f) == Sum(m, f) + Sum(n, i => f(m + i))
  {
    if n > 0 {
      SumSplits(m, n - 1, f);
    }
  }

  /** Terms may be added in the opposite order. */
  lemma {:induction false} SumReversed(n: nat, f: int -> real, g: int -> real)
    requires forall i | 0 <= i < n :: g(i) == f(n - 1 - i)
    ensures Sum(n, g) == Sum(n, f)
  {
    if n > 0 {
      var rest := (i: int) => f(1 + i);
      SumReversed(n - 1, rest, g);
      SumSplits(1, n - 1, f);
      SumEqual(n - 1, rest, i => f(1 + i));
      assert Sum(1, f) == Sum(0, f) + f(0);
    }
  }

  /** A flat sum is the sum over the rectangle it lists row by row. */
  lemma {:induction false} SumByRows(m: nat, n: nat, f: int -> real, g: (int, int) -> real)
    requires forall i, j | 0 <= i < m && 0 <= j < n :: g(i, j) == f(i * n + j)
    ensures Sum(m * n, f) == GridSum(m, n, g)
  {
    if m > 0 {
      SumByRows(m - 1, n, f, g);
      assert m * n == (m - 1) * n + n;
      SumSplits((m - 1) * n, n, f);
      SumEqual(n, Row(g, m - 1), j => f((m - 1) * n + j));
    }
  }
}
