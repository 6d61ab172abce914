/** Shared wrappers and the arithmetic of the source language. */
module Prelude {
  datatype Option<+T> = None | Some(value: T)

  const MINUTE: int := 60_000
  const HOUR: int := 3_600_000

  /** Lengths in milliseconds. */
  function Minutes(m: int): int { m * 60_000 }

  function Days(d: int): int { d * 86_400_000 }

  function Min(a: int, b: int): int { if a <= b then a else b }

  function Max(a: int, b: int): int { if a <= b then b else a }

  /** JavaScript's `%`: the result takes the sign of the dividend. */
  function JsRem(a: int, n: int): int
    requires n > 0
  {
    if a >= 0 then a % n else -((-a) % n)
  }

  /** Quotient and remainder are unique. */
  lemma ModUnique(x: int, q: int, r: int, n: int)
    requires 0 <= r < n && x == q * n + r
    ensures x % n == r
  {
    var d := x / n - q;
    assert d * n == r - x % n;
    MulApart(d, n);
  }

  lemma MulApart(d: int, n: int)
    requires n > 0
    ensures d >= 1 ==> d * n >= n
    ensures d <= -1 ==> d * n <= -n
  {
    if d >= 1 { assert (d - 1) * n >= 0; }
    if d <= -1 { assert (d + 1) * n <= 0; }
  }

  lemma DivMod(x: int, n: int)
    requires n > 0
    ensures x == (x / n) * n + x % n && 0 <= x % n < n
  {
  }

  /** Numbers a multiple of `n` apart have the same remainder. */
  lemma ModCongruent(x: int, y: int, q: int, n: int)
    requires n > 0 && x == y + q * n
    ensures x % n == y % n
  {
    DivMod(y, n);
    var k := y / n;
    assert (k + q) * n == k * n + q * n;
    ModUnique(x, k + q, y % n, n);
  }

  /** The remainder of a number at most one turn out of range. */
  lemma ModWrap(x: int, n: int)
    requires -n <= x < 2 * n
    ensures x % n == if x < 0 then x + n else if x < n then x else x - n
  {
    if x < 0 { ModUnique(x, -1, x + n, n); } else if x < n { ModUnique(x, 0, x, n); } else { ModUnique(x, 1, x - n, n); }
  }

  function Members<T(==)>(s: seq<T>): set<T> { set x | x in s }

  /** A sequence without repetitions has as many members as places. */
  lemma {:induction false} DistinctCount<T>(s: seq<T>)
    requires forall i, j :: 0 <= i < j < |s| ==> s[i] != s[j]
    ensures |Members(s)| == |s|
  {
    if s != [] {
      DistinctCount(s[1..]);
      assert s[0] !in s[1..];
      assert Members(s) == {s[0]} + Members(s[1..]);
    }
  }

  lemma {:induction false} SubsetCount<T>(a: set<T>, b: set<T>)
    requires a <= b
    ensures |a| <= |b|
    decreases a
  {
    if x :| x in a {
      SubsetCount(a - {x}, b - {x});
    }
  }
}
