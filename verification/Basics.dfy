// What several modules share.
module Basics {

  datatype Option<+T> = None | Some(value: T)

  function Min(x: int, y: int): int { if x < y then x else y }

  function Max(x: int, y: int): int { if x < y then y else x }

  lemma Multiples(n: int, d: nat)
    ensures n >= 1 ==> n * d >= d
    ensures n >= 0 ==> n * d >= 0
    ensures n >= 2 ==> n * d >= 2 * d
  {
    if n >= 1 { assert n * d == (n - 1) * d + d; }
    if n >= 2 { assert n * d == (n - 2) * d + 2 * d; }
  }

  lemma DivMod(x: int, d: nat, q: int, r: int)
    requires x == q * d + r && 0 <= r < d
    ensures x / d == q && x % d == r
  {
    var p := x / d;
    assert x == p * d + x % d;
    assert (q - p) * d == q * d - p * d && (p - q) * d == p * d - q * d;
    Multiples(q - p, d);
    Multiples(p - q, d);
  }

  lemma Parts(p: nat, d: nat)
    requires d > 0
    ensures p == p / d * d + p % d && p % d < d
  {
  }

  /** Division of integers rounded up, for a positive divisor. */
  function DivCeil(a: int, b: int): int
    requires b > 0
  {
    (a + b - 1) / b
  }

  /** The least number of parts of size b that hold a. */
  lemma DivCeilIsLeast(a: int, b: int, x: int)
    requires b > 0
    ensures DivCeil(a, b) <= x <==> a <= x * b
  {
    var c := DivCeil(a, b);
    assert c * b <= a + b - 1 < c * b + b;
    assert (x - c) * b == x * b - c * b && (c - x) * b == c * b - x * b;
    Multiples(x - c, b);
    Multiples(c - x, b);
  }
}
