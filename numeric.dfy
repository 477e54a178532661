/** JavaScript's `Math.max`, `Math.min`, `Math.abs` and division, on exact
    reals, and the values `Math.random()` returns. */
module Numeric {

  function Max(a: real, b: real): (r: real)
    ensures r >= a && r >= b
    ensures r == a || r == b
  {
    if a >= b then a else b
  }

  function Min(a: real, b: real): (r: real)
    ensures r <= a && r <= b
    ensures r == a || r == b
  {
    if a <= b then a else b
  }

  function Abs(a: real): (r: real)
    ensures r >= 0.0
    ensures r == a || r == -a
  {
    if a >= 0.0 then a else -a
  }

  /** `Math.min` and `Math.max` on whole numbers (lengths, streaks). Dafny's
      `int` and `real` share no ordered supertype, so the integer forms are
      separate functions. */
  function MinInt(a: int, b: int): (r: int)
    ensures r <= a && r <= b
    ensures r == a || r == b
  {
    if a <= b then a else b
  }

  function MaxInt(a: int, b: int): (r: int)
    ensures r >= a && r >= b
    ensures r == a || r == b
  {
    if a >= b then a else b
  }

  /** `a / b`. JavaScript yields Infinity or NaN for a zero divisor; the model,
      which has no such values, yields 0 there. Every division that the
      simulator performs on well-formed data has a non-zero divisor. */
  function Quotient(a: real, b: real): real {
    if b == 0.0 then 0.0 else a / b
  }

  /** What a quotient is; kept out of `Quotient`'s own contract so that the
      solver only meets this product where a proof asks for it. */
  lemma QuotientTimes(a: real, b: real)
    requires b != 0.0
    ensures Quotient(a, b) * b == a
  {
  }

  lemma NonNegativeProduct(a: real, b: real)
    requires a >= 0.0 && b >= 0.0
    ensures a * b >= 0.0
  {
  }

  /** A value `Math.random()` can return. */
  predicate IsDraw(x: real) {
    0.0 <= x < 1.0
  }
}
