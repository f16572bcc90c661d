/**
  The integer helpers the mixer front end relies on: the CLAMP macro and
  C's division by two on `int`, which truncates toward zero (Dafny's `/`
  rounds toward minus infinity for negative dividends, so it is not used
  on values that may be negative).
*/
module CMacros {

  /** Distance between two integers. */
  function Dist(a: int, b: int): nat {
    if a <= b then b - a else a - b
  }

  /** CLAMP(x, low, high) as the macro is written: the upper bound is
      tested first, so with an empty range (low > high) a value above
      high becomes high and any other value becomes low. */
  function Clamp(x: int, low: int, high: int): (r: int)
    ensures low <= high ==> low <= r <= high
    ensures low <= x <= high ==> r == x
    ensures r == x || r == low || r == high
  {
    if x > high then high else if x < low then low else x
  }

  /** On a non-empty range, CLAMP picks the point of [low, high] nearest to x. */
  lemma ClampIsNearest(x: int, low: int, high: int, y: int)
    requires low <= y <= high
    ensures Dist(Clamp(x, low, high), x) <= Dist(y, x)
  {
  }

  /** CLAMP preserves order on a non-empty range. */
  lemma ClampIsMonotone(x: int, y: int, low: int, high: int)
    requires low <= high
    requires x <= y
    ensures Clamp(x, low, high) <= Clamp(y, low, high)
  {
  }

  /** C's `a / 2` on `int`: the quotient is truncated toward zero, so the
      remainder has the sign of the dividend. */
  function CHalf(a: int): (r: int)
    ensures a - 2 * r == 0 || a - 2 * r == (if a < 0 then -1 else 1)
    ensures Dist(2 * r, 0) <= Dist(a, 0)
  {
    if a >= 0 then a / 2 else -((-a) / 2)
  }

  /** The truncated average of two values of a range stays in the range. */
  lemma HalfOfSumInRange(a: int, b: int, low: int, high: int)
    requires low <= a <= high && low <= b <= high
    ensures low <= CHalf(a + b) <= high
  {
  }
}
