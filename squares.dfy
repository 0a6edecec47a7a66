/**
 * `Math.pow(x, 2)` and the facts about squares over the reals that the statistics need.
 * Each fact is stated on `Square` so that callers reason about one term per square.
 */
module Squares {

  /** `Math.pow(x, 2)`. */
  function Square(x: real): real
  {
    x * x
  }

  /** A square is never negative. */
  lemma SquareNonnegative(x: real)
    ensures Square(x) >= 0.0
  {
  }

  /** The square of a non-zero number is positive. */
  lemma SquarePositive(x: real)
    requires x != 0.0
    ensures Square(x) > 0.0
  {
    calc {
      Square(x);
      x * x;
    > { assert x * x > 0.0; }
      0.0;
    }
  }

  /** Squaring is strictly increasing on the non-negative reals. */
  lemma SquareMonotonic(x: real, y: real)
    requires 0.0 <= x < y
    ensures Square(x) < Square(y)
  {
    calc {
      Square(x);
      x * x;
    <= { assert x * x <= x * y; }
      x * y;
    < { assert x * y < y * y; }
      y * y;
      Square(y);
    }
  }

  /** Two non-negative numbers with the same square are equal. */
  lemma SquareInjective(x: real, y: real)
    requires x >= 0.0 && y >= 0.0 && Square(x) == Square(y)
    ensures x == y
  {
    if x < y { SquareMonotonic(x, y); }
    if y < x { SquareMonotonic(y, x); }
  }

  /** A number whose square is at most d * d, divided by d > 0, lies in [-1, 1]. */
  lemma RatioBound(n: real, d: real)
    requires d > 0.0 && Square(n) <= Square(d)
    ensures -1.0 <= n / d <= 1.0
  {
    assert Square(-n) == Square(n);
    if n > d { SquareMonotonic(d, n); }
    if -n > d { SquareMonotonic(d, -n); }
    assert n / d * d == n;
  }
}
