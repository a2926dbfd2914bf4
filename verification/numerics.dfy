/**
  Numeric conventions shared by the DSP building blocks.

  The C++ code works on `float`; this model uses exact `real` arithmetic.
  `M_PI` is held as the exact decimal the C library spells, and the C
  float-to-int conversion (truncation toward zero) is written out.
 */
module Numerics {

  /** `M_PI` as written in the C math header, taken as an exact rational. */
  const PI: real := 3.14159265358979323846

  /** `fTwoPI` of the oscillator: one full cycle of phase. */
  const TWO_PI: real := 2.0 * PI

  /** `y` lies on the closed segment between `u` and `w`, in either order. */
  predicate Between(y: real, u: real, w: real) {
    (u <= y <= w) || (w <= y <= u)
  }

  /** `x` has no fractional part. */
  predicate IsWhole(x: real) {
    x.Floor as real == x
  }

  /** C's conversion of a floating value to `int`: truncation toward zero. */
  function Trunc(x: real): (n: int)
    ensures 0.0 <= x ==> 0 <= n && n as real <= x < n as real + 1.0
    ensures x < 0.0 ==> n <= 0 && n as real - 1.0 < x <= n as real
  {
    if x >= 0.0 then x.Floor else -((-x).Floor)
  }

  /** The least integer not below `x`. */
  function Ceil(x: real): (n: int)
    ensures n as real - 1.0 < x <= n as real
  {
    -((-x).Floor)
  }

  /** Converting an `int` to floating and back loses nothing. */
  lemma TruncOfWhole(n: int)
    ensures Trunc(n as real) == n
  {
  }

  /** Truncation of a whole value is exact, whatever its sign. */
  lemma TruncWhole(x: real)
    requires IsWhole(x)
    ensures Trunc(x) as real == x
  {
    if x < 0.0 {
      assert (-x).Floor == -(x.Floor);
    }
  }

  /** A product of two non-negative values is non-negative. */
  lemma MulNonNeg(x: real, y: real)
    requires 0.0 <= x && 0.0 <= y
    ensures 0.0 <= x * y
  {
  }

  /** A non-negative value over a positive one is non-negative. */
  lemma DivNonNeg(x: real, y: real)
    requires 0.0 <= x && 0.0 < y
    ensures 0.0 <= x / y
  {
  }

  /** A value at most `b * y` over a positive `y` is at most `b`. */
  lemma DivAtMost(x: real, y: real, b: real)
    requires 0.0 < y && x <= b * y
    ensures x / y <= b
  {
    DivNonNeg(b * y - x, y);
    assert (b * y - x) / y == b - x / y;
  }

  /** A square is non-negative. */
  lemma SquareNonNeg(x: real)
    ensures 0.0 <= x * x
  {
    if x < 0.0 {
      MulNonNeg(-x, -x);
    }
  }

  /**
    Linear blend `u + (w - u) * t` with a weight in [0, 1] stays between its
    end points. This one fact carries both the smoother's convex combination
    and the delay line's interpolated read.
   */
  lemma Lerp(u: real, w: real, t: real)
    requires 0.0 <= t <= 1.0
    ensures Between(u + (w - u) * t, u, w)
  {
    if u <= w {
      MulNonNeg(w - u, t);
      MulNonNeg(w - u, 1.0 - t);
    } else {
      MulNonNeg(u - w, t);
      MulNonNeg(u - w, 1.0 - t);
    }
  }
}
