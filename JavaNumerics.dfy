/**
 * The Java numeric operators the sliders use on `float` values, written out
 * over Dafny's unbounded `real` and `int`.
 */
module JavaNumerics {

  /**
   * The narrowing cast `(int) x` from `float`: truncation toward zero, so
   * that `(int) 2.7f == 2` and `(int) -2.7f == -2`.
   */
  function FloatToInt(x: real): (n: int)
    ensures 0.0 <= x ==> 0 <= n && n as real <= x < n as real + 1.0
    ensures x < 0.0 ==> n <= 0 && n as real - 1.0 < x <= n as real
  {
    if x >= 0.0 then x.Floor else -((-x).Floor)
  }

  /** The cast is the identity on values that are already whole. */
  lemma FloatToIntOfInt(k: int)
    ensures FloatToInt(k as real) == k
  {
  }

  /** The cast never reverses the order of two values. */
  lemma FloatToIntMonotone(x: real, y: real)
    requires x <= y
    ensures FloatToInt(x) <= FloatToInt(y)
  {
  }

  /** `Math.min(x, 1.0f)`: the upper cap the setters put on a position. */
  function MinOne(x: real): (r: real)
    ensures r <= 1.0 && r <= x
    ensures r == x || r == 1.0
  {
    if x <= 1.0 then x else 1.0
  }
}
