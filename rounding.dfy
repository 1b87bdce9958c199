/** PHP's `round($x, 2)` on exact reals. */
module Rounding {

  /** The integer nearest to `y`, halves away from zero. */
  function Nearest(y: real): (k: int)
    ensures y - 0.5 <= k as real <= y + 0.5
    ensures k as real - y == 0.5 ==> y > 0.0
    ensures y - k as real == 0.5 ==> y < 0.0
  {
    if y >= 0.0 then (y + 0.5).Floor else -((-y + 0.5).Floor)
  }

  /**
   * `round($x, 2)`: to two decimals, halves away from zero. The result is
   * within half a hundredth of `x` and has no third decimal.
   */
  function Round2(x: real): (r: real)
    ensures -0.005 <= r - x <= 0.005
    ensures (r * 100.0).Floor as real == r * 100.0
    ensures r - x == 0.005 ==> x > 0.0
    ensures x - r == 0.005 ==> x < 0.0
  {
    var k := Nearest(x * 100.0);
    assert (k as real / 100.0) * 100.0 == k as real;
    assert (k as real).Floor == k;
    k as real / 100.0
  }
}
