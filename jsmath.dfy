/** JavaScript's numeric rounding primitives used by the calculator, over exact reals.
    Math.round rounds to the nearest integer with halves going toward +infinity;
    Number.prototype.toFixed(1) rounds the magnitude to one decimal with halves going up. */
module JsMath {

  /** n is the integer nearest x; a tie (x exactly halfway) belongs to the upper integer. */
  predicate IsNearest(n: int, x: real) {
    n as real - 0.5 <= x < n as real + 0.5
  }

  /** At most one integer is nearest a given real, so IsNearest determines Math.round. */
  lemma NearestIsUnique(m: int, n: int, x: real)
    requires IsNearest(m, x) && IsNearest(n, x)
    ensures m == n
  {
  }

  /** Math.round(x). */
  function Round(x: real): (n: int)
    ensures IsNearest(n, x)
    ensures x == x.Floor as real ==> n == x.Floor
  {
    (x + 0.5).Floor
  }

  /** Math.round never decreases when its argument grows. */
  lemma RoundMonotone(x: real, y: real)
    requires x <= y
    ensures Round(x) <= Round(y)
  {
  }

  /** r lies on the grid of one-decimal numbers. */
  predicate OneDecimal(r: real) {
    (10.0 * r).Floor as real == 10.0 * r
  }

  /** parseFloat(x.toFixed(1)): the magnitude is rounded to the nearest tenth with halves
      going up, and the sign is put back. */
  function ToFixed1(x: real): (r: real)
    ensures OneDecimal(r)
    ensures -0.05 <= r - x <= 0.05
    ensures x >= 0.0 ==> IsNearest((10.0 * r).Floor, 10.0 * x)
  {
    var n := if x < 0.0 then -Round(-10.0 * x) else Round(10.0 * x);
    assert 10.0 * (n as real / 10.0) == n as real;
    n as real / 10.0
  }

  /** toFixed(1) never decreases when its argument grows. */
  lemma ToFixed1Monotone(x: real, y: real)
    requires x <= y
    ensures ToFixed1(x) <= ToFixed1(y)
  {
    if x < 0.0 && y < 0.0 {
      RoundMonotone(-10.0 * y, -10.0 * x);
    } else if 0.0 <= x {
      RoundMonotone(10.0 * x, 10.0 * y);
    }
  }
}
