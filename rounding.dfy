/**
 * JavaScript's `Math.round((part / whole) * 100)`, stated in integers.
 * `Math.round` rounds to the nearest integer and sends halves up, so for
 * `whole > 0` the value is `floor(100 * part / whole + 1/2)`.
 */
module Rounding {

  function RoundedPercent(part: int, whole: int): (r: int)
    requires whole > 0
    // r - 1/2 <= 100 * part / whole < r + 1/2, multiplied through by 2 * whole
    ensures 2 * whole * r - whole <= 200 * part < 2 * whole * r + whole
  {
    var q := (200 * part + whole) / (2 * whole);
    DivBounds(200 * part + whole, 2 * whole);
    q
  }

  lemma DivBounds(a: int, b: int)
    requires b > 0
    ensures b * (a / b) <= a < b * (a / b) + b
  {
  }

  /** The rounding property pins the percentage down: no other integer has it. */
  lemma {:induction false} RoundedPercentUnique(part: int, whole: int, s: int)
    requires whole > 0
    requires 2 * whole * s - whole <= 200 * part < 2 * whole * s + whole
    ensures s == RoundedPercent(part, whole)
  {
    var r := RoundedPercent(part, whole);
    if s < r {
      MulMonotone(2 * whole, s + 1, r);
    } else if s > r {
      MulMonotone(2 * whole, r + 1, s);
    }
  }

  lemma MulMonotone(k: int, x: int, y: int)
    requires k > 0 && x <= y
    ensures k * x <= k * y
  {
  }

  /** A share of a whole rounds to a percentage between 0 and 100. */
  lemma {:induction false} RoundedPercentInRange(part: int, whole: int)
    requires 0 <= part <= whole && whole > 0
    ensures 0 <= RoundedPercent(part, whole) <= 100
  {
    var r := RoundedPercent(part, whole);
    if r < 0 {
      MulMonotone(2 * whole, r, -1);
    }
    if r > 100 {
      MulMonotone(2 * whole, 101, r);
      MulMonotone(200, part, whole);
    }
  }

  /** All of the whole is 100 percent, none of it is 0 percent. */
  lemma {:induction false} RoundedPercentExtremes(whole: int)
    requires whole > 0
    ensures RoundedPercent(whole, whole) == 100
    ensures RoundedPercent(0, whole) == 0
  {
    RoundedPercentUnique(whole, whole, 100);
    RoundedPercentUnique(0, whole, 0);
  }
}
