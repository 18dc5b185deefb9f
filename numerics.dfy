/** The C# numeric conversions the controller relies on, written out over
    unbounded integers and reals. */
module Numerics {
  const Int32Min: int := -0x8000_0000
  const Int32Max: int := 0x7FFF_FFFF

  /** The C# cast `(int)x` of a double: truncation toward zero.
      For negative x this is not `x.Floor`: `(int)(-0.5)` is 0. */
  function Trunc(x: real): (r: int)
    ensures 0.0 <= x ==> r as real <= x < r as real + 1.0
    ensures x < 0.0 ==> r as real - 1.0 < x <= r as real
  {
    if x >= 0.0 then x.Floor else -((-x).Floor)
  }

  /** Truncation is odd, which `Floor` is not. */
  lemma TruncOdd(x: real)
    ensures Trunc(-x) == -Trunc(x)
  {
  }

  /** Truncation never increases the magnitude and never flips the sign. */
  lemma TruncShrinks(x: real)
    ensures 0.0 <= x ==> 0 <= Trunc(x) && Trunc(x) as real <= x
    ensures x <= 0.0 ==> Trunc(x) <= 0 && x <= Trunc(x) as real
  {
  }

  /** A normalised value scaled by the device gain: `(int)(gain * x)`. */
  function Scale(gain: int, x: real): int
  {
    TruncProduct(gain as real, x)
  }

  /** `(int)(g * x)` once the gain has been converted to a double. */
  function TruncProduct(g: real, x: real): int
  {
    Trunc(g * x)
  }

  /** With a gain in DirectInput's nominal range 0..10000 and an input in
      [-1, 1], the scaled value stays within [-gain, gain], so the device
      unit never leaves the 32-bit range. */
  lemma ScaleWithinGain(gain: int, x: real)
    requires 0 <= gain <= 10000
    requires -1.0 <= x <= 1.0
    ensures -gain <= Scale(gain, x) <= gain
    ensures Int32Min <= Scale(gain, x) <= Int32Max
  {
    TruncProductWithin(gain as real, x);
    RealBoundToInt(Scale(gain, x), gain);
  }

  /** The same bound over the reals: `Trunc(g * x)` lies in [-g, g]. */
  lemma TruncProductWithin(g: real, x: real)
    requires 0.0 <= g
    requires -1.0 <= x <= 1.0
    ensures -g <= TruncProduct(g, x) as real <= g
  {
    MulWithinUnit(g, x);
    TruncWithin(g * x, g);
  }

  /** Truncation keeps a value inside any bound around zero. */
  lemma TruncWithin(y: real, b: real)
    requires -b <= y <= b
    ensures -b <= Trunc(y) as real <= b
  {
  }

  lemma MulWithinUnit(g: real, x: real)
    requires 0.0 <= g
    requires -1.0 <= x <= 1.0
    ensures -g <= g * x <= g
  {
    MulNonNegative(g, 1.0 - x);
    MulNonNegative(g, 1.0 + x);
    assert g * (1.0 - x) == g - g * x;
    assert g * (1.0 + x) == g + g * x;
  }

  lemma MulNonNegative(a: real, b: real)
    requires 0.0 <= a && 0.0 <= b
    ensures 0.0 <= a * b
  {
  }

  lemma MulMonotone(g: real, a: real, b: real)
    requires 0.0 <= g
    requires a <= b
    ensures g * a <= g * b
  {
    MulNonNegative(g, b - a);
    assert g * (b - a) == g * b - g * a;
  }

  /** A bound on an integer's real value is a bound on the integer. */
  lemma RealBoundToInt(t: int, b: int)
    requires -(b as real) <= t as real <= b as real
    ensures -b <= t <= b
  {
  }
}
