/**
 * The mathematics the engines borrow from the C library and from the host's
 * DSP helpers. Their real values play no part in any property stated here, so
 * they enter the model as a record of opaque functions and one constant,
 * passed to every member that uses them.
 */
module Transcendental {

  /** M_PI, as the C headers spell the literal. */
  const Pi: real := 3.14159265358979323846

  /**
   * `sin`, `cos` and `pow` from <cmath>, and the host's reference frequency of
   * middle C (`dsp::FREQ_C4`).
   */
  datatype Maths = Maths(sin: real -> real, cos: real -> real, pow: (real, real) -> real, freqC4: real)

  /** `std::abs` on a float. */
  function Abs(x: real): (r: real)
    ensures r >= 0.0
    ensures r == x || r == -x
  {
    if x < 0.0 then -x else x
  }

  /** `x - std::floor(x)`: the fractional part of x. */
  function Fraction(x: real): (r: real)
    ensures 0.0 <= r < 1.0
    ensures (x - r).Floor as real == x - r
  {
    x - x.Floor as real
  }

  /** Helper: a product of two non-negative reals is non-negative. */
  lemma MulNonNegative(a: real, b: real)
    requires a >= 0.0 && b >= 0.0
    ensures a * b >= 0.0
  {
  }

  /** Helper: a square is non-negative. */
  lemma SquareNonNegative(a: real)
    ensures a * a >= 0.0
  {
  }

  /** Helper: a product is zero only when a factor is. */
  lemma MulZero(a: real, b: real)
    ensures a * b == 0.0 <==> a == 0.0 || b == 0.0
  {
  }
}
