/**
  Real-number stand-ins for the C numeric library.

  The filters compute in IEEE floating point; the model computes in exact reals. The
  transcendental functions are not defined here: every operation that needs one receives it as
  a function-valued parameter of type `Libm`, so that nothing is assumed about it beyond what a
  contract explicitly asks for.
*/
module Numerics {

  /** The value of `M_PI` in `common.h`, as a decimal literal. */
  const Pi: real := 3.14159265358979323846

  /** The value of `M_SQRT2PI` in `convolve_iir_deriche.cxx`. */
  const Sqrt2Pi: real := 2.50662827463100050241576528481104525

  /** The transcendental functions the source calls, left uninterpreted. */
  datatype Libm = Libm(exp: real -> real, sqrt: real -> real, atan2: (real, real) -> real,
                       cos: real -> real, sin: real -> real)

  /**
    IEEE division. Division by zero yields an infinity or NaN in the source; reals have no such
    value, so the model yields 0, and no property of this model relies on that value.
  */
  function Div(a: real, b: real): (r: real)
    ensures b != 0.0 ==> r * b == a
    ensures b == 0.0 ==> r == 0.0
  {
    if b == 0.0 then 0.0 else a / b
  }

  /** C's `floor`, as an integer. */
  function Floor(x: real): (r: int)
    ensures r as real <= x < r as real + 1.0
  {
    x.Floor
  }

  /** C's `ceil`, as an integer. */
  function Ceil(x: real): (r: int)
    ensures r as real - 1.0 < x <= r as real
  {
    -((-x).Floor)
  }

  /** C's `fabs`. */
  function Abs(x: real): (r: real)
    ensures r >= 0.0 && (r == x || r == -x)
  {
    if x < 0.0 then -x else x
  }

  /** `pow(b, n)` for a non-negative integer exponent, which is exact over the reals. */
  function IntPow(b: real, n: nat): real
  {
    if n == 0 then 1.0 else b * IntPow(b, n - 1)
  }

  /** The factorial `n!`, computed in the source by a multiplication loop. */
  function Factorial(n: nat): (r: nat)
    ensures r >= 1
  {
    if n <= 1 then 1 else n * Factorial(n - 1)
  }
}
