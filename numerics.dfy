/**
  The floating-point primitives the conversions call (np.sqrt, np.cbrt, `**` with a
  non-integer exponent, np.cos, np.arccos, np.arctan2) are not computed here: they
  are supplied by the caller as a `Numerics` value. The model makes no assumption
  about them except where a lemma states, as a precondition, the one algebraic fact
  it needs (a square root squares back, a cube root cubes back, ...).
*/
module Numerics {

  import RealAlgebra

  /** The non-integer exponents as they appear in the formulas. */
  const OneThird: real := 1.0 / 3.0
  const TwoThirds: real := 2.0 / 3.0
  const FiveThirds: real := 5.0 / 3.0

  type PositiveReal = x: real | x > 0.0 witness 1.0

  datatype Numerics = Numerics(
    sqrt: real -> real,          // np.sqrt
    cbrt: real -> real,          // np.cbrt
    pow: (real, real) -> real,   // x ** e for a non-integer exponent e
    cos: real -> real,           // np.cos
    arccos: real -> real,        // np.arccos
    atan2: (real, real) -> real, // np.arctan2(y, x)
    pi: PositiveReal,            // np.pi
    solarMass: PositiveReal      // the solar mass in kg
  )

  /** np.sqrt returns the non-negative square root of a non-negative argument. */
  ghost predicate SqrtIsRoot(n: Numerics)
  {
    forall x :: x >= 0.0 ==> n.sqrt(x) >= 0.0 && n.sqrt(x) * n.sqrt(x) == x
  }

  /** `x ** 0.5` is the non-negative square root of a non-negative x. */
  ghost predicate HalfPowerIsRoot(n: Numerics)
  {
    forall x :: x >= 0.0 ==> n.pow(x, 0.5) >= 0.0 && n.pow(x, 0.5) * n.pow(x, 0.5) == x
  }

  /** np.cbrt is the real cube root. */
  ghost predicate CbrtIsRoot(n: Numerics)
  {
    forall x :: n.cbrt(x) * n.cbrt(x) * n.cbrt(x) == x
  }

  /** `x ** (1/3)` is the cube root of a positive x. */
  ghost predicate ThirdPowerIsRoot(n: Numerics)
  {
    forall x :: x > 0.0 ==> n.pow(x, OneThird) * n.pow(x, OneThird) * n.pow(x, OneThird) == x
  }

  /** `x ** (2/3)` cubes to x squared for a positive x. */
  ghost predicate TwoThirdsPowerIsRoot(n: Numerics)
  {
    forall x :: x > 0.0 ==> n.pow(x, TwoThirds) * n.pow(x, TwoThirds) * n.pow(x, TwoThirds) == x * x
  }

  /** The exponents of the chirp-mass formulas: x ** 0.2, x ** 0.6 and x ** 1.2 are
      the positive fifth roots of x, x^3 and x^6 for a positive x. */
  ghost predicate ChirpPowersAreRoots(n: Numerics)
  {
    forall x :: x > 0.0 ==>
      && n.pow(x, 0.2) > 0.0 && n.pow(x, 0.6) > 0.0 && n.pow(x, 1.2) > 0.0
      && FifthPower(n.pow(x, 0.2)) == x
      && FifthPower(n.pow(x, 0.6)) == x * x * x
      && FifthPower(n.pow(x, 1.2)) == x * x * x * x * x * x
  }

  /** `x ** (5/3)` is the positive cube root of x^5 for a positive x. */
  ghost predicate FiveThirdsPowerIsRoot(n: Numerics)
  {
    forall x :: x > 0.0 ==>
      n.pow(x, FiveThirds) > 0.0 && n.pow(x, FiveThirds) * n.pow(x, FiveThirds) * n.pow(x, FiveThirds) == x * x * x * x * x
  }

  /** x^5, unfolded on demand through RealAlgebra.PowerFive. */
  function FifthPower(x: real): real
  {
    RealAlgebra.Power(x, 5)
  }
}
