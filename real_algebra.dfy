/**
  Facts of real arithmetic that the conversion lemmas share. Each one is small on
  purpose: the solver proves products of distinct atoms easily but not the sign of
  a square, so squares go through SquarePositiveAt and friends.
*/
module RealAlgebra {

  // ---------------------------------------------------------------------------
  // Signs of products
  // ---------------------------------------------------------------------------

  lemma MulPositive(a: real, b: real)
    requires a > 0.0 && b > 0.0
    ensures a * b > 0.0
  {
  }

  lemma MulNonNegative(a: real, b: real)
    requires a >= 0.0 && b >= 0.0
    ensures a * b >= 0.0
  {
  }

  // The sign of a square is stated about a name k for it: the solver cannot use a
  // hypothesis "x * x > 0" directly, but it can use "k > 0" together with "k == x * x".

  lemma SquareNonNegativeAt(x: real, k: real)
    requires k == x * x
    ensures k >= 0.0
  {
  }

  lemma SquareNonZeroAt(x: real, k: real)
    requires x != 0.0 && k == x * x
    ensures k != 0.0
  {
    assert k * (1.0 / x) == x;
  }

  lemma SquareZeroIffAt(x: real, k: real)
    requires k == x * x
    ensures k == 0.0 <==> x == 0.0
  {
    if x != 0.0 {
      SquareNonZeroAt(x, k);
    }
  }

  lemma SquarePositiveAt(x: real, k: real)
    requires x != 0.0 && k == x * x
    ensures k > 0.0
  {
    SquareNonNegativeAt(x, k);
    SquareNonZeroAt(x, k);
  }

  lemma NonZeroFactors(a: real, b: real)
    requires a * b != 0.0
    ensures a != 0.0 && b != 0.0
  {
  }

  // ---------------------------------------------------------------------------
  // Cancellation and quotients
  // ---------------------------------------------------------------------------

  lemma ZeroProduct(a: real, b: real)
    requires a * b == 0.0 && b != 0.0
    ensures a == 0.0
  {
    assert a == (a * b) / b;
  }

  lemma CancelNonZero(a: real, b: real, c: real)
    requires c != 0.0 && a * c == b * c
    ensures a == b
  {
    assert (a - b) * c == 0.0;
    ZeroProduct(a - b, c);
  }

  lemma PositiveQuotient(q: real, d: real, p: real)
    requires d > 0.0 && p > 0.0 && q * d == p
    ensures q > 0.0
  {
    assert q == p / d;
  }

  lemma NonNegativeQuotient(q: real, d: real, p: real)
    requires d > 0.0 && p >= 0.0 && q * d == p
    ensures q >= 0.0
  {
    assert q == p / d;
  }

  lemma MulStrictMono(a: real, b: real, c: real, d: real)
    requires 0.0 < a < b && 0.0 < c < d
    ensures 0.0 < a * c < b * d
  {
    assert a * c < b * c;
    assert b * c < b * d;
  }

  /** 0 < x <= 1/2 and x y = 1 give y >= 2. */
  lemma AtMostOneFromSquare(r: real, k: real)
    requires r >= 0.0 && k == r * r && k <= 1.0
    ensures r <= 1.0
  {
    if r > 1.0 {
      MulStrictMono(1.0, r, 1.0, r);
    }
  }

  lemma ReciprocalAtLeastTwo(x: real, y: real)
    requires 0.0 < x <= 0.5 && x * y == 1.0
    ensures y >= 2.0
  {
    PositiveQuotient(y, x, 1.0);
    MulNonNegative(0.5 - x, y);
  }

  lemma ReciprocalAtMostOne(q: real, w: real)
    requires w >= 1.0 && q * w == 1.0
    ensures 0.0 < q <= 1.0
  {
    assert q == 1.0 / w;
  }

  lemma ProductAtMostOne(q: real, p: real)
    requires 0.0 < q <= 1.0 && 0.0 < p <= 1.0 && q * p == 1.0
    ensures q == 1.0 && p == 1.0
  {
    MulNonNegative(1.0 - q, p);
    MulNonNegative(q, 1.0 - p);
  }

  // ---------------------------------------------------------------------------
  // Cubes
  // ---------------------------------------------------------------------------

  lemma CubeMul(x: real, y: real)
    ensures (x * y) * (x * y) * (x * y) == (x * x * x) * (y * y * y)
  {
  }

  lemma CubeStrictMono(x: real, y: real)
    requires x < y
    ensures x * x * x < y * y * y
  {
    var w := x + y / 2.0;
    assert x * x + x * y + y * y == w * w + 3.0 * (y * y) / 4.0;
    SquareNonNegativeAt(w, w * w);
    if y == 0.0 {
      SquarePositiveAt(x, x * x);
      assert x * x + x * y + y * y == x * x;
    } else {
      SquarePositiveAt(y, y * y);
      assert w * w + 3.0 * (y * y) / 4.0 > 0.0;
    }
    MulPositive(y - x, x * x + x * y + y * y);
    assert y * y * y - x * x * x == (y - x) * (x * x + x * y + y * y);
  }

  lemma CubeInjective(x: real, y: real)
    requires x * x * x == y * y * y
    ensures x == y
  {
    if x < y {
      CubeStrictMono(x, y);
    } else if y < x {
      CubeStrictMono(y, x);
    }
  }

  function Cube(x: real): real
  {
    x * x * x
  }

  /** The cube map is one-to-one, stated about Cube so that it applies to compound arguments. */
  lemma CubeInjectiveAt(x: real, y: real)
    requires Cube(x) == Cube(y)
    ensures x == y
  {
    CubeInjective(x, y);
  }

  lemma CubeSign(x: real)
    ensures x <= 0.0 ==> x * x * x <= 0.0
  {
    if x < 0.0 {
      CubeStrictMono(x, 0.0);
    }
  }

  lemma CubePositive(x: real)
    requires x * x * x > 0.0
    ensures x > 0.0
  {
    CubeSign(x);
  }

  // ---------------------------------------------------------------------------
  // Fifth powers
  // ---------------------------------------------------------------------------

  /** x raised to a natural power. */
  function Power(x: real, n: nat): real
  {
    if n == 0 then 1.0 else x * Power(x, n - 1)
  }

  lemma {:induction false} PowerStrictMono(x: real, y: real, n: nat)
    requires 0.0 < x < y && n > 0
    ensures 0.0 < Power(x, n) < Power(y, n)
  {
    if n > 1 {
      PowerStrictMono(x, y, n - 1);
      MulStrictMono(Power(x, n - 1), Power(y, n - 1), x, y);
    }
  }

  lemma {:induction false} PowerPositive(x: real, n: nat)
    requires x > 0.0
    ensures Power(x, n) > 0.0
  {
    if n > 0 {
      PowerPositive(x, n - 1);
      MulPositive(x, Power(x, n - 1));
    }
  }

  lemma {:induction false} PowerMul(x: real, y: real, n: nat)
    ensures Power(x * y, n) == Power(x, n) * Power(y, n)
  {
    if n > 0 {
      PowerMul(x, y, n - 1);
      assert Power(x * y, n) == (x * y) * (Power(x, n - 1) * Power(y, n - 1));
    }
  }

  lemma PowerInjective(x: real, y: real, n: nat)
    requires x > 0.0 && y > 0.0 && n > 0 && Power(x, n) == Power(y, n)
    ensures x == y
  {
    if x < y {
      PowerStrictMono(x, y, n);
    } else if y < x {
      PowerStrictMono(y, x, n);
    }
  }

  lemma PowerFive(x: real)
    ensures Power(x, 5) == x * x * x * x * x
  {
    assert Power(x, 1) == x;
    assert Power(x, 2) == x * x;
    assert Power(x, 3) == x * x * x;
    assert Power(x, 4) == x * x * x * x;
  }

  lemma FifthPowerStrictMono(x: real, y: real)
    requires 0.0 < x < y
    ensures x * x * x * x * x < y * y * y * y * y
  {
    PowerStrictMono(x, y, 5);
    PowerFive(x);
    PowerFive(y);
  }

  lemma FifthPowerPositive(x: real)
    requires x > 0.0
    ensures x * x * x * x * x > 0.0
  {
    PowerPositive(x, 5);
    PowerFive(x);
  }

  lemma FifthPowerInjective(x: real, y: real)
    requires x > 0.0 && y > 0.0
    requires x * x * x * x * x == y * y * y * y * y
    ensures x == y
  {
    if x < y {
      FifthPowerStrictMono(x, y);
    } else if y < x {
      FifthPowerStrictMono(y, x);
    }
  }

  lemma FifthPowerMul(x: real, y: real)
    ensures (x * y) * (x * y) * (x * y) * (x * y) * (x * y) == (x * x * x * x * x) * (y * y * y * y * y)
  {
  }

  // ---------------------------------------------------------------------------
  // Roots
  // ---------------------------------------------------------------------------

  lemma SquareRootUnique(s: real, y: real)
    requires s >= 0.0 && y >= 0.0 && s * s == y * y
    ensures s == y
  {
    assert (s - y) * (s + y) == s * s - y * y;
    if s + y != 0.0 {
      ZeroProduct(s - y, s + y);
    }
  }

  /** Cardano's identity: when u v = a/3 and u^3 + v^3 = a, the sum u + v is a root of x^3 = a (1 + x). */
  lemma CardanoRoot(a: real, u: real, v: real)
    requires u * v == a / 3.0
    requires u * u * u + v * v * v == a
    ensures (u + v) * (u + v) * (u + v) == a * (1.0 + (u + v))
  {
    assert (u + v) * (u + v) * (u + v) == u * u * u + v * v * v + 3.0 * (u * v) * (u + v);
  }
}
