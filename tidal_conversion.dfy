/**
  The tidal deformability maps of a binary neutron star (Wade et al., arXiv:1402.5156):
  the dominant and second tidal terms lambda_tilde and delta_lambda_tilde are linear
  in lambda_plus = lambda_1 + lambda_2 and lambda_minus = lambda_1 - lambda_2, with
  four coefficients that depend only on the symmetric mass ratio eta. The inverse
  solves that 2x2 linear system by Cramer's rule; the single-term inverse assumes
  lambda_1 mass_1^5 = lambda_2 mass_2^5.

  `(1 - 4 eta) ** 0.5` comes from the `Numerics` parameter; no fact about it is needed,
  since the forward and inverse maps use the same coefficient values.
*/
module TidalConversion {
  import opened Values
  import opened Numerics
  import opened RealAlgebra
  import opened MassConversion

  /** The four eta-dependent coefficients shared by the forward and inverse maps. */
  datatype TidalCoefficients = TidalCoefficients(c1: real, c2: real, c3: real, c4: real)

  function Coefficients(n: Numerics, eta: real): (c: TidalCoefficients)
    ensures c.c1 == 1.0 + 7.0 * eta - 31.0 * (eta * eta)
    ensures c.c4 == 1.0 - 15910.0 / 1319.0 * eta + 32850.0 / 1319.0 * (eta * eta) + 3380.0 / 1319.0 * (eta * eta * eta)
    // equal masses (eta = 1/4): the terms odd in the mass difference vanish
    ensures HalfPowerIsRoot(n) && eta == 0.25 ==> c.c2 == 0.0 && c.c3 == 0.0
  {
    var root := n.pow(1.0 - 4.0 * eta, 0.5);
    EqualMassRootVanishes(n, eta);
    TidalCoefficients(
      1.0 + 7.0 * eta - 31.0 * (eta * eta),
      root * (1.0 + 9.0 * eta - 11.0 * (eta * eta)),
      root * (1.0 - 13272.0 / 1319.0 * eta + 8944.0 / 1319.0 * (eta * eta)),
      1.0 - 15910.0 / 1319.0 * eta + 32850.0 / 1319.0 * (eta * eta) + 3380.0 / 1319.0 * (eta * eta * eta))
  }

  /** At eta = 1/4 the square root of 1 - 4 eta is zero. */
  lemma EqualMassRootVanishes(n: Numerics, eta: real)
    ensures HalfPowerIsRoot(n) && eta == 0.25 ==> n.pow(1.0 - 4.0 * eta, 0.5) == 0.0
  {
    if HalfPowerIsRoot(n) && eta == 0.25 {
      assert 1.0 - 4.0 * eta == 0.0;
      var root := n.pow(0.0, 0.5);
      SquareZeroIffAt(root, root * root);
    }
  }

  /** lambda_tilde = 8/13 (c1 lambda_plus + c2 lambda_minus). */
  function TildeTerm(c: TidalCoefficients, lambda1: real, lambda2: real): real
  {
    8.0 / 13.0 * (c.c1 * (lambda1 + lambda2) + c.c2 * (lambda1 - lambda2))
  }

  /** delta_lambda_tilde = 1/2 (c3 lambda_plus + c4 lambda_minus). */
  function DeltaTildeTerm(c: TidalCoefficients, lambda1: real, lambda2: real): real
  {
    1.0 / 2.0 * (c.c3 * (lambda1 + lambda2) + c.c4 * (lambda1 - lambda2))
  }

  /** The determinant (c1 + c2)(c3 - c4) - (c1 - c2)(c3 + c4) of the linear system. */
  function Determinant(c: TidalCoefficients): real
  {
    (c.c1 + c.c2) * (c.c3 - c.c4) - (c.c1 - c.c2) * (c.c3 + c.c4)
  }

  function LambdaOneLambdaTwoToLambdaTilde(n: Numerics, lambda1: real, lambda2: real, mass1: real, mass2: real): (r: Result<real>)
    ensures r.Ok? <==> mass1 + mass2 != 0.0
    ensures r.Ok? ==> r.value == TildeTerm(Coefficients(n, ComponentMassesToSymmetricMassRatio(mass1, mass2).value), lambda1, lambda2)
  {
    var eta :- ComponentMassesToSymmetricMassRatio(mass1, mass2);
    Ok(TildeTerm(Coefficients(n, eta), lambda1, lambda2))
  }

  function LambdaOneLambdaTwoToDeltaLambdaTilde(n: Numerics, lambda1: real, lambda2: real, mass1: real, mass2: real): (r: Result<real>)
    ensures r.Ok? <==> mass1 + mass2 != 0.0
    ensures r.Ok? ==> r.value == DeltaTildeTerm(Coefficients(n, ComponentMassesToSymmetricMassRatio(mass1, mass2).value), lambda1, lambda2)
  {
    var eta :- ComponentMassesToSymmetricMassRatio(mass1, mass2);
    Ok(DeltaTildeTerm(Coefficients(n, eta), lambda1, lambda2))
  }

  /** Cramer's rule for (lambda_1, lambda_2); the second denominator is the negated
      determinant, so only the first division can fail. */
  function CramerSolve(c: TidalCoefficients, lambdaTilde: real, deltaLambdaTilde: real): (r: Result<(real, real)>)
    ensures r.Ok? <==> Determinant(c) != 0.0
  {
    var lambda1 :- Div(FirstNumerator(c, lambdaTilde, deltaLambdaTilde), Determinant(c));
    Ok((lambda1, SecondNumerator(c, lambdaTilde, deltaLambdaTilde) / SecondDenominator(c)))
  }

  /** 13/8 lambda_tilde (c3 - c4) - 2 delta_lambda_tilde (c1 - c2). */
  function FirstNumerator(c: TidalCoefficients, lambdaTilde: real, deltaLambdaTilde: real): real
  {
    13.0 * lambdaTilde / 8.0 * (c.c3 - c.c4) - 2.0 * deltaLambdaTilde * (c.c1 - c.c2)
  }

  /** 13/8 lambda_tilde (c3 + c4) - 2 delta_lambda_tilde (c1 + c2). */
  function SecondNumerator(c: TidalCoefficients, lambdaTilde: real, deltaLambdaTilde: real): real
  {
    13.0 * lambdaTilde / 8.0 * (c.c3 + c.c4) - 2.0 * deltaLambdaTilde * (c.c1 + c.c2)
  }

  /** (c1 - c2)(c3 + c4) - (c1 + c2)(c3 - c4), which is -Determinant(c). */
  function SecondDenominator(c: TidalCoefficients): (d: real)
    ensures d == -Determinant(c)
  {
    (c.c1 - c.c2) * (c.c3 + c.c4) - (c.c1 + c.c2) * (c.c3 - c.c4)
  }

  function LambdaTildeDeltaLambdaTildeToLambdaOneLambdaTwo(
    n: Numerics, lambdaTilde: real, deltaLambdaTilde: real, mass1: real, mass2: real): (r: Result<(real, real)>)
    ensures mass1 + mass2 == 0.0 ==> r == Err(ZeroDivision)
    ensures r.Err? ==> r.error == ZeroDivision
  {
    var eta :- ComponentMassesToSymmetricMassRatio(mass1, mass2);
    CramerSolve(Coefficients(n, eta), lambdaTilde, deltaLambdaTilde)
  }

  /** The forward terms of (lambda_1, lambda_2), solved back by Cramer's rule, give
      (lambda_1, lambda_2) again whenever the determinant is non-zero. */
  lemma CramerSolveInvertsForward(c: TidalCoefficients, lambda1: real, lambda2: real)
    requires Determinant(c) != 0.0
    ensures CramerSolve(c, TildeTerm(c, lambda1, lambda2), DeltaTildeTerm(c, lambda1, lambda2)) == Ok((lambda1, lambda2))
  {
    CramerNumerators(c, lambda1, lambda2, TildeTerm(c, lambda1, lambda2), DeltaTildeTerm(c, lambda1, lambda2));
    QuotientOfMultiple(FirstNumerator(c, TildeTerm(c, lambda1, lambda2), DeltaTildeTerm(c, lambda1, lambda2)),
                       Determinant(c), lambda1);
    QuotientOfMultiple(SecondNumerator(c, TildeTerm(c, lambda1, lambda2), DeltaTildeTerm(c, lambda1, lambda2)),
                       SecondDenominator(c), lambda2);
  }

  /** The two numerators of Cramer's rule are lambda_1 D and lambda_2 (-D). */
  lemma CramerNumerators(c: TidalCoefficients, l1: real, l2: real, lt: real, dlt: real)
    requires lt == TildeTerm(c, l1, l2) && dlt == DeltaTildeTerm(c, l1, l2)
    ensures FirstNumerator(c, lt, dlt) == l1 * Determinant(c)
    ensures SecondNumerator(c, lt, dlt) == l2 * SecondDenominator(c)
  {
    assert 13.0 * lt / 8.0 == (c.c1 + c.c2) * l1 + (c.c1 - c.c2) * l2;
    assert 2.0 * dlt == (c.c3 + c.c4) * l1 + (c.c3 - c.c4) * l2;
  }

  lemma QuotientOfMultiple(x: real, d: real, l: real)
    requires d != 0.0 && x == l * d
    ensures Div(x, d) == Ok(l) && x / d == l
  {
    CancelNonZero(Div(x, d).value, l, d);
  }

  /** Tidal round trip: lambda_tilde and delta_lambda_tilde of (lambda_1, lambda_2), fed to
      the inverse with the same masses, return (lambda_1, lambda_2). */
  lemma TidalRoundTrip(n: Numerics, lambda1: real, lambda2: real, mass1: real, mass2: real)
    requires mass1 + mass2 != 0.0
    ensures Determinant(Coefficients(n, ComponentMassesToSymmetricMassRatio(mass1, mass2).value)) != 0.0 ==>
      LambdaTildeDeltaLambdaTildeToLambdaOneLambdaTwo(n,
        LambdaOneLambdaTwoToLambdaTilde(n, lambda1, lambda2, mass1, mass2).value,
        LambdaOneLambdaTwoToDeltaLambdaTilde(n, lambda1, lambda2, mass1, mass2).value, mass1, mass2) == Ok((lambda1, lambda2))
  {
    var c := Coefficients(n, ComponentMassesToSymmetricMassRatio(mass1, mass2).value);
    if Determinant(c) != 0.0 {
      CramerSolveInvertsForward(c, lambda1, lambda2);
    }
  }

  /** For equal masses lambda_tilde is the mean of the two deformabilities. */
  lemma {:induction false} EqualMassLambdaTildeIsMean(n: Numerics, lambda1: real, lambda2: real, mass: real)
    requires HalfPowerIsRoot(n) && mass != 0.0
    ensures LambdaOneLambdaTwoToLambdaTilde(n, lambda1, lambda2, mass, mass) == Ok((lambda1 + lambda2) / 2.0)
  {
    var eta := ComponentMassesToSymmetricMassRatio(mass, mass).value;
    assert eta * (4.0 * (mass * mass)) == mass * mass;
    assert mass * mass != 0.0;
    assert eta == 0.25;
    var c := Coefficients(n, eta);
    assert c.c1 == 13.0 / 16.0 && c.c2 == 0.0;
  }

  /** The inverse followed by the forward maps is the identity on (lambda_tilde, delta_lambda_tilde). */
  lemma ForwardInvertsCramerSolve(c: TidalCoefficients, lambdaTilde: real, deltaLambdaTilde: real)
    requires Determinant(c) != 0.0
    ensures var s := CramerSolve(c, lambdaTilde, deltaLambdaTilde).value;
      TildeTerm(c, s.0, s.1) == lambdaTilde && DeltaTildeTerm(c, s.0, s.1) == deltaLambdaTilde
  {
    var s := CramerSolve(c, lambdaTilde, deltaLambdaTilde).value;
    assert s.0 * Determinant(c) == FirstNumerator(c, lambdaTilde, deltaLambdaTilde);
    assert s.1 * SecondDenominator(c) == SecondNumerator(c, lambdaTilde, deltaLambdaTilde);
    CramerForward(c, s.0, s.1, lambdaTilde, deltaLambdaTilde);
  }

  lemma CramerForward(c: TidalCoefficients, l1: real, l2: real, lt: real, dlt: real)
    requires Determinant(c) != 0.0
    requires l1 * Determinant(c) == FirstNumerator(c, lt, dlt)
    requires l2 * SecondDenominator(c) == SecondNumerator(c, lt, dlt)
    ensures TildeTerm(c, l1, l2) == lt && DeltaTildeTerm(c, l1, l2) == dlt
  {
    var d := Determinant(c);
    var a := 13.0 * lt / 8.0;
    var b := 2.0 * dlt;
    assert ((c.c1 + c.c2) * l1 + (c.c1 - c.c2) * l2) * d == a * d;
    CancelNonZero((c.c1 + c.c2) * l1 + (c.c1 - c.c2) * l2, a, d);
    assert ((c.c3 + c.c4) * l1 + (c.c3 - c.c4) * l2) * d == b * d;
    CancelNonZero((c.c3 + c.c4) * l1 + (c.c3 - c.c4) * l2, b, d);
  }

  /** The inverse that assumes lambda_1 mass_1^5 = lambda_2 mass_2^5:
      lambda_1 = 13/8 lambda_tilde / (c1 (1 + q^-5) + c2 (1 - q^-5)), lambda_2 = lambda_1 / q^5. */
  function LambdaTildeToLambdaOneLambdaTwo(n: Numerics, lambdaTilde: real, mass1: real, mass2: real): (r: Result<(real, real)>)
    ensures mass1 + mass2 == 0.0 || mass1 == 0.0 || mass2 == 0.0 ==> r == Err(ZeroDivision)
  {
    var eta :- ComponentMassesToSymmetricMassRatio(mass1, mass2);
    var q :- Div(mass2, mass1);
    var inverseFifth :- Div(1.0, FifthPower(q));
    var lambda1 :- Div(13.0 / 8.0 * lambdaTilde, EqualRatioDenominator(Coefficients(n, eta), inverseFifth));
    Ok((lambda1, lambda1 / FifthPower(q)))
  }

  /** c1 (1 + q^-5) + c2 (1 - q^-5): lambda_tilde per unit lambda_1, times 13/8, when lambda_2 = lambda_1 q^-5. */
  function EqualRatioDenominator(c: TidalCoefficients, inverseFifth: real): real
  {
    c.c1 * (1.0 + inverseFifth) + c.c2 * (1.0 - inverseFifth)
  }

  /** The single-term inverse returns a pair with lambda_1 mass_1^5 = lambda_2 mass_2^5. */
  lemma EqualRatioInverseScaling(n: Numerics, lambdaTilde: real, mass1: real, mass2: real, lambda1: real, lambda2: real)
    requires LambdaTildeToLambdaOneLambdaTwo(n, lambdaTilde, mass1, mass2) == Ok((lambda1, lambda2))
    ensures lambda1 * FifthPower(mass1) == lambda2 * FifthPower(mass2)
  {
    EqualRatioInverseParts(n, lambdaTilde, mass1, mass2, lambda1, lambda2);
    ScaledFifthPowers(mass2 / mass1, mass1, mass2, lambda1, lambda2);
  }

  lemma EqualRatioInverseParts(n: Numerics, lambdaTilde: real, mass1: real, mass2: real, lambda1: real, lambda2: real)
    requires LambdaTildeToLambdaOneLambdaTwo(n, lambdaTilde, mass1, mass2) == Ok((lambda1, lambda2))
    ensures mass1 != 0.0 && lambda2 * FifthPower(mass2 / mass1) == lambda1
  {
    assert Div(mass2, mass1) == Ok(mass2 / mass1);
  }

  lemma ScaledFifthPowers(q: real, m1: real, m2: real, l1: real, l2: real)
    requires q * m1 == m2 && l2 * FifthPower(q) == l1
    ensures l1 * FifthPower(m1) == l2 * FifthPower(m2)
  {
    FifthPowerOfProduct(q, m1);
  }

  /** Feeding the single-term inverse back into the forward map returns lambda_tilde. */
  lemma EqualRatioInverseRoundTrip(n: Numerics, lambdaTilde: real, mass1: real, mass2: real, lambda1: real, lambda2: real)
    requires LambdaTildeToLambdaOneLambdaTwo(n, lambdaTilde, mass1, mass2) == Ok((lambda1, lambda2))
    ensures LambdaOneLambdaTwoToLambdaTilde(n, lambda1, lambda2, mass1, mass2) == Ok(lambdaTilde)
  {
    var c := Coefficients(n, ComponentMassesToSymmetricMassRatio(mass1, mass2).value);
    var q := mass2 / mass1;
    assert Div(mass2, mass1) == Ok(q);
    var i := Div(1.0, FifthPower(q)).value;
    assert lambda1 * EqualRatioDenominator(c, i) == 13.0 / 8.0 * lambdaTilde;
    assert lambda2 * FifthPower(q) == lambda1;
    EqualRatioTilde(c, lambdaTilde, i, FifthPower(q), lambda1, lambda2);
  }

  lemma EqualRatioTilde(c: TidalCoefficients, lambdaTilde: real, i: real, q5: real, l1: real, l2: real)
    requires i * q5 == 1.0 && l2 * q5 == l1
    requires l1 * EqualRatioDenominator(c, i) == 13.0 / 8.0 * lambdaTilde
    ensures TildeTerm(c, l1, l2) == lambdaTilde
  {
    assert l2 == l1 * i by {
      assert l2 * q5 * i == l1 * i;
    }
    assert c.c1 * (l1 + l2) + c.c2 * (l1 - l2) == l1 * EqualRatioDenominator(c, i);
  }

  /** The two-term inverse followed by the forward maps returns lambda_tilde and
      delta_lambda_tilde. */
  lemma TwoTermInverseRoundTrip(n: Numerics, lambdaTilde: real, deltaLambdaTilde: real, mass1: real, mass2: real,
                                lambda1: real, lambda2: real)
    requires LambdaTildeDeltaLambdaTildeToLambdaOneLambdaTwo(n, lambdaTilde, deltaLambdaTilde, mass1, mass2) == Ok((lambda1, lambda2))
    ensures LambdaOneLambdaTwoToLambdaTilde(n, lambda1, lambda2, mass1, mass2) == Ok(lambdaTilde)
    ensures LambdaOneLambdaTwoToDeltaLambdaTilde(n, lambda1, lambda2, mass1, mass2) == Ok(deltaLambdaTilde)
  {
    var c := Coefficients(n, ComponentMassesToSymmetricMassRatio(mass1, mass2).value);
    ForwardInvertsCramerSolve(c, lambdaTilde, deltaLambdaTilde);
  }
}
