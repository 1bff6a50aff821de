/**
  The closed-form maps between the mass parameterisations of a compact binary:
  component masses (mass_1, mass_2), total mass M, mass ratio q = mass_2/mass_1,
  symmetric mass ratio eta = m1 m2 / M^2 and chirp mass
  mc = (m1 m2)^(3/5) / M^(1/5).

  Every map is a function of its inputs. A division by zero is an error; the
  non-integer powers and roots come from the `Numerics` parameter, and each lemma
  names the algebraic fact about them it relies on.
*/
module MassConversion {
  import opened Values
  import opened Numerics
  import opened RealAlgebra

  datatype ComponentMasses = ComponentMasses(mass1: real, mass2: real)

  // Fifth powers, stated about FifthPower so that its expansion is used only where asked for.

  lemma FifthPowerUnfold(x: real)
    ensures FifthPower(x) == x * x * x * x * x
  {
    PowerFive(x);
  }

  lemma FifthPowerOfProduct(x: real, y: real)
    ensures FifthPower(x * y) == FifthPower(x) * FifthPower(y)
  {
    PowerMul(x, y, 5);
  }

  lemma FifthPowerOfProductAt(x: real, y: real, p: real)
    requires p == x * y
    ensures FifthPower(p) == FifthPower(x) * FifthPower(y)
  {
    FifthPowerOfProduct(x, y);
  }

  lemma FifthPowerPositiveAt(x: real)
    requires x > 0.0
    ensures FifthPower(x) > 0.0
  {
    PowerPositive(x, 5);
  }

  lemma FifthPowerInjectiveAt(x: real, y: real)
    requires x > 0.0 && y > 0.0 && FifthPower(x) == FifthPower(y)
    ensures x == y
  {
    PowerInjective(x, y, 5);
  }

  /** The defining relation of the chirp mass, free of fractional powers:
      mc^5 (m1 + m2) = (m1 m2)^3, with mc positive. */
  ghost predicate IsChirpMass(mc: real, m1: real, m2: real)
  {
    mc > 0.0 && FifthPower(mc) * (m1 + m2) == (m1 * m2) * (m1 * m2) * (m1 * m2)
  }

  // ---------------------------------------------------------------------------
  // Component masses from (M, q) and (mc, q)
  // ---------------------------------------------------------------------------

  /** mass_1 = M / (1 + q) and mass_2 = q mass_1: the pair that adds up to M and has ratio q. */
  function TotalMassAndMassRatioToComponentMasses(massRatio: real, totalMass: real): (r: Result<ComponentMasses>)
    ensures r.Ok? <==> massRatio != -1.0
    ensures r.Ok? ==> r.value.mass1 + r.value.mass2 == totalMass
    ensures r.Ok? ==> r.value.mass2 == massRatio * r.value.mass1
  {
    var m1 :- Div(totalMass, 1.0 + massRatio);
    Ok(ComponentMasses(m1, m1 * massRatio))
  }

  /** M = mc (1 + q)^(6/5) / q^(3/5): the total mass of the pair whose primary is
      M / (1 + q), whose mass ratio is q and whose chirp mass is mc. */
  function ChirpMassAndMassRatioToTotalMass(n: Numerics, chirpMass: real, massRatio: real): (r: Result<real>)
    ensures ChirpPowersAreRoots(n) && massRatio > 0.0 ==> r.Ok?
    ensures ChirpPowersAreRoots(n) && massRatio > 0.0 && chirpMass > 0.0 ==>
      r.Ok? && r.value > 0.0 && IsChirpMassRatio(chirpMass, r.value / (1.0 + massRatio), massRatio)
  {
    ChirpTotalMassAt(n, chirpMass, massRatio);
    Div(chirpMass * n.pow(1.0 + massRatio, 1.2), n.pow(massRatio, 0.6))
  }

  /** The total mass from (mc, q), then the components from (M, q): a pair with ratio q
      and chirp mass mc. */
  function ChirpMassAndMassRatioToComponentMasses(n: Numerics, chirpMass: real, massRatio: real): (r: Result<ComponentMasses>)
    ensures r.Ok? ==> r.value.mass2 == massRatio * r.value.mass1
    ensures ChirpPowersAreRoots(n) && massRatio > 0.0 ==> r.Ok?
    ensures ChirpPowersAreRoots(n) && massRatio > 0.0 && chirpMass > 0.0 ==>
      r.Ok? && IsChirpMass(chirpMass, r.value.mass1, r.value.mass2)
  {
    var total :- ChirpMassAndMassRatioToTotalMass(n, chirpMass, massRatio);
    TotalMassAndMassRatioToComponentMasses(massRatio, total)
  }

  // ---------------------------------------------------------------------------
  // Derived quantities from the component masses
  // ---------------------------------------------------------------------------

  /** M = m1 + m2: for positive masses it exceeds each component. */
  function ComponentMassesToTotalMass(m1: real, m2: real): (r: real)
    ensures m1 > 0.0 && m2 > 0.0 ==> r > m1 && r > m2
  {
    m1 + m2
  }

  /** q = mass_2 / mass_1. */
  function ComponentMassesToMassRatio(m1: real, m2: real): (r: Result<real>)
    ensures r.Ok? <==> m1 != 0.0
    ensures r.Ok? ==> r.value * m1 == m2
  {
    Div(m2, m1)
  }

  /** mc = (m1 m2)^(3/5) / (m1 + m2)^(1/5); for positive masses this is the chirp mass. */
  function ComponentMassesToChirpMass(n: Numerics, m1: real, m2: real): (r: Result<real>)
    ensures ChirpPowersAreRoots(n) && m1 > 0.0 && m2 > 0.0 ==> r.Ok? && IsChirpMass(r.value, m1, m2)
  {
    var r :- Div(n.pow(m1 * m2, 0.6), n.pow(m1 + m2, 0.2));
    ChirpMassFromPowers(n, m1, m2, r);
    Ok(r)
  }

  lemma ChirpMassFromPowers(n: Numerics, m1: real, m2: real, mc: real)
    requires mc * n.pow(m1 + m2, 0.2) == n.pow(m1 * m2, 0.6)
    ensures ChirpPowersAreRoots(n) && m1 > 0.0 && m2 > 0.0 ==> IsChirpMass(mc, m1, m2)
  {
    if ChirpPowersAreRoots(n) && m1 > 0.0 && m2 > 0.0 {
      ChirpMassFromRoots(n, m1, m2, mc);
    }
  }

  lemma ChirpMassFromRoots(n: Numerics, m1: real, m2: real, mc: real)
    requires ChirpPowersAreRoots(n) && m1 > 0.0 && m2 > 0.0
    requires mc * n.pow(m1 + m2, 0.2) == n.pow(m1 * m2, 0.6)
    ensures IsChirpMass(mc, m1, m2)
  {
    var p, s := m1 * m2, m1 + m2;
    assert p > 0.0;
    var a, b := n.pow(s, 0.2), n.pow(p, 0.6);
    assert a > 0.0 && b > 0.0;
    assert mc > 0.0 by {
      PositiveQuotient(mc, a, b);
    }
    assert mc * a == b;
    FifthPowerOfProduct(mc, a);
    assert FifthPower(a) == s;
    assert FifthPower(b) == p * p * p;
  }

  /** eta = m1 m2 / (m1 + m2)^2, capped at 1/4 as the source does with np.minimum. */
  function ComponentMassesToSymmetricMassRatio(m1: real, m2: real): (r: Result<real>)
    ensures r.Ok? <==> m1 + m2 != 0.0
    ensures r.Ok? ==> r.value <= 0.25
    ensures r.Ok? ==> r.value * ((m1 + m2) * (m1 + m2)) == m1 * m2
  {
    SquareZeroIffAt(m1 + m2, (m1 + m2) * (m1 + m2));
    var eta :- Div(m1 * m2, (m1 + m2) * (m1 + m2));
    SymmetricMassRatioBound(m1, m2, eta);
    Ok(if eta <= 0.25 then eta else 0.25)
  }

  /** 4 m1 m2 <= (m1 + m2)^2, so on exact reals the cap at 1/4 never changes the value. */
  lemma SymmetricMassRatioBound(m1: real, m2: real, eta: real)
    requires m1 + m2 != 0.0
    requires eta * ((m1 + m2) * (m1 + m2)) == m1 * m2
    ensures eta <= 0.25
  {
    SquarePositiveAt(m1 + m2, (m1 + m2) * (m1 + m2));
    SquareNonNegativeAt(m1 - m2, (m1 - m2) * (m1 - m2));
    assert (m1 + m2) * (m1 + m2) - 4.0 * (m1 * m2) == (m1 - m2) * (m1 - m2);
    assert (0.25 - eta) * ((m1 + m2) * (m1 + m2)) == (m1 - m2) * (m1 - m2) / 4.0;
    NonNegativeQuotient(0.25 - eta, (m1 + m2) * (m1 + m2), (m1 - m2) * (m1 - m2) / 4.0);
  }

  // ---------------------------------------------------------------------------
  // Mass ratio from other parameterisations
  // ---------------------------------------------------------------------------

  /** q = t - (t^2 - 1)^(1/2) with t = 1/eta/2 - 1: the root of eta (1 + q)^2 = q in (0, 1]. */
  function SymmetricMassRatioToMassRatio(n: Numerics, eta: real): (r: Result<real>)
    ensures r.Ok? <==> eta != 0.0
    ensures HalfPowerIsRoot(n) && 0.0 < eta <= 0.25 ==>
      r.Ok? && 0.0 < r.value <= 1.0 && eta * ((1.0 + r.value) * (1.0 + r.value)) == r.value
  {
    var inverse :- Div(1.0, eta);
    var t := inverse / 2.0 - 1.0;
    var q := t - n.pow(t * t - 1.0, 0.5);
    SymmetricMassRatioRoot(n, eta, t, q);
    Ok(q)
  }

  lemma SymmetricMassRatioRoot(n: Numerics, eta: real, t: real, q: real)
    requires eta != 0.0 && t == (1.0 / eta) / 2.0 - 1.0
    requires q == t - n.pow(t * t - 1.0, 0.5)
    ensures HalfPowerIsRoot(n) && 0.0 < eta <= 0.25 ==> 0.0 < q <= 1.0 && eta * ((1.0 + q) * (1.0 + q)) == q
  {
    if HalfPowerIsRoot(n) && 0.0 < eta <= 0.25 {
      SymmetricMassRatioRootInRange(n, eta, t, q);
    }
  }

  lemma SymmetricMassRatioRootInRange(n: Numerics, eta: real, t: real, q: real)
    requires HalfPowerIsRoot(n) && 0.0 < eta <= 0.25
    requires t == (1.0 / eta) / 2.0 - 1.0
    requires q == t - n.pow(t * t - 1.0, 0.5)
    ensures 0.0 < q <= 1.0 && eta * ((1.0 + q) * (1.0 + q)) == q
  {
    // 2 eta (t + 1) = 1 and t >= 1
    assert 2.0 * eta * (t + 1.0) == 1.0;
    assert t >= 1.0 by {
      ReciprocalAtLeastTwo(2.0 * eta, t + 1.0);
    }
    var d := t * t - 1.0;
    assert d >= 0.0;
    var w := n.pow(d, 0.5);
    assert w >= 0.0 && w * w == d;
    // q and 1/q = t + w are the two roots of x^2 - 2 t x + 1
    assert q * (t + w) == 1.0 by {
      assert (t - w) * (t + w) == t * t - w * w;
    }
    assert t + w >= 1.0;
    assert q > 0.0 && q <= 1.0 by {
      ReciprocalAtMostOne(q, t + w);
    }
    assert q * q - 2.0 * t * q + 1.0 == 0.0 by {
      assert q * q - 2.0 * t * q + 1.0 == (q - t) * (q - t) - d;
      assert (q - t) * (q - t) == w * w;
    }
    calc {
      eta * ((1.0 + q) * (1.0 + q));
      eta * (q * q + 1.0) + 2.0 * eta * q;
      eta * (2.0 * t * q) + 2.0 * eta * q;
      (2.0 * eta * (t + 1.0)) * q;
      q;
    }
  }

  /** (mc / M)^(5/3). */
  function ChirpMassAndTotalMassToSymmetricMassRatio(n: Numerics, chirpMass: real, totalMass: real): (r: Result<real>)
    ensures r.Ok? <==> totalMass != 0.0
  {
    var ratio :- Div(chirpMass, totalMass);
    Ok(n.pow(ratio, FiveThirds))
  }

  /** The positive root q of q^3 = a (1 + q), a = (mc / m1)^5, by Cardano's formula with np.cbrt. */
  function ChirpMassAndPrimaryMassToMassRatio(n: Numerics, chirpMass: real, mass1: real): (r: Result<real>)
    ensures mass1 == 0.0 ==> r == Err(ZeroDivision)
  {
    var ratio :- Div(chirpMass, mass1);
    CardanoCbrtForm(n, FifthPower(ratio))
  }

  /** Cardano's formula for the root of q^3 = a (1 + q), written with np.sqrt and np.cbrt. */
  function CardanoCbrtForm(n: Numerics, a: real): Result<real>
  {
    CardanoQuotients(CbrtNumerator(n, a), n.cbrt(CbrtRadicand(n, a)), CbrtDenominator(n))
  }

  /** 27 a^2 - 4 a^3, the discriminant under the square root of both Cardano forms. */
  function Discriminant(a: real): real
  {
    27.0 * (a * a) - 4.0 * (a * a * a)
  }

  /** 9 a + sqrt(3) sqrt(27 a^2 - 4 a^3), whose cube root is t0. */
  function CbrtRadicand(n: Numerics, a: real): real
  {
    9.0 * a + n.sqrt(3.0) * n.sqrt(Discriminant(a))
  }

  /** np.cbrt(2/3) a. */
  function CbrtNumerator(n: Numerics, a: real): real
  {
    n.cbrt(TwoThirds) * a
  }

  /** np.cbrt(2) 3^(2/3). */
  function CbrtDenominator(n: Numerics): real
  {
    n.cbrt(2.0) * n.pow(3.0, TwoThirds)
  }

  /** The last step of the np.cbrt form, t2 / t0 + t0 / t1, which divides twice. */
  function CardanoQuotients(t2: real, t0: real, t1: real): (r: Result<real>)
    ensures r.Ok? <==> t0 != 0.0 && t1 != 0.0
  {
    var u :- Div(t2, t0);
    var v :- Div(t0, t1);
    Ok(u + v)
  }

  /** The same root with `** 0.5` and `** (1/3)` in place of np.sqrt and np.cbrt. */
  function Mass1AndChirpMassToMassRatio(n: Numerics, mass1: real, chirpMass: real): (r: Result<real>)
    ensures mass1 == 0.0 ==> r == Err(ZeroDivision)
  {
    var ratio :- Div(chirpMass, mass1);
    CardanoPowForm(n, FifthPower(ratio))
  }

  /** Cardano's formula for the root of q^3 = t (1 + q), written with `**`. */
  function CardanoPowForm(n: Numerics, temp: real): Result<real>
  {
    var s := PowRadicand(n, temp);
    var inner :- Div(TwoThirds, s);
    Ok(PowSum(n, inner, s, temp))
  }

  /** (2/3 / S) ** (1/3) t + (S / 18) ** (1/3), given inner = 2/3 / S. */
  function PowSum(n: Numerics, inner: real, s: real, temp: real): real
  {
    n.pow(inner, OneThird) * temp + n.pow(s / 18.0, OneThird)
  }

  /** 3 ** 0.5 (27 t^2 - 4 t^3) ** 0.5 + 9 t. */
  function PowRadicand(n: Numerics, temp: real): real
  {
    n.pow(3.0, 0.5) * n.pow(Discriminant(temp), 0.5) + 9.0 * temp
  }

  /** Passing mass_2 where mass_1 is expected yields 1/q; its reciprocal is q. */
  function Mass2AndChirpMassToMassRatio(n: Numerics, mass2: real, chirpMass: real): (r: Result<real>)
    ensures mass2 == 0.0 ==> r == Err(ZeroDivision)
  {
    var inverse :- Mass1AndChirpMassToMassRatio(n, mass2, chirpMass);
    Div(1.0, inverse)
  }

  // ---------------------------------------------------------------------------
  // Round trips and consistency between the maps
  // ---------------------------------------------------------------------------

  /** (M, q) -> components inverts components -> (M, q). */
  lemma ComponentMassesRoundTrip(m1: real, m2: real)
    requires m1 != 0.0 && m1 + m2 != 0.0
    ensures ComponentMassesToMassRatio(m1, m2).Ok?
    ensures TotalMassAndMassRatioToComponentMasses(ComponentMassesToMassRatio(m1, m2).value, ComponentMassesToTotalMass(m1, m2))
            == Ok(ComponentMasses(m1, m2))
  {
    var q := ComponentMassesToMassRatio(m1, m2).value;
    assert q * m1 == m2;
    assert (1.0 + q) * m1 == m1 + m2;
    NonZeroFactors(1.0 + q, m1);
    var c := TotalMassAndMassRatioToComponentMasses(q, m1 + m2).value;
    assert c.mass1 * (1.0 + q) == m1 * (1.0 + q);
    CancelNonZero(c.mass1, m1, 1.0 + q);
  }

  /** components -> (M, q) inverts (M, q) -> components. */
  lemma TotalMassAndMassRatioRoundTrip(q: real, total: real)
    requires q != -1.0 && total != 0.0
    ensures TotalMassAndMassRatioToComponentMasses(q, total).Ok?
    ensures var c := TotalMassAndMassRatioToComponentMasses(q, total).value;
      ComponentMassesToTotalMass(c.mass1, c.mass2) == total && ComponentMassesToMassRatio(c.mass1, c.mass2) == Ok(q)
  {
    var c := TotalMassAndMassRatioToComponentMasses(q, total).value;
    assert c.mass1 * (1.0 + q) == total;
    NonZeroFactors(c.mass1, 1.0 + q);
    var r := ComponentMassesToMassRatio(c.mass1, c.mass2).value;
    assert r * c.mass1 == c.mass2;
    assert r * c.mass1 == q * c.mass1;
    CancelNonZero(r, q, c.mass1);
  }

  /** With m2 = q m1, eta (m1 + m2)^2 = m1 m2 is the same as eta (1 + q)^2 = q. */
  lemma SymmetricMassRatioInRatio(eta: real, m1: real, q: real)
    requires m1 != 0.0
    requires eta * ((m1 + q * m1) * (m1 + q * m1)) == m1 * (q * m1)
    ensures eta * ((1.0 + q) * (1.0 + q)) == q
  {
    var k := m1 * m1;
    SquarePositiveAt(m1, m1 * m1);
    assert (m1 + q * m1) * (m1 + q * m1) == ((1.0 + q) * (1.0 + q)) * k;
    assert m1 * (q * m1) == q * k;
    assert (eta * ((1.0 + q) * (1.0 + q))) * k == q * k;
    CancelNonZero(eta * ((1.0 + q) * (1.0 + q)), q, k);
  }

  /** The symmetric mass ratio of (m1, m2) with m1 >= m2 > 0 maps back to q = m2/m1. */
  lemma SymmetricMassRatioRoundTrip(n: Numerics, m1: real, m2: real)
    requires HalfPowerIsRoot(n) && m1 >= m2 > 0.0
    ensures ComponentMassesToSymmetricMassRatio(m1, m2).Ok?
    ensures SymmetricMassRatioToMassRatio(n, ComponentMassesToSymmetricMassRatio(m1, m2).value) == ComponentMassesToMassRatio(m1, m2)
  {
    var eta := ComponentMassesToSymmetricMassRatio(m1, m2).value;
    var q0 := ComponentMassesToMassRatio(m1, m2).value;
    assert q0 * m1 == m2;
    assert 0.0 < q0 <= 1.0 by {
      RatioInUnitInterval(q0, m1, m2);
    }
    assert eta * ((m1 + q0 * m1) * (m1 + q0 * m1)) == m1 * (q0 * m1);
    SymmetricMassRatioInRatio(eta, m1, q0);
    assert eta > 0.0 by {
      EtaOfRatioPositive(eta, q0);
    }
    var q := SymmetricMassRatioToMassRatio(n, eta).value;
    SymmetricMassRatioRootUnique(eta, q, q0);
  }

  lemma RatioInUnitInterval(q: real, m1: real, m2: real)
    requires m1 >= m2 > 0.0 && q * m1 == m2
    ensures 0.0 < q <= 1.0
  {
    assert q == m2 / m1;
  }

  lemma EtaOfRatioPositive(eta: real, q: real)
    requires q > 0.0 && eta * ((1.0 + q) * (1.0 + q)) == q
    ensures eta > 0.0
  {
    PositiveQuotient(eta, (1.0 + q) * (1.0 + q), q);
  }

  /** In (0, 1] the equation eta (1 + q)^2 = q has one root. */
  lemma SymmetricMassRatioRootUnique(eta: real, q: real, p: real)
    requires 0.0 < q <= 1.0 && 0.0 < p <= 1.0
    requires eta * ((1.0 + q) * (1.0 + q)) == q && eta * ((1.0 + p) * (1.0 + p)) == p
    ensures q == p
  {
    var cq, cp := (1.0 + q) * (1.0 + q), (1.0 + p) * (1.0 + p);
    // eta = q/(1+q)^2 = p/(1+p)^2 gives (q - p)(1 - q p) = 0
    assert q * cp == p * cq by {
      assert (eta * cq) * cp == (eta * cp) * cq;
    }
    assert (q - p) * (1.0 - q * p) == q * cp - p * cq;
    if q * p == 1.0 {
      ProductAtMostOne(q, p);
    } else {
      ZeroProduct(q - p, 1.0 - q * p);
    }
  }

  /** The chirp mass and total mass of (m1, m2) give back its symmetric mass ratio. */
  lemma ChirpMassAndTotalMassToSymmetricMassRatioConsistent(n: Numerics, mc: real, m1: real, m2: real)
    requires FiveThirdsPowerIsRoot(n) && m1 > 0.0 && m2 > 0.0 && IsChirpMass(mc, m1, m2)
    ensures ChirpMassAndTotalMassToSymmetricMassRatio(n, mc, m1 + m2) == ComponentMassesToSymmetricMassRatio(m1, m2)
  {
    var x := ChirpMassAndTotalMassToSymmetricMassRatio(n, mc, m1 + m2).value;
    var eta := ComponentMassesToSymmetricMassRatio(m1, m2).value;
    FiveThirdsPowerOfRatio(n, mc, m1 + m2);
    EtaFromChirpCube(x, eta, mc, m1, m2);
  }

  /** (mc / M) ** (5/3), cubed, is (mc / M)^5. */
  lemma FiveThirdsPowerOfRatio(n: Numerics, mc: real, total: real)
    requires FiveThirdsPowerIsRoot(n) && mc > 0.0 && total > 0.0
    ensures var x := n.pow(mc / total, FiveThirds); x > 0.0 && x * x * x == FifthPower(mc / total)
  {
    FifthPowerUnfold(mc / total);
  }

  lemma FifthPowerOfQuotient(a: real, b: real)
    requires b != 0.0
    ensures FifthPower(a / b) * FifthPower(b) == FifthPower(a)
  {
    FifthPowerOfQuotientAt(a, b, a / b);
  }

  lemma FifthPowerOfQuotientAt(a: real, b: real, r: real)
    requires b != 0.0 && r == a / b
    ensures FifthPower(r) * FifthPower(b) == FifthPower(a)
  {
    assert r * b == a;
    FifthPowerOfProduct(r, b);
  }

  /** A cube root x of (mc / M)^5 equals eta when eta M^2 = m1 m2 and mc^5 M = (m1 m2)^3. */
  lemma EtaFromChirpCube(x: real, eta: real, mc: real, m1: real, m2: real)
    requires m1 > 0.0 && m2 > 0.0 && IsChirpMass(mc, m1, m2)
    requires x * x * x == FifthPower(mc / (m1 + m2))
    requires eta * ((m1 + m2) * (m1 + m2)) == m1 * m2
    ensures x == eta
  {
    EtaFromChirpCubeAt(x, eta, mc, m1 + m2, m1 * m2);
  }

  lemma EtaFromChirpCubeAt(x: real, eta: real, mc: real, s: real, p: real)
    requires s > 0.0 && FifthPower(mc) * s == p * p * p
    requires x * x * x == FifthPower(mc / s)
    requires eta * (s * s) == p
    ensures x == eta
  {
    calc {
      Cube(x * (s * s));
      (x * x * x) * ((s * s) * (s * s) * (s * s));
      FifthPower(mc / s) * ((s * s * s * s * s) * s);
      { FifthPowerUnfold(s); }
      (FifthPower(mc / s) * FifthPower(s)) * s;
      { FifthPowerOfQuotient(mc, s); }
      FifthPower(mc) * s;
      p * p * p;
      Cube(p);
    }
    CubeInjectiveAt(x * (s * s), p);
    SquarePositiveAt(s, s * s);
    CancelNonZero(x, eta, s * s);
  }

  /** With m2 = q m1, the chirp relation reads mc^5 (1 + q) = m1^5 q^3. */
  lemma ChirpRelationInRatio(mc: real, m1: real, q: real)
    requires m1 > 0.0 && IsChirpMass(mc, m1, q * m1)
    ensures FifthPower(mc) * (1.0 + q) == FifthPower(m1) * (q * q * q)
  {
    var f, g := FifthPower(mc), FifthPower(m1);
    FifthPowerUnfold(m1);
    assert (m1 * (q * m1)) * (m1 * (q * m1)) * (m1 * (q * m1)) == (g * (q * q * q)) * m1;
    assert f * (m1 + q * m1) == (f * (1.0 + q)) * m1;
    CancelNonZero(f * (1.0 + q), g * (q * q * q), m1);
  }


  /** M = mc (1 + q)^(6/5) / q^(3/5) solves M^5 = m1^5 (1 + q)^5, so M = m1 (1 + q). */
  lemma TotalMassFromChirpPowers(mc: real, m1: real, q: real, t: real, a: real, b: real)
    requires m1 > 0.0 && q > 0.0 && t > 0.0 && b > 0.0
    requires FifthPower(a) == FifthPower(1.0 + q) * (1.0 + q)
    requires FifthPower(b) == q * q * q
    requires t * b == mc * a
    requires FifthPower(mc) * (1.0 + q) == FifthPower(m1) * (q * q * q)
    ensures t == m1 * (1.0 + q)
  {
    TotalMassFromChirpPowersAt(mc, m1, 1.0 + q, t, a, b);
  }

  lemma TotalMassFromChirpPowersAt(mc: real, m1: real, c: real, t: real, a: real, b: real)
    requires m1 > 0.0 && c > 0.0 && t > 0.0 && b > 0.0
    requires FifthPower(a) == FifthPower(c) * c
    requires t * b == mc * a
    requires FifthPower(mc) * c == FifthPower(m1) * FifthPower(b)
    ensures t == m1 * c
  {
    MulPositive(m1, c);
    ScaledTotalMass(mc, m1, c, m1 * c, t, a, b);
  }

  lemma ScaledTotalMass(mc: real, m1: real, c: real, w: real, t: real, a: real, b: real)
    requires w > 0.0 && t > 0.0 && b > 0.0 && w == m1 * c
    requires FifthPower(a) == FifthPower(c) * c
    requires t * b == mc * a
    requires FifthPower(mc) * c == FifthPower(m1) * FifthPower(b)
    ensures t == w
  {
    calc {
      FifthPower(t * b);
      FifthPower(mc * a);
      { FifthPowerOfProduct(mc, a); }
      FifthPower(mc) * FifthPower(a);
      (FifthPower(mc) * c) * FifthPower(c);
      (FifthPower(m1) * FifthPower(c)) * FifthPower(b);
      { FifthPowerOfProduct(m1, c); }
      FifthPower(w) * FifthPower(b);
      { FifthPowerOfProduct(w, b); }
      FifthPower(w * b);
    }
    MulPositive(t, b);
    MulPositive(w, b);
    FifthPowerInjectiveAt(t * b, w * b);
    CancelNonZero(t, w, b);
  }

  /** The powers (1 + q) ** 1.2 and q ** 0.6 the conversion divides, raised to the fifth. */
  lemma ChirpPowersOfRatio(n: Numerics, q: real)
    requires ChirpPowersAreRoots(n) && q > 0.0
    ensures var a, b := n.pow(1.0 + q, 1.2), n.pow(q, 0.6);
      a > 0.0 && b > 0.0 && FifthPower(a) == FifthPower(1.0 + q) * (1.0 + q) && FifthPower(b) == q * q * q
  {
    FifthPowerUnfold(1.0 + q);
  }

  /** The quotient the conversion (mc, q) -> M computes, divided by 1 + q, is a primary mass
      that with ratio q has chirp mass mc. */
  lemma ChirpTotalMassAt(n: Numerics, mc: real, q: real)
    ensures ChirpPowersAreRoots(n) && q > 0.0 && mc > 0.0 ==>
      IsChirpMassRatio(mc, (mc * n.pow(1.0 + q, 1.2)) / n.pow(q, 0.6) / (1.0 + q), q)
  {
    if ChirpPowersAreRoots(n) && q > 0.0 && mc > 0.0 {
      ChirpPowersOfRatio(n, q);
      var a, b := n.pow(1.0 + q, 1.2), n.pow(q, 0.6);
      var t := (mc * a) / b;
      MulPositive(mc, a);
      PositiveQuotient(t, b, mc * a);
      var m1 := t / (1.0 + q);
      PositiveQuotient(m1, 1.0 + q, t);
      RatioRelationFromTotal(mc, m1, q, t, a, b);
      ChirpRelationFromRatio(mc, m1, q);
      assert IsChirpMassRatio(mc, m1, q);
      assert m1 == (mc * n.pow(1.0 + q, 1.2)) / n.pow(q, 0.6) / (1.0 + q);
    }
  }

  /** M b = mc a with a^5 = (1 + q)^6, b^5 = q^3 and M = m1 (1 + q) gives
      mc^5 (1 + q) = m1^5 q^3. */
  lemma RatioRelationFromTotal(mc: real, m1: real, q: real, t: real, a: real, b: real)
    requires q > 0.0 && t == m1 * (1.0 + q) && t * b == mc * a
    requires FifthPower(a) == FifthPower(1.0 + q) * (1.0 + q)
    requires FifthPower(b) == q * q * q
    ensures FifthPower(mc) * (1.0 + q) == FifthPower(m1) * (q * q * q)
  {
    calc {
      (FifthPower(m1) * (q * q * q)) * FifthPower(1.0 + q);
      (FifthPower(m1) * FifthPower(1.0 + q)) * FifthPower(b);
      { FifthPowerOfProductAt(m1, 1.0 + q, t); }
      FifthPower(t) * FifthPower(b);
      { FifthPowerOfProduct(t, b); }
      FifthPower(t * b);
      FifthPower(mc * a);
      { FifthPowerOfProduct(mc, a); }
      FifthPower(mc) * FifthPower(a);
      (FifthPower(mc) * (1.0 + q)) * FifthPower(1.0 + q);
    }
    FifthPowerPositiveAt(1.0 + q);
    CancelNonZero(FifthPower(mc) * (1.0 + q), FifthPower(m1) * (q * q * q), FifthPower(1.0 + q));
  }

  /** The converse of ChirpRelationInRatio: mc^5 (1 + q) = m1^5 q^3 makes mc the chirp mass of
      (m1, q m1). */
  lemma ChirpRelationFromRatio(mc: real, m1: real, q: real)
    requires mc > 0.0 && m1 > 0.0 && q > 0.0
    requires FifthPower(mc) * (1.0 + q) == FifthPower(m1) * (q * q * q)
    ensures IsChirpMassRatio(mc, m1, q)
  {
    var f, g := FifthPower(mc), FifthPower(m1);
    FifthPowerUnfold(m1);
    assert f * (m1 + q * m1) == (f * (1.0 + q)) * m1;
    assert (m1 * (q * m1)) * (m1 * (q * m1)) * (m1 * (q * m1)) == (g * (q * q * q)) * m1;
  }

  /** (mc, q) -> M recovers the total mass of (m1, m2). */
  lemma ChirpMassAndMassRatioToTotalMassConsistent(n: Numerics, mc: real, m1: real, m2: real)
    requires ChirpPowersAreRoots(n) && m1 > 0.0 && m2 > 0.0 && IsChirpMass(mc, m1, m2)
    ensures ChirpMassAndMassRatioToTotalMass(n, mc, m2 / m1) == Ok(m1 + m2)
  {
    var q := m2 / m1;
    assert q * m1 == m2;
    assert q > 0.0;
    ChirpPowersOfRatio(n, q);
    var t := ChirpMassAndMassRatioToTotalMass(n, mc, q).value;
    ChirpRelationInRatio(mc, m1, q);
    TotalMassFromChirpPowers(mc, m1, q, t, n.pow(1.0 + q, 1.2), n.pow(q, 0.6));
  }

  /** (mc, q) -> components recovers (m1, m2). */
  lemma ChirpMassAndMassRatioRoundTrip(n: Numerics, m1: real, m2: real)
    requires ChirpPowersAreRoots(n) && m1 > 0.0 && m2 > 0.0
    ensures ComponentMassesToChirpMass(n, m1, m2).Ok?
    ensures ChirpMassAndMassRatioToComponentMasses(n, ComponentMassesToChirpMass(n, m1, m2).value, m2 / m1)
            == Ok(ComponentMasses(m1, m2))
  {
    var mc := ComponentMassesToChirpMass(n, m1, m2).value;
    ChirpMassAndMassRatioToTotalMassConsistent(n, mc, m1, m2);
    ComponentMassesRoundTrip(m1, m2);
  }

  /** The chirp mass of a positive pair is determined by the pair. */
  lemma ChirpMassUnique(mc: real, mc': real, m1: real, m2: real)
    requires m1 > 0.0 && m2 > 0.0 && IsChirpMass(mc, m1, m2) && IsChirpMass(mc', m1, m2)
    ensures mc == mc'
  {
    CancelNonZero(FifthPower(mc), FifthPower(mc'), m1 + m2);
    FifthPowerInjectiveAt(mc, mc');
  }

  /** q is a positive mass ratio that, with primary mass m1, gives chirp mass mc. */
  ghost predicate IsChirpMassRatio(mc: real, m1: real, q: real)
  {
    q > 0.0 && IsChirpMass(mc, m1, q * m1)
  }

  /** q is a positive root of the cubic q^3 = a (1 + q) that fixes the mass ratio given
      a = (mc / m1)^5. */
  ghost predicate IsCardanoRoot(q: real, a: real)
  {
    q > 0.0 && q * q * q == a * (1.0 + q)
  }

  /** A positive root q of q^3 = a (1 + q) with a = (mc/m1)^5 is the mass ratio of a
      pair whose chirp mass is mc. */
  lemma CubicRootGivesChirpMass(mc: real, m1: real, q: real, a: real)
    requires m1 > 0.0 && mc > 0.0
    requires a == FifthPower(mc / m1)
    requires IsCardanoRoot(q, a)
    ensures IsChirpMassRatio(mc, m1, q)
  {
    var r := mc / m1;
    assert r * m1 == mc;
    FifthPowerOfProduct(r, m1);
    FifthPowerUnfold(m1);
    var f := FifthPower(m1);
    assert FifthPower(mc) == a * f;
    assert (m1 * (q * m1)) * (m1 * (q * m1)) * (m1 * (q * m1)) == (q * q * q) * (f * m1);
    assert (a * f) * (m1 + q * m1) == (a * (1.0 + q)) * (f * m1);
  }

  /** Cardano's product condition: u^3 = 2a^3/(3S) and v^3 = S/18 give u v = a/3. */
  lemma CardanoProduct(a: real, s: real, u: real, v: real)
    requires a > 0.0 && s > 0.0 && u > 0.0 && v > 0.0
    requires 3.0 * (u * u * u) * s == 2.0 * (a * a * a)
    requires 18.0 * (v * v * v) == s
    ensures u * v == a / 3.0
  {
    var w := u * v;
    CubeMul(u, v);
    assert (w * w * w) * (54.0 * s) == (3.0 * (u * u * u) * s) * (18.0 * (v * v * v));
    assert ((a / 3.0) * (a / 3.0) * (a / 3.0)) * (54.0 * s) == (2.0 * (a * a * a)) * s;
    CancelNonZero(w * w * w, (a / 3.0) * (a / 3.0) * (a / 3.0), 54.0 * s);
    CubeInjective(w, a / 3.0);
  }

  /** Cardano's sum condition: with S = 9a + R and R^2 = 81 a^2 - 12 a^3, the sum u + v
      solves x^3 = a (1 + x). */
  lemma CardanoChirpRoot(a: real, rr: real, u: real, v: real)
    requires a > 0.0 && rr >= 0.0 && u > 0.0 && v > 0.0
    requires rr * rr == 81.0 * (a * a) - 12.0 * (a * a * a)
    requires 3.0 * (u * u * u) * (9.0 * a + rr) == 2.0 * (a * a * a)
    requires 18.0 * (v * v * v) == 9.0 * a + rr
    ensures (u + v) * (u + v) * (u + v) == a * (1.0 + (u + v))
  {
    var s := 9.0 * a + rr;
    assert s > 0.0;
    CardanoProduct(a, s, u, v);
    var u3, v3 := u * u * u, v * v * v;
    assert 18.0 * s * (u3 + v3) == 6.0 * (3.0 * u3 * s) + s * (18.0 * v3);
    assert 18.0 * s * (u3 + v3) == 12.0 * (a * a * a) + s * s;
    assert s * s == 162.0 * (a * a) - 12.0 * (a * a * a) + 18.0 * a * rr;
    assert (u3 + v3) * (18.0 * s) == a * (18.0 * s);
    CancelNonZero(u3 + v3, a, 18.0 * s);
    CardanoRoot(a, u, v);
  }

  /** The discriminant 27 a^2 - 4 a^3 is non-negative up to a = 27/4. */
  lemma DiscriminantNonNegative(a: real)
    requires 0.0 < a <= 27.0 / 4.0
    ensures Discriminant(a) >= 0.0
  {
    assert 27.0 * (a * a) - 4.0 * (a * a * a) == (a * a) * (27.0 - 4.0 * a);
    SquarePositiveAt(a, a * a);
  }

  /** The np.cbrt form returns a positive solution of the chirp-mass relation. */
  lemma ChirpMassAndPrimaryMassToMassRatioSolves(n: Numerics, mc: real, m1: real)
    requires SqrtIsRoot(n) && CbrtIsRoot(n) && TwoThirdsPowerIsRoot(n)
    requires m1 > 0.0 && mc > 0.0 && FifthPower(mc / m1) <= 27.0 / 4.0
    ensures ChirpMassAndPrimaryMassToMassRatio(n, mc, m1).Ok?
    ensures IsChirpMassRatio(mc, m1, ChirpMassAndPrimaryMassToMassRatio(n, mc, m1).value)
  {
    FifthPowerPositiveAt(mc / m1);
    CbrtFormRoot(n, FifthPower(mc / m1));
    var q := ChirpMassAndPrimaryMassToMassRatio(n, mc, m1).value;
    CubicRootGivesChirpMass(mc, m1, q, FifthPower(mc / m1));
  }

  /** For 0 < a <= 27/4 the np.cbrt form of Cardano's formula is a positive root of
      q^3 = a (1 + q). */
  lemma CbrtFormRoot(n: Numerics, a: real)
    requires SqrtIsRoot(n) && CbrtIsRoot(n) && TwoThirdsPowerIsRoot(n)
    requires 0.0 < a <= 27.0 / 4.0
    ensures CardanoCbrtForm(n, a).Ok? && IsCardanoRoot(CardanoCbrtForm(n, a).value, a)
  {
    DiscriminantNonNegative(a);
    var r3, rd := n.sqrt(3.0), n.sqrt(Discriminant(a));
    var t0, t1, c := n.cbrt(CbrtRadicand(n, a)), CbrtDenominator(n), n.cbrt(TwoThirds);
    CbrtTerms(t0, n.cbrt(2.0), n.pow(3.0, TwoThirds), t1, c);
    CardanoCbrtRoot(a, r3, rd, r3 * rd, CbrtRadicand(n, a), t0, t1, c, CbrtNumerator(n, a),
                    CbrtNumerator(n, a) / t0, t0 / t1,
                    CbrtNumerator(n, a) / t0 + t0 / t1);
    QuotientsValue(CbrtNumerator(n, a), t0, t1);
  }

  /** The value of CardanoQuotients written out. */
  lemma QuotientsValue(t2: real, t0: real, t1: real)
    requires t0 != 0.0 && t1 != 0.0
    ensures CardanoQuotients(t2, t0, t1) == Ok(t2 / t0 + t0 / t1)
  {
    assert Div(t2, t0) == Ok(t2 / t0) && Div(t0, t1) == Ok(t0 / t1);
  }

  /** The cube roots np.cbrt(2), 3 ** (2/3) and np.cbrt(2/3): their product t1 cubes to 18. */
  lemma CbrtTerms(t0: real, c2: real, p: real, t1: real, c: real)
    requires c2 * c2 * c2 == 2.0 && p * p * p == 9.0 && c * c * c == TwoThirds && t1 == c2 * p
    ensures c > 0.0 && t1 > 0.0 && t1 * t1 * t1 == 18.0
  {
    CubePositive(c2);
    CubePositive(p);
    CubePositive(c);
    CubeMul(c2, p);
  }

  /** Cardano's formula in the np.cbrt form: u = np.cbrt(2/3) a / t0 and v = t0 / t1 with
      t0 = np.cbrt(S), t1^3 = 18 and S = 9a + R, R = sqrt(3) sqrt(27 a^2 - 4 a^3). */
  lemma CardanoCbrtRoot(a: real, r3: real, rd: real, rr: real, s: real, t0: real, t1: real, c: real,
                        num: real, u: real, v: real, q: real)
    requires 0.0 < a <= 27.0 / 4.0
    requires r3 >= 0.0 && r3 * r3 == 3.0
    requires rd >= 0.0 && rd * rd == Discriminant(a)
    requires rr == r3 * rd && s == 9.0 * a + rr
    requires t0 * t0 * t0 == s && t1 > 0.0 && t1 * t1 * t1 == 18.0
    requires c > 0.0 && c * c * c == TwoThirds && num == c * a
    requires u == num / t0 && v == t0 / t1 && q == u + v
    ensures t0 > 0.0 && IsCardanoRoot(q, a)
  {
    ProductOfRoots(r3, rd, rr, 3.0, Discriminant(a));
    assert s > 0.0;
    CubePositive(t0);
    CardanoCbrtCubes(a, s, t0, t1, c, num, u, v);
    CardanoChirpRoot(a, rr, u, v);
  }

  lemma ProductOfRoots(x: real, y: real, k: real, p: real, d: real)
    requires x >= 0.0 && y >= 0.0 && x * x == p && y * y == d && k == x * y
    ensures k >= 0.0 && k * k == p * d
  {
    MulNonNegative(x, y);
  }

  lemma CardanoCbrtCubes(a: real, s: real, t0: real, t1: real, c: real, num: real, u: real, v: real)
    requires a > 0.0 && t0 > 0.0 && t1 > 0.0 && c > 0.0
    requires t0 * t0 * t0 == s && t1 * t1 * t1 == 18.0 && c * c * c == TwoThirds
    requires num == c * a && u == num / t0 && v == t0 / t1
    ensures u > 0.0 && v > 0.0
    ensures 3.0 * (u * u * u) * s == 2.0 * (a * a * a)
    ensures 18.0 * (v * v * v) == s
  {
    assert u * t0 == c * a && v * t1 == t0;
    PositiveQuotient(u, t0, c * a);
    PositiveQuotient(v, t1, t0);
    CubeMul(u, t0);
    CubeMul(c, a);
    CubeMul(v, t1);
  }

  /** The `** (1/3)` form returns a positive solution of the chirp-mass relation. */
  lemma Mass1AndChirpMassToMassRatioSolves(n: Numerics, m1: real, mc: real)
    requires HalfPowerIsRoot(n) && ThirdPowerIsRoot(n)
    requires m1 > 0.0 && mc > 0.0 && FifthPower(mc / m1) <= 27.0 / 4.0
    ensures Mass1AndChirpMassToMassRatio(n, m1, mc).Ok?
    ensures IsChirpMassRatio(mc, m1, Mass1AndChirpMassToMassRatio(n, m1, mc).value)
  {
    FifthPowerPositiveAt(mc / m1);
    PowFormRoot(n, FifthPower(mc / m1));
    var q := Mass1AndChirpMassToMassRatio(n, m1, mc).value;
    CubicRootGivesChirpMass(mc, m1, q, FifthPower(mc / m1));
  }

  /** For 0 < t <= 27/4 the `**` form of Cardano's formula is a positive root of
      q^3 = t (1 + q). */
  lemma PowFormRoot(n: Numerics, t: real)
    requires HalfPowerIsRoot(n) && ThirdPowerIsRoot(n)
    requires 0.0 < t <= 27.0 / 4.0
    ensures CardanoPowForm(n, t).Ok? && IsCardanoRoot(CardanoPowForm(n, t).value, t)
  {
    DiscriminantNonNegative(t);
    var r3, rd := n.pow(3.0, 0.5), n.pow(Discriminant(t), 0.5);
    ProductOfRoots(r3, rd, r3 * rd, 3.0, Discriminant(t));
    var s := PowRadicand(n, t);
    assert s > 0.0;
    assert Div(TwoThirds, s) == Ok(TwoThirds / s);
    PowSumRoot(n, t, r3, rd, s, TwoThirds / s);
  }

  lemma PowSumRoot(n: Numerics, t: real, r3: real, rd: real, s: real, inner: real)
    requires ThirdPowerIsRoot(n)
    requires 0.0 < t <= 27.0 / 4.0
    requires r3 >= 0.0 && r3 * r3 == 3.0
    requires rd >= 0.0 && rd * rd == Discriminant(t)
    requires s == r3 * rd + 9.0 * t && s > 0.0 && inner == TwoThirds / s
    ensures IsCardanoRoot(PowSum(n, inner, s, t), t)
  {
    PositiveQuotient(inner, s, TwoThirds);
    CardanoPowRoot(t, r3, rd, r3 * rd, s, inner, n.pow(inner, OneThird), n.pow(s / 18.0, OneThird),
                   n.pow(inner, OneThird) * t, PowSum(n, inner, s, t));
  }

  /** Cardano's formula in the `**` form: u = (2/3 / S) ** (1/3) t and b = (S / 18) ** (1/3). */
  lemma CardanoPowRoot(t: real, r3: real, rd: real, rr: real, s: real, inner: real, a: real, b: real,
                       u: real, q: real)
    requires 0.0 < t <= 27.0 / 4.0
    requires r3 >= 0.0 && r3 * r3 == 3.0
    requires rd >= 0.0 && rd * rd == Discriminant(t)
    requires rr == r3 * rd && s == rr + 9.0 * t
    requires inner * s == TwoThirds
    requires a * a * a == inner && b * b * b == s / 18.0
    requires u == a * t && q == u + b
    ensures IsCardanoRoot(q, t)
  {
    ProductOfRoots(r3, rd, rr, 3.0, Discriminant(t));
    assert s > 0.0;
    CardanoPowCubes(t, s, inner, a, b, u);
    CardanoChirpRoot(t, rr, u, b);
  }

  lemma CardanoPowCubes(t: real, s: real, inner: real, a: real, b: real, u: real)
    requires t > 0.0 && s > 0.0 && inner * s == TwoThirds
    requires a * a * a == inner && b * b * b == s / 18.0 && u == a * t
    ensures u > 0.0 && b > 0.0
    ensures 3.0 * (u * u * u) * s == 2.0 * (t * t * t)
    ensures 18.0 * (b * b * b) == s
  {
    PositiveQuotient(inner, s, TwoThirds);
    CubePositive(a);
    CubePositive(b);
    MulPositive(a, t);
    CubeMul(a, t);
    assert 3.0 * ((a * a * a) * (t * t * t)) * s == 3.0 * (inner * s) * (t * t * t);
  }

  /** Called with mass_2, the reciprocal of the result is the mass ratio of a pair
      with secondary mass_2 and chirp mass mc. */
  lemma Mass2AndChirpMassToMassRatioSolves(n: Numerics, m2: real, mc: real)
    requires HalfPowerIsRoot(n) && ThirdPowerIsRoot(n)
    requires m2 > 0.0 && mc > 0.0 && FifthPower(mc / m2) <= 27.0 / 4.0
    ensures Mass2AndChirpMassToMassRatio(n, m2, mc).Ok?
    ensures var q := Mass2AndChirpMassToMassRatio(n, m2, mc).value;
      q > 0.0 && IsChirpMass(mc, m2 / q, m2)
  {
    Mass1AndChirpMassToMassRatioSolves(n, m2, mc);
    ReciprocalRatio(mc, m2, Mass1AndChirpMassToMassRatio(n, m2, mc).value, Mass2AndChirpMassToMassRatio(n, m2, mc).value);
  }

  /** The premise (Mc/m1)^5 <= 27/4 of the Solves lemmas holds exactly for q <= 3: beyond
      it the radicand 27 t^2 - 4 t^3 of the ratio formulas is negative. */
  lemma ChirpRatioPremise(mc: real, m1: real, q: real)
    requires m1 > 0.0 && IsChirpMassRatio(mc, m1, q)
    ensures FifthPower(mc / m1) <= 27.0 / 4.0 <==> q <= 3.0
  {
    var x := mc / m1;
    var t, f := FifthPower(x), FifthPower(m1);
    FifthPowerOfProductAt(x, m1, mc);
    FifthPowerUnfold(m1);
    assert (m1 * (q * m1)) * (m1 * (q * m1)) * (m1 * (q * m1)) == (q * q * q) * (f * m1);
    assert FifthPower(mc) * (m1 + q * m1) == (t * (1.0 + q)) * (f * m1);
    MulPositive(f, m1);
    CancelNonZero(t * (1.0 + q), q * q * q, f * m1);
    CubicRatioBound(t, q);
  }

  /** For the mass_2 form the same premise, (Mc/m2)^5 <= 27/4, holds exactly for q >= 1/3. */
  lemma Mass2RatioPremise(mc: real, m2: real, q: real)
    requires m2 > 0.0 && q > 0.0 && IsChirpMass(mc, m2 / q, m2)
    ensures FifthPower(mc / m2) <= 27.0 / 4.0 <==> q >= 1.0 / 3.0
  {
    var p := 1.0 / q;
    assert p * m2 == m2 / q;
    ChirpMassSymmetric(mc, m2 / q, m2);
    PositiveQuotient(p, q, 1.0);
    ChirpRatioPremise(mc, m2, p);
    assert p <= 3.0 <==> q >= 1.0 / 3.0 by {
      assert p * q == 1.0;
      FactorSign(p - 3.0, q);
      assert (p - 3.0) * q == 1.0 - 3.0 * q;
    }
  }

  /** t (1 + q) = q^3 with q > 0: t <= 27/4 iff q <= 3, since 4 q^3 - 27 q - 27 = (q - 3)(2 q + 3)^2. */
  lemma CubicRatioBound(t: real, q: real)
    requires q > 0.0 && t * (1.0 + q) == q * q * q
    ensures t <= 27.0 / 4.0 <==> q <= 3.0
  {
    var s := (2.0 * q + 3.0) * (2.0 * q + 3.0);
    assert 4.0 * (q * q * q) - 27.0 * q - 27.0 == (q - 3.0) * s;
    assert (t - 6.75) * (1.0 + q) * 4.0 == (q - 3.0) * s;
    MulPositive(2.0 * q + 3.0, 2.0 * q + 3.0);
    FactorSign(q - 3.0, s);
    FactorSign(t - 6.75, 1.0 + q);
  }

  /** With b > 0, a b has the sign of a. */
  lemma FactorSign(a: real, b: real)
    requires b > 0.0
    ensures a * b <= 0.0 <==> a <= 0.0
  {
    if a > 0.0 {
      MulPositive(a, b);
    } else {
      MulNonNegative(-a, b);
    }
  }

  /** The reciprocal q of a ratio p found from the secondary mass m2 makes m2 / q the primary. */
  lemma ReciprocalRatio(mc: real, m2: real, p: real, q: real)
    requires IsChirpMassRatio(mc, m2, p) && q * p == 1.0
    ensures q > 0.0 && IsChirpMass(mc, m2 / q, m2)
  {
    PositiveQuotient(q, p, 1.0);
    assert (p * m2) * q == m2;
    ChirpMassSymmetric(mc, m2, p * m2);
  }

  lemma ChirpMassSymmetric(mc: real, m1: real, m2: real)
    requires IsChirpMass(mc, m1, m2)
    ensures IsChirpMass(mc, m2, m1)
  {
    assert m1 * m2 == m2 * m1;
  }
}
