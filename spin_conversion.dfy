/**
  Spin parameters: the degenerate fast path of bilby_to_lalsimulation_spins, the
  component spins of generate_component_spins and the effective spins chi_eff and
  chi_p of generate_spin_parameters.

  The general (precessing) transform is a call into lalsimulation; it is a parameter
  here, as are np.cos, np.arctan2 and np.sqrt (through Numerics).
*/
module SpinConversion {
  import opened Values
  import opened Numerics
  import opened RealAlgebra

  /** The arguments of bilby_to_lalsimulation_spins, masses in kilograms. */
  datatype SpinArguments = SpinArguments(
    thetaJn: real, phiJl: real, tilt1: real, tilt2: real, phi12: real,
    a1: real, a2: real, mass1: real, mass2: real, referenceFrequency: real, phase: real)

  /** The inclination and the Cartesian components of both spins. */
  datatype SpinFrame = SpinFrame(
    iota: real,
    spin1x: real, spin1y: real, spin1z: real,
    spin2x: real, spin2y: real, spin2z: real)

  /** lalsimulation's SimInspiralTransformPrecessingNewInitialConditions. */
  type SpinTransform = SpinArguments -> SpinFrame

  /** np.cos at the two aligned tilts. */
  ghost predicate CosAtAlignedTilts(n: Numerics)
  {
    n.cos(0.0) == 1.0 && n.cos(n.pi) == -1.0
  }

  /** np.arctan2 takes values in [-pi, pi]. */
  ghost predicate Atan2InRange(n: Numerics)
  {
    forall y, x :: -(n.pi as real) <= n.atan2(y, x) <= n.pi
  }

  // ---------------------------------------------------------------------------
  // bilby_to_lalsimulation_spins
  // ---------------------------------------------------------------------------

  /** A spin lies along the orbital angular momentum: zero magnitude or tilt 0 or pi. */
  predicate Aligned(n: Numerics, a: real, tilt: real)
  {
    a == 0.0 || tilt == 0.0 || tilt == n.pi
  }

  /** Both spins aligned: no transform is needed, spin_z = a cos(tilt) and iota = theta_jn.
      Otherwise the foreign transform decides. */
  function BilbyToLalsimulationSpins(n: Numerics, transform: SpinTransform, args: SpinArguments): (r: SpinFrame)
    ensures Aligned(n, args.a1, args.tilt1) && Aligned(n, args.a2, args.tilt2) ==>
      && r.iota == args.thetaJn
      && r.spin1x == 0.0 && r.spin1y == 0.0 && r.spin2x == 0.0 && r.spin2y == 0.0
    ensures !(Aligned(n, args.a1, args.tilt1) && Aligned(n, args.a2, args.tilt2)) ==> r == transform(args)
  {
    if Aligned(n, args.a1, args.tilt1) && Aligned(n, args.a2, args.tilt2) then
      SpinFrame(args.thetaJn, 0.0, 0.0, AlignedComponent(n, args.a1, args.tilt1),
                0.0, 0.0, AlignedComponent(n, args.a2, args.tilt2))
    else
      transform(args)
  }

  /** a * np.cos(tilt): the z-component of an aligned spin. */
  function AlignedComponent(n: Numerics, a: real, tilt: real): (z: real)
    ensures CosAtAlignedTilts(n) && Aligned(n, a, tilt) ==> z * z == a * a
    ensures CosAtAlignedTilts(n) && tilt == 0.0 ==> z == a
  {
    a * n.cos(tilt)
  }

  /** On the fast path each spin keeps its magnitude: |spin_i|^2 == a_i^2. */
  lemma FastPathKeepsMagnitudes(n: Numerics, transform: SpinTransform, args: SpinArguments)
    requires CosAtAlignedTilts(n)
    requires Aligned(n, args.a1, args.tilt1) && Aligned(n, args.a2, args.tilt2)
    ensures var r := BilbyToLalsimulationSpins(n, transform, args);
      && r.spin1x * r.spin1x + r.spin1y * r.spin1y + r.spin1z * r.spin1z == args.a1 * args.a1
      && r.spin2x * r.spin2x + r.spin2y * r.spin2y + r.spin2z * r.spin2z == args.a2 * args.a2
  {
  }

  // ---------------------------------------------------------------------------
  // generate_component_spins
  // ---------------------------------------------------------------------------

  /** v is a whole number. */
  predicate IsIntegral(v: real)
  {
    v.Floor as real == v
  }

  /** C's fmod (np.fmod): the remainder of x / y with the sign of x, that is, x minus a
      whole multiple of y. */
  function Fmod(x: real, y: PositiveReal): (r: real)
    ensures x >= 0.0 ==> 0.0 <= r < y
    ensures x < 0.0 ==> -(y as real) < r <= 0.0
    ensures IsIntegral((x - r) / y)
  {
    var t := Truncate(x / y);
    FmodBounds(x, y, x / y, t as real);
    MultipleQuotient(x - (x - (t as real) * y), y, t);
    x - (t as real) * y
  }

  /** d = t y with t whole makes d / y whole. */
  lemma MultipleQuotient(d: real, y: real, t: int)
    requires y > 0.0 && d == (t as real) * y
    ensures IsIntegral(d / y)
  {
    assert d / y == t as real;
  }

  /** Rounding toward zero. */
  function Truncate(q: real): (t: int)
    ensures q >= 0.0 ==> t as real <= q < t as real + 1.0
    ensures q < 0.0 ==> t as real - 1.0 < q <= t as real
  {
    if q >= 0.0 then q.Floor else -((-q).Floor)
  }

  lemma FmodBounds(x: real, y: real, q: real, t: real)
    requires y > 0.0 && q == x / y
    requires q >= 0.0 ==> t <= q < t + 1.0
    requires q < 0.0 ==> t - 1.0 < q <= t
    ensures x >= 0.0 ==> 0.0 <= x - t * y < y
    ensures x < 0.0 ==> -y < x - t * y <= 0.0
  {
    var d := q - t;
    assert q * y == x;
    assert x - t * y == d * y;
    if x >= 0.0 {
      NonNegativeQuotient(q, y, x);
      MulNonNegative(d, y);
      MulPositive(1.0 - d, y);
      assert (1.0 - d) * y == y - d * y;
    } else {
      assert q < 0.0 by { if q >= 0.0 { MulNonNegative(q, y); } }
      MulNonNegative(-d, y);
      MulPositive(1.0 + d, y);
      assert (1.0 + d) * y == y + d * y;
    }
  }

  /** The azimuth of a spin, np.fmod(2 pi + np.arctan2(y, x), 2 pi): the angle of arctan2
      moved into [0, 2 pi), so a negative angle gains a full turn and the others are kept. */
  function SpinAzimuth(n: Numerics, y: real, x: real): (phi: real)
    ensures Atan2InRange(n) ==> 0.0 <= phi < 2.0 * n.pi
    ensures Atan2InRange(n) ==>
      phi == (if n.atan2(y, x) < 0.0 then n.atan2(y, x) + 2.0 * n.pi else n.atan2(y, x))
  {
    var phi := Fmod(2.0 * n.pi + n.atan2(y, x), 2.0 * n.pi);
    AzimuthShift(2.0 * n.pi, n.atan2(y, x), phi);
    phi
  }

  /** fmod(w + a, w) for a in [-w/2, w/2]: a + w for a negative a, else a. */
  lemma AzimuthShift(w: real, a: real, phi: real)
    requires w > 0.0 && IsIntegral((w + a - phi) / w)
    requires w + a >= 0.0 ==> 0.0 <= phi < w
    ensures -w <= 2.0 * a <= w ==> phi == (if a < 0.0 then a + w else a)
  {
    if -w <= 2.0 * a <= w {
      AzimuthShiftIn(w, a, phi);
    }
  }

  lemma AzimuthShiftIn(w: real, a: real, phi: real)
    requires w > 0.0 && -w <= 2.0 * a <= w
    requires 0.0 <= phi < w && IsIntegral((w + a - phi) / w)
    ensures phi == (if a < 0.0 then a + w else a)
  {
    var k := ((w + a - phi) / w).Floor;
    assert (k as real) * w == w + a - phi;
    if k <= -1 {
      MulNonNegative(-1.0 - k as real, w);
    } else if k >= 2 {
      MulNonNegative(k as real - 2.0, w);
    }
    assert k == 0 || k == 1;
  }

  /** The keys generate_component_spins may write. */
  const SpinKeys: set<string> :=
    {"iota", "spin_1x", "spin_1y", "spin_1z", "spin_2x", "spin_2y", "spin_2z", "phi_1", "phi_2"}

  /** The keys generate_spin_parameters writes besides those. */
  const SpinParameterKeys: set<string> :=
    {"chi_eff", "chi_1_in_plane", "chi_2_in_plane", "chi_p", "cos_tilt_1", "cos_tilt_2"}

  /** chi_eff (1 + q) == spin_1z + q spin_2z, all four being floats. */
  predicate ChiEffWeighted(o: Sample)
  {
    && HasReal(o, "chi_eff") && HasReal(o, "spin_1z") && HasReal(o, "spin_2z") && HasReal(o, "mass_ratio")
    && o["chi_eff"].x * (1.0 + o["mass_ratio"].x) == o["spin_1z"].x + o["spin_2z"].x * o["mass_ratio"].x
  }

  /** The keys the general transform needs. */
  const SpinConversionKeys: seq<string> :=
    ["theta_jn", "phi_jl", "tilt_1", "tilt_2", "phi_12", "a_1", "a_2",
     "mass_1", "mass_2", "reference_frequency", "phase"]

  /** Read the transform's arguments; masses are converted to kilograms. */
  function ReadSpinArguments(n: Numerics, s: Sample): (r: Result<SpinArguments>)
    ensures r.Ok? ==> HasReal(s, "a_1") && HasReal(s, "tilt_1") && HasReal(s, "a_2") && HasReal(s, "tilt_2")
    ensures r.Ok? ==> r.value.a1 == s["a_1"].x && r.value.tilt1 == s["tilt_1"].x
    ensures r.Ok? ==> r.value.a2 == s["a_2"].x && r.value.tilt2 == s["tilt_2"].x
    ensures (forall key <- SpinConversionKeys :: key in s && s[key].Num?) ==> r.Ok?
  {
    var thetaJn :- GetReal(s, "theta_jn");
    var phiJl :- GetReal(s, "phi_jl");
    var tilt1 :- GetReal(s, "tilt_1");
    var tilt2 :- GetReal(s, "tilt_2");
    var phi12 :- GetReal(s, "phi_12");
    var a1 :- GetReal(s, "a_1");
    var a2 :- GetReal(s, "a_2");
    var mass1 :- GetReal(s, "mass_1");
    var mass2 :- GetReal(s, "mass_2");
    var referenceFrequency :- GetReal(s, "reference_frequency");
    var phase :- GetReal(s, "phase");
    Ok(SpinArguments(thetaJn, phiJl, tilt1, tilt2, phi12, a1, a2,
      mass1 * n.solarMass, mass2 * n.solarMass, referenceFrequency, phase))
  }

  /** Store a spin frame and the two spin azimuths. */
  function WithSpinFrame(n: Numerics, s: Sample, f: SpinFrame): (o: Sample)
    ensures o.Keys == s.Keys + SpinKeys && KeepsOthers(o, s, SpinKeys)
    ensures o["spin_1z"] == Num(f.spin1z) && o["spin_2z"] == Num(f.spin2z)
    ensures o["phi_1"] == Num(SpinAzimuth(n, f.spin1y, f.spin1x))
    ensures o["phi_2"] == Num(SpinAzimuth(n, f.spin2y, f.spin2x))
  {
    s["iota" := Num(f.iota)]
      ["spin_1x" := Num(f.spin1x)]["spin_1y" := Num(f.spin1y)]["spin_1z" := Num(f.spin1z)]
      ["spin_2x" := Num(f.spin2x)]["spin_2y" := Num(f.spin2y)]["spin_2z" := Num(f.spin2z)]
      ["phi_1" := Num(SpinAzimuth(n, f.spin1y, f.spin1x))]
      ["phi_2" := Num(SpinAzimuth(n, f.spin2y, f.spin2x))]
  }

  /** generate_component_spins: with every transform argument present, the Cartesian spins,
      iota and the azimuths; else, with chi_1 and chi_2, spins along z equal to them; else
      the sample unchanged. */
  function GenerateComponentSpins(n: Numerics, transform: SpinTransform, s: Sample): (r: Result<Sample>)
    ensures r.Ok? ==> s.Keys <= r.value.Keys
    ensures r.Ok? ==> KeepsOthers(r.value, s, SpinKeys) && r.value.Keys <= s.Keys + SpinKeys
    ensures (forall key <- SpinConversionKeys :: key in s && s[key].Num?) ==>
      r.Ok? && "spin_1z" in r.value && "spin_2z" in r.value
    ensures (exists key <- SpinConversionKeys :: key !in s) && "chi_1" in s && "chi_2" in s ==>
      r.Ok? && AlignedSpins(r.value, s["chi_1"], s["chi_2"])
    ensures (exists key <- SpinConversionKeys :: key !in s) && !("chi_1" in s && "chi_2" in s) ==> r == Ok(s)
  {
    if forall key <- SpinConversionKeys :: key in s then
      var args :- ReadSpinArguments(n, s);
      Ok(WithSpinFrame(n, s, BilbyToLalsimulationSpins(n, transform, args)))
    else if "chi_1" in s && "chi_2" in s then
      Ok(s["spin_1x" := Num(0.0)]["spin_1y" := Num(0.0)]["spin_1z" := s["chi_1"]]
          ["spin_2x" := Num(0.0)]["spin_2y" := Num(0.0)]["spin_2z" := s["chi_2"]])
    else
      Ok(s)
  }

  /** Spins along the orbital angular momentum with z-components chi1 and chi2. */
  predicate AlignedSpins(o: Sample, chi1: Value, chi2: Value)
  {
    && "spin_1x" in o && "spin_1y" in o && "spin_1z" in o
    && "spin_2x" in o && "spin_2y" in o && "spin_2z" in o
    && o["spin_1x"] == Num(0.0) && o["spin_1y"] == Num(0.0) && o["spin_1z"] == chi1
    && o["spin_2x"] == Num(0.0) && o["spin_2y"] == Num(0.0) && o["spin_2z"] == chi2
  }

  /** With all transform arguments present and aligned spins of tilt 0, the fast path puts
      the spin magnitudes on the z-axis. */
  lemma AlignedTransformGivesMagnitudes(n: Numerics, transform: SpinTransform, s: Sample)
    requires CosAtAlignedTilts(n)
    requires forall key <- SpinConversionKeys :: key in s && s[key].Num?
    requires s["tilt_1"] == Num(0.0) && s["tilt_2"] == Num(0.0)
    ensures GenerateComponentSpins(n, transform, s).Ok?
    ensures GenerateComponentSpins(n, transform, s).value["spin_1z"] == s["a_1"]
    ensures GenerateComponentSpins(n, transform, s).value["spin_2z"] == s["a_2"]
  {
    var args := ReadSpinArguments(n, s).value;
    assert Aligned(n, args.a1, args.tilt1) && Aligned(n, args.a2, args.tilt2);
  }

  // ---------------------------------------------------------------------------
  // generate_spin_parameters
  // ---------------------------------------------------------------------------

  /** chi_eff = (spin_1z + q spin_2z) / (1 + q): the mass-weighted aligned spin. */
  function EffectiveSpin(spin1z: real, spin2z: real, q: real): (r: Result<real>)
    ensures r.Ok? <==> q != -1.0
    ensures r.Ok? ==> r.value * (1.0 + q) == spin1z + spin2z * q
  {
    Div(spin1z + spin2z * q, 1.0 + q)
  }

  /** For a positive ratio and aligned spins bounded by 1, |chi_eff| <= 1, and chi_eff lies
      between the two spins. */
  lemma EffectiveSpinBounded(spin1z: real, spin2z: real, q: real)
    requires q > 0.0
    ensures EffectiveSpin(spin1z, spin2z, q).Ok?
    ensures var chi := EffectiveSpin(spin1z, spin2z, q).value;
      (spin1z <= chi <= spin2z) || (spin2z <= chi <= spin1z)
    ensures -1.0 <= spin1z <= 1.0 && -1.0 <= spin2z <= 1.0 ==>
      -1.0 <= EffectiveSpin(spin1z, spin2z, q).value <= 1.0
  {
    var chi := EffectiveSpin(spin1z, spin2z, q).value;
    // chi - spin1z and spin2z - chi are q/(1+q) and 1/(1+q) times spin2z - spin1z.
    assert (chi - spin1z) * (1.0 + q) == (spin2z - spin1z) * q;
    assert (spin2z - chi) * (1.0 + q) == spin2z - spin1z;
    if spin1z <= spin2z {
      MulNonNegative(spin2z - spin1z, q);
      NonNegativeQuotient(chi - spin1z, 1.0 + q, (spin2z - spin1z) * q);
      NonNegativeQuotient(spin2z - chi, 1.0 + q, spin2z - spin1z);
    } else {
      MulNonNegative(spin1z - spin2z, q);
      NonNegativeQuotient(spin1z - chi, 1.0 + q, (spin1z - spin2z) * q);
      NonNegativeQuotient(chi - spin2z, 1.0 + q, spin1z - spin2z);
    }
  }

  /** (4 q + 3) / (3 q + 4) * q: the weight of the secondary's in-plane spin in chi_p. */
  function PrecessionWeight(q: real): (r: Result<real>)
    ensures r.Ok? <==> 3.0 * q + 4.0 != 0.0
    ensures r.Ok? && 0.0 < q <= 1.0 ==> 0.0 < r.value <= 1.0
  {
    var ratio :- Div(4.0 * q + 3.0, 3.0 * q + 4.0);
    PrecessionWeightBound(q, ratio);
    Ok(ratio * q)
  }

  lemma PrecessionWeightBound(q: real, ratio: real)
    requires 3.0 * q + 4.0 != 0.0 && ratio * (3.0 * q + 4.0) == 4.0 * q + 3.0
    ensures 0.0 < q <= 1.0 ==> 0.0 < ratio * q <= 1.0
  {
    if 0.0 < q <= 1.0 {
      PositiveQuotient(ratio, 3.0 * q + 4.0, 4.0 * q + 3.0);
      MulPositive(ratio, q);
      // (ratio q - 1)(3 q + 4) = 4 q^2 - 4 = 4 (q - 1)(q + 1) <= 0.
      assert (ratio * q - 1.0) * (3.0 * q + 4.0) == 4.0 * (q - 1.0) * (q + 1.0);
      MulNonNegative(1.0 - q, q + 1.0);
      if ratio * q > 1.0 {
        MulPositive(ratio * q - 1.0, 3.0 * q + 4.0);
      }
    }
  }

  function Max(a: real, b: real): (r: real)
    ensures r >= a && r >= b && (r == a || r == b)
  {
    if a >= b then a else b
  }

  /** chi_p = max(chi_1_in_plane, weight * chi_2_in_plane), as np.maximum: the larger of the
      primary's in-plane spin and the secondary's weighted by PrecessionWeight. */
  function PrecessingSpin(chi1InPlane: real, chi2InPlane: real, q: real): (r: Result<real>)
    ensures r.Ok? <==> 3.0 * q + 4.0 != 0.0
    ensures r.Ok? ==> r.value >= chi1InPlane
    ensures r.Ok? ==> var weighted := PrecessionWeight(q).value * chi2InPlane;
      r.value >= weighted && (r.value == chi1InPlane || r.value == weighted)
  {
    var weight :- PrecessionWeight(q);
    Ok(Max(chi1InPlane, weight * chi2InPlane))
  }

  /** For 0 < q <= 1 and non-negative in-plane spins, chi_p lies between the primary's
      in-plane spin and the larger of the two. */
  lemma PrecessingSpinBounded(chi1InPlane: real, chi2InPlane: real, q: real)
    requires 0.0 < q <= 1.0 && chi1InPlane >= 0.0 && chi2InPlane >= 0.0
    ensures PrecessingSpin(chi1InPlane, chi2InPlane, q).Ok?
    ensures chi1InPlane <= PrecessingSpin(chi1InPlane, chi2InPlane, q).value <= Max(chi1InPlane, chi2InPlane)
  {
    var weight := PrecessionWeight(q).value;
    MulNonNegative(1.0 - weight, chi2InPlane);
  }

  /** np.sqrt(x ** 2 + y ** 2): the in-plane spin magnitude. */
  function InPlane(n: Numerics, x: real, y: real): (r: real)
    ensures SqrtIsRoot(n) ==> r >= 0.0 && r * r == x * x + y * y
  {
    SquareNonNegativeAt(x, x * x);
    SquareNonNegativeAt(y, y * y);
    n.sqrt(x * x + y * y)
  }

  /** The cos(tilt) keys under the try/except KeyError: cos_tilt_1 stays assigned when only
      tilt_2 is missing, since the exception comes after that assignment. */
  function WithCosTilts(n: Numerics, o: Sample): (r: Result<Sample>)
    ensures "tilt_1" !in o ==> r == Ok(o)
    ensures r.Ok? && "tilt_1" in o ==>
      HasReal(o, "tilt_1") && "cos_tilt_1" in r.value && r.value["cos_tilt_1"] == Num(n.cos(o["tilt_1"].x))
    ensures r.Ok? && "tilt_1" in o && "tilt_2" in o ==>
      HasReal(o, "tilt_2") && "cos_tilt_2" in r.value && r.value["cos_tilt_2"] == Num(n.cos(o["tilt_2"].x))
    ensures "tilt_1" in o ==> (r.Ok? <==> HasReal(o, "tilt_1") && ("tilt_2" in o ==> HasReal(o, "tilt_2")))
    ensures r.Ok? ==> o.Keys <= r.value.Keys <= o.Keys + {"cos_tilt_1", "cos_tilt_2"}
    ensures r.Ok? ==> KeepsOthers(r.value, o, {"cos_tilt_1", "cos_tilt_2"})
    ensures r.Ok? && ChiEffWeighted(o) ==> ChiEffWeighted(r.value)
    ensures r.Ok? && ChiPDominates(o) ==> ChiPDominates(r.value)
    ensures r.Ok? && SpinSummary(n, o) ==> SpinSummary(n, r.value)
  {
    var r :=
      if "tilt_1" !in o then Ok(o)
      else
        var tilt1 :- AsReal(o["tilt_1"]);
        var o1 := o["cos_tilt_1" := Num(n.cos(tilt1))];
        if "tilt_2" !in o1 then Ok(o1)
        else
          var tilt2 :- AsReal(o1["tilt_2"]);
          Ok(o1["cos_tilt_2" := Num(n.cos(tilt2))]);
    SummariesSurviveCosTilts(n, o, r);
    r
  }

  /** Writing only the cos_tilt keys keeps the spin-summary relations. */
  lemma SummariesSurviveCosTilts(n: Numerics, o: Sample, r: Result<Sample>)
    requires r.Ok? ==> o.Keys <= r.value.Keys && KeepsOthers(r.value, o, {"cos_tilt_1", "cos_tilt_2"})
    ensures r.Ok? && ChiEffWeighted(o) ==> ChiEffWeighted(r.value)
    ensures r.Ok? && ChiPDominates(o) ==> ChiPDominates(r.value)
    ensures r.Ok? && SpinSummary(n, o) ==> SpinSummary(n, r.value)
  {
  }

  /** chi_p >= chi_1_in_plane, both being floats. */
  predicate ChiPDominates(o: Sample)
  {
    HasReal(o, "chi_p") && HasReal(o, "chi_1_in_plane") && o["chi_p"].x >= o["chi_1_in_plane"].x
  }

  /** The in-plane spins are the magnitudes of the x-y components, and chi_p is the larger
      of chi_1_in_plane and the weighted chi_2_in_plane, all being floats. */
  predicate SpinSummary(n: Numerics, o: Sample)
  {
    && HasReal(o, "spin_1x") && HasReal(o, "spin_1y") && HasReal(o, "spin_2x") && HasReal(o, "spin_2y")
    && HasReal(o, "chi_1_in_plane") && HasReal(o, "chi_2_in_plane") && HasReal(o, "chi_p") && HasReal(o, "mass_ratio")
    && o["chi_1_in_plane"].x == InPlane(n, o["spin_1x"].x, o["spin_1y"].x)
    && o["chi_2_in_plane"].x == InPlane(n, o["spin_2x"].x, o["spin_2y"].x)
    && PrecessionWeight(o["mass_ratio"].x).Ok?
    && o["chi_p"].x == Max(o["chi_1_in_plane"].x, PrecessionWeight(o["mass_ratio"].x).value * o["chi_2_in_plane"].x)
  }

  /** chi_eff, the in-plane spin magnitudes and chi_p from the component spins and the mass ratio. */
  function WithEffectiveSpins(n: Numerics, o: Sample): (r: Result<Sample>)
    ensures r.Ok? ==> r.value.Keys == o.Keys + {"chi_eff", "chi_1_in_plane", "chi_2_in_plane", "chi_p"}
    ensures r.Ok? ==> KeepsOthers(r.value, o, {"chi_eff", "chi_1_in_plane", "chi_2_in_plane", "chi_p"})
    ensures r.Ok? ==> ChiEffWeighted(r.value) && ChiPDominates(r.value) && SpinSummary(n, r.value)
  {
    var spin1z :- GetReal(o, "spin_1z");
    var spin2z :- GetReal(o, "spin_2z");
    var q :- GetReal(o, "mass_ratio");
    var chiEff :- EffectiveSpin(spin1z, spin2z, q);
    var spin1x :- GetReal(o, "spin_1x");
    var spin1y :- GetReal(o, "spin_1y");
    var chi1 := InPlane(n, spin1x, spin1y);
    var spin2x :- GetReal(o, "spin_2x");
    var spin2y :- GetReal(o, "spin_2y");
    var chi2 := InPlane(n, spin2x, spin2y);
    var chiP :- PrecessingSpin(chi1, chi2, q);
    Ok(o["chi_eff" := Num(chiEff)]["chi_1_in_plane" := Num(chi1)]
      ["chi_2_in_plane" := Num(chi2)]["chi_p" := Num(chiP)])
  }

  /** generate_spin_parameters: the component spins, then chi_eff, the in-plane spins, chi_p
      and, where the tilts are present, their cosines. chi_eff is the mass-weighted z-spin,
      chi_p is at least the primary's in-plane spin, and keys other than those written keep
      their values. */
  function GenerateSpinParameters(n: Numerics, transform: SpinTransform, s: Sample): (r: Result<Sample>)
    ensures r.Ok? ==> s.Keys + {"chi_eff", "chi_1_in_plane", "chi_2_in_plane", "chi_p"} <= r.value.Keys
    ensures r.Ok? ==> ChiEffWeighted(r.value) && ChiPDominates(r.value) && SpinSummary(n, r.value)
    ensures r.Ok? ==> KeepsOthers(r.value, s, SpinKeys + SpinParameterKeys)
    ensures r.Ok? && "tilt_1" in s ==>
      HasReal(r.value, "tilt_1") && "cos_tilt_1" in r.value && r.value["cos_tilt_1"] == Num(n.cos(r.value["tilt_1"].x))
  {
    var o :- GenerateComponentSpins(n, transform, s);
    var o2 :- WithEffectiveSpins(n, o);
    var r := WithCosTilts(n, o2);
    SpinParametersFrame(s, o, o2, r);
    r
  }

  /** The three steps of generate_spin_parameters write only the spin and summary keys, and
      keep tilt_1. */
  lemma SpinParametersFrame(s: Sample, o: Sample, o2: Sample, r: Result<Sample>)
    requires s.Keys <= o.Keys && KeepsOthers(o, s, SpinKeys)
    requires o2.Keys == o.Keys + {"chi_eff", "chi_1_in_plane", "chi_2_in_plane", "chi_p"}
    requires KeepsOthers(o2, o, {"chi_eff", "chi_1_in_plane", "chi_2_in_plane", "chi_p"})
    requires r.Ok? ==> o2.Keys <= r.value.Keys && KeepsOthers(r.value, o2, {"cos_tilt_1", "cos_tilt_2"})
    ensures r.Ok? ==> s.Keys + {"chi_eff", "chi_1_in_plane", "chi_2_in_plane", "chi_p"} <= r.value.Keys
    ensures r.Ok? ==> KeepsOthers(r.value, s, SpinKeys + SpinParameterKeys)
    ensures r.Ok? && "tilt_1" in s ==> "tilt_1" in o2 && r.value["tilt_1"] == o2["tilt_1"]
  {
  }

  /** Over a spin summary with 0 < q <= 1, the in-plane spins are the magnitudes of the
      (x, y) spin components and chi_p lies between the primary's in-plane spin and the
      larger of the two. */
  lemma SpinSummaryBounded(n: Numerics, o: Sample)
    requires SpinSummary(n, o) && SqrtIsRoot(n) && 0.0 < o["mass_ratio"].x <= 1.0
    ensures o["chi_1_in_plane"].x * o["chi_1_in_plane"].x == o["spin_1x"].x * o["spin_1x"].x + o["spin_1y"].x * o["spin_1y"].x
    ensures o["chi_2_in_plane"].x * o["chi_2_in_plane"].x == o["spin_2x"].x * o["spin_2x"].x + o["spin_2y"].x * o["spin_2y"].x
    ensures 0.0 <= o["chi_1_in_plane"].x <= o["chi_p"].x <= Max(o["chi_1_in_plane"].x, o["chi_2_in_plane"].x)
    // sub-extremal in-plane spins give chi_p <= 1
    ensures (o["spin_1x"].x * o["spin_1x"].x + o["spin_1y"].x * o["spin_1y"].x <= 1.0 &&
             o["spin_2x"].x * o["spin_2x"].x + o["spin_2y"].x * o["spin_2y"].x <= 1.0) ==> o["chi_p"].x <= 1.0
  {
    var chi1, chi2 := o["chi_1_in_plane"].x, o["chi_2_in_plane"].x;
    PrecessingSpinBounded(chi1, chi2, o["mass_ratio"].x);
    if chi1 * chi1 <= 1.0 && chi2 * chi2 <= 1.0 {
      AtMostOneFromSquare(chi1, chi1 * chi1);
      AtMostOneFromSquare(chi2, chi2 * chi2);
    }
  }
}
