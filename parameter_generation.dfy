// The generate_* entry points of bilby's gravitational-wave conversion: fixed priors,
// waveform defaults, the base (LAL) conversion, and the mass, spin, source-frame and
// tidal parameter families, each of whose KeyErrors is logged and swallowed.
// Only the path without a likelihood is modelled.

module ParameterGeneration {
  import opened Values
  import opened MassCompletion
  import opened MassConversion
  import opened TidalConversion
  import opened SpinConversion
  import opened LalConversion
  import opened Numerics

  /** A prior: only the peak of a delta function is ever read. */
  datatype Prior = DeltaFunction(peak: real) | OtherPrior

  /** A Python dict of priors, in insertion order. */
  type Priors = seq<(string, Prior)>

  /** A dict has each key once. */
  predicate DistinctNames<X>(entries: seq<(string, X)>)
  {
    forall i, j :: 0 <= i < j < |entries| ==> entries[i].0 != entries[j].0
  }

  function Names<X>(entries: seq<(string, X)>): set<string>
  {
    set j | 0 <= j < |entries| :: entries[j].0
  }

  /** The names whose prior is a delta function. */
  function FixedNames(priors: Priors): set<string>
  {
    set j | 0 <= j < |priors| && priors[j].1.DeltaFunction? :: priors[j].0
  }

  /** fill_from_fixed_priors: every delta-function prior sets its parameter to the peak;
      every other key keeps its value, and no priors means a plain copy. */
  method FillFromFixedPriors(sample: Sample, priors: Option<Priors>) returns (o: Sample)
    requires priors.Some? ==> DistinctNames(priors.value)
    ensures priors.None? ==> o == sample
    ensures priors.Some? ==> o.Keys == sample.Keys + FixedNames(priors.value)
    ensures priors.Some? ==> forall j :: 0 <= j < |priors.value| && priors.value[j].1.DeltaFunction? ==>
      o[priors.value[j].0] == Num(priors.value[j].1.peak)
    ensures priors.Some? ==> KeepsOthers(o, sample, FixedNames(priors.value))
  {
    o := sample;
    if priors.Some? {
      var ps := priors.value;
      for i := 0 to |ps|
        invariant o.Keys == sample.Keys + FixedNames(ps[..i])
        invariant forall j :: 0 <= j < i && ps[j].1.DeltaFunction? ==> o[ps[j].0] == Num(ps[j].1.peak)
        invariant KeepsOthers(o, sample, FixedNames(ps[..i]))
      {
        assert ps[..i + 1] == ps[..i] + [ps[i]];
        if ps[i].1.DeltaFunction? {
          o := o[ps[i].0 := Num(ps[i].1.peak)];
        }
      }
      assert ps[..|ps|] == ps;
    }
  }

  /** Without a likelihood every waveform default is written, over any value the sample has. */
  method SetWaveformDefaults(sample: Sample, defaults: seq<(string, Value)>) returns (o: Sample)
    requires DistinctNames(defaults)
    ensures o.Keys == sample.Keys + Names(defaults)
    ensures forall j :: 0 <= j < |defaults| ==> o[defaults[j].0] == defaults[j].1
    ensures KeepsOthers(o, sample, Names(defaults))
  {
    o := sample;
    for i := 0 to |defaults|
      invariant o.Keys == sample.Keys + Names(defaults[..i])
      invariant forall j :: 0 <= j < i ==> o[defaults[j].0] == defaults[j].1
      invariant KeepsOthers(o, sample, Names(defaults[..i]))
    {
      assert defaults[..i + 1] == defaults[..i] + [defaults[i]];
      o := o[defaults[i].0 := defaults[i].1];
    }
    assert defaults[..|defaults|] == defaults;
  }

  /** The iteration order of a dict after assignments: the old keys first, then each newly
      assigned name, in the order it was first written. */
  method ExtendKeyOrder<X>(keys: seq<string>, s: Sample, entries: seq<(string, X)>, o: Sample)
    returns (order: seq<string>)
    requires KeyOrder(keys, s)
    requires s.Keys <= o.Keys <= s.Keys + Names(entries)
    ensures KeyOrder(order, o)
    ensures |keys| <= |order| && order[..|keys|] == keys
  {
    order := keys;
    for i := 0 to |entries|
      invariant |keys| <= |order| && order[..|keys|] == keys
      invariant forall a, b :: 0 <= a < b < |order| ==> order[a] != order[b]
      invariant forall k <- order :: k in o
      invariant forall k <- s.Keys :: k in order
      invariant forall j :: 0 <= j < i && entries[j].0 in o ==> entries[j].0 in order
    {
      var name := entries[i].0;
      if name in o && name !in order {
        order := order + [name];
      }
    }
    forall k <- o.Keys
      ensures k in order
    {
      if k !in s.Keys {
        var j :| 0 <= j < |entries| && entries[j].0 == k;
      }
    }
  }

  /** One parameter family inside the generation loop: a KeyError is logged and the sample
      passes on unchanged; any other error propagates. */
  function AfterFamily(attempt: Result<Sample>, previous: Sample): (r: Result<Sample>)
    ensures attempt.Ok? ==> r == attempt
    ensures attempt.Err? && attempt.error.KeyError? ==> r == Ok(previous)
    ensures attempt.Err? && !attempt.error.KeyError? ==> r == attempt
    ensures r.Err? ==> !r.error.KeyError?
  {
    if attempt.Err? && attempt.error.KeyError? then Ok(previous) else attempt
  }

  /** The detector-frame quantities generate_source_frame_parameters scales. */
  const SourceFrameMassKeys: seq<string> := ["mass_1", "mass_2", "chirp_mass", "total_mass"]

  /** '{}_source'.format(key). */
  function SourceName(key: string): (r: string)
    ensures IsSourceKey(r) && Strip(r) == key
  {
    key + SourceSuffix
  }

  /** The source-frame keys written for the masses present. */
  function SourceNames(s: Sample): set<string>
  {
    set k <- SourceFrameMassKeys | k in s :: SourceName(k)
  }

  /** Each present detector-frame mass has a source-frame value that redshifts back to it. */
  predicate InSourceFrame(o: Sample, s: Sample, z: real)
  {
    forall k <- SourceFrameMassKeys | k in s ::
      HasReal(s, k) && HasReal(o, SourceName(k)) && Redshifted(o[SourceName(k)].x, z) == s[k].x
  }

  /** The scaled masses are none of the keys read or written besides their own. */
  lemma SourceFrameKeysApart()
    ensures forall k <- SourceFrameMassKeys :: !IsSourceKey(k)
    ensures !IsSourceKey("redshift") && !IsSourceKey("comoving_distance")
    ensures forall k <- SourceFrameMassKeys :: k != "redshift" && k != "comoving_distance"
  {
  }

  /** The masses present are floats and, when there is one, 1 + z can divide it. */
  predicate SourceFrameScalable(s: Sample, z: real)
  {
    && (forall k <- SourceFrameMassKeys | k in s :: s[k].Num?)
    && (SourceNames(s) != {} ==> 1.0 + z != 0.0)
  }

  /** One pass of the loop: key / (1 + z) under key's source-frame name, when key is present. */
  function ScaleToSourceFrame(o: Sample, key: string, z: real): (r: Result<Sample>)
    ensures key !in o ==> r == Ok(o)
    ensures key in o ==> (r.Ok? <==> o[key].Num? && 1.0 + z != 0.0)
    ensures key in o && r.Ok? ==>
      && r.value.Keys == o.Keys + {SourceName(key)}
      && KeepsOthers(r.value, o, {SourceName(key)})
      && HasReal(r.value, SourceName(key))
      && Redshifted(r.value[SourceName(key)].x, z) == o[key].x
  {
    if key in o then
      var value :- GetReal(o, key);
      var scaled :- Div(value, 1.0 + z);
      Ok(o[SourceName(key) := Num(scaled)])
    else
      Ok(o)
  }

  function SourceWrittenUpTo(s: Sample, i: int): set<string>
    requires 0 <= i <= |SourceFrameMassKeys|
  {
    set j | 0 <= j < i && SourceFrameMassKeys[j] in s :: SourceName(SourceFrameMassKeys[j])
  }

  /** The loop invariant after the first i masses. */
  predicate SourceFrameSoFar(o: Sample, s: Sample, z: real, comoving: real, i: int)
  {
    && 0 <= i <= |SourceFrameMassKeys|
    && o.Keys == s.Keys + {"redshift", "comoving_distance"} + SourceWrittenUpTo(s, i)
    && KeepsOthers(o, s, {"redshift", "comoving_distance"} + SourceWrittenUpTo(s, i))
    && o["redshift"] == Num(z) && o["comoving_distance"] == Num(comoving)
    && forall j :: 0 <= j < i && SourceFrameMassKeys[j] in s ==>
      && HasReal(s, SourceFrameMassKeys[j]) && 1.0 + z != 0.0
      && HasReal(o, SourceName(SourceFrameMassKeys[j]))
      && Redshifted(o[SourceName(SourceFrameMassKeys[j])].x, z) == s[SourceFrameMassKeys[j]].x
  }

  lemma SourceFrameStart(s: Sample, z: real, comoving: real)
    ensures SourceFrameSoFar(s["redshift" := Num(z)]["comoving_distance" := Num(comoving)], s, z, comoving, 0)
  {
    assert SourceWrittenUpTo(s, 0) == {};
  }

  lemma SourceFrameStep(o: Sample, s: Sample, z: real, comoving: real, i: int)
    requires SourceFrameSoFar(o, s, z, comoving, i) && i < |SourceFrameMassKeys|
    requires ScaleToSourceFrame(o, SourceFrameMassKeys[i], z).Ok?
    ensures SourceFrameSoFar(ScaleToSourceFrame(o, SourceFrameMassKeys[i], z).value, s, z, comoving, i + 1)
  {
    if SourceFrameMassKeys[i] in s {
      assert SourceFrameMassKeys[i] !in {"redshift", "comoving_distance"};
      SourceFrameScaledStep(o, s, z, comoving, i);
    } else {
      SourceFrameSkipStep(o, s, z, comoving, i);
    }
  }

  lemma SourceFrameSkipStep(o: Sample, s: Sample, z: real, comoving: real, i: int)
    requires SourceFrameSoFar(o, s, z, comoving, i) && i < |SourceFrameMassKeys|
    requires SourceFrameMassKeys[i] !in s
    ensures SourceFrameMassKeys[i] !in o
    ensures SourceFrameSoFar(o, s, z, comoving, i + 1)
  {
    var key := SourceFrameMassKeys[i];
    assert !IsSourceKey(key) && key != "redshift" && key != "comoving_distance";
    assert key !in SourceWrittenUpTo(s, i);
    assert SourceWrittenUpTo(s, i + 1) == SourceWrittenUpTo(s, i);
  }

  /** A source-frame name is a fresh key: no mass, distance or earlier source-frame name. */
  lemma SourceNameFresh(s: Sample, i: int)
    requires 0 <= i < |SourceFrameMassKeys|
    ensures SourceName(SourceFrameMassKeys[i]) !in {"redshift", "comoving_distance"}
    ensures forall j :: 0 <= j < |SourceFrameMassKeys| ==> SourceFrameMassKeys[j] != SourceName(SourceFrameMassKeys[i])
    ensures SourceName(SourceFrameMassKeys[i]) !in SourceWrittenUpTo(s, i)
  {
    SourceFrameKeysApart();
    var name := SourceName(SourceFrameMassKeys[i]);
    forall j | 0 <= j < i && SourceFrameMassKeys[j] in s
      ensures SourceName(SourceFrameMassKeys[j]) != name
    {
      assert Strip(SourceName(SourceFrameMassKeys[j])) != Strip(name);
    }
  }

  lemma SourceFrameScaledStep(o: Sample, s: Sample, z: real, comoving: real, i: int)
    requires SourceFrameSoFar(o, s, z, comoving, i) && i < |SourceFrameMassKeys|
    requires SourceFrameMassKeys[i] in s && SourceFrameMassKeys[i] !in {"redshift", "comoving_distance"}
    requires ScaleToSourceFrame(o, SourceFrameMassKeys[i], z).Ok?
    ensures SourceFrameSoFar(ScaleToSourceFrame(o, SourceFrameMassKeys[i], z).value, s, z, comoving, i + 1)
  {
    var key := SourceFrameMassKeys[i];
    var name := SourceName(key);
    var r := ScaleToSourceFrame(o, key, z).value;
    SourceNameFresh(s, i);
    assert SourceWrittenUpTo(s, i + 1) == SourceWrittenUpTo(s, i) + {name};
    assert o[key] == s[key];
    forall j | 0 <= j < i + 1 && SourceFrameMassKeys[j] in s
      ensures HasReal(s, SourceFrameMassKeys[j]) && HasReal(r, SourceName(SourceFrameMassKeys[j]))
      ensures Redshifted(r[SourceName(SourceFrameMassKeys[j])].x, z) == s[SourceFrameMassKeys[j]].x
    {
      if j < i {
        assert SourceName(SourceFrameMassKeys[j]) in SourceWrittenUpTo(s, i);
      }
    }
  }

  lemma SourceFrameStepFails(o: Sample, s: Sample, z: real, comoving: real, i: int)
    requires SourceFrameSoFar(o, s, z, comoving, i) && i < |SourceFrameMassKeys|
    requires ScaleToSourceFrame(o, SourceFrameMassKeys[i], z).Err?
    ensures !SourceFrameScalable(s, z)
  {
    SourceFrameKeysApart();
    var key := SourceFrameMassKeys[i];
    assert key in s && o[key] == s[key];
    assert SourceName(key) in SourceNames(s);
  }

  lemma SourceFrameComplete(o: Sample, s: Sample, z: real, comoving: real)
    requires SourceFrameSoFar(o, s, z, comoving, |SourceFrameMassKeys|)
    ensures SourceWrittenUpTo(s, |SourceFrameMassKeys|) == SourceNames(s)
    ensures SourceFrameScalable(s, z)
    ensures InSourceFrame(o, s, z)
  {
    assert SourceWrittenUpTo(s, |SourceFrameMassKeys|) == SourceNames(s);
    if SourceNames(s) != {} {
      var name :| name in SourceNames(s);
      var j :| 0 <= j < |SourceFrameMassKeys| && SourceFrameMassKeys[j] in s && SourceName(SourceFrameMassKeys[j]) == name;
    }
  }

  /** generate_source_frame_parameters: the redshift and comoving distance of the luminosity
      distance, and each present mass divided by (1 + z). It succeeds exactly when the
      luminosity distance is a float and the masses can be scaled; a missing luminosity
      distance is a KeyError. */
  method GenerateSourceFrameParameters(cosmo: Cosmology, s: Sample) returns (r: Result<Sample>)
    ensures "luminosity_distance" !in s ==> r == Err(KeyError("luminosity_distance"))
    ensures r.Ok? <==> (&& HasReal(s, "luminosity_distance")
                        && SourceFrameScalable(s, cosmo.luminosityDistanceToRedshift(s["luminosity_distance"].x)))
    ensures r.Ok? ==> r.value.Keys == s.Keys + {"redshift", "comoving_distance"} + SourceNames(s)
    ensures r.Ok? ==> KeepsOthers(r.value, s, {"redshift", "comoving_distance"} + SourceNames(s))
    ensures r.Ok? ==>
      var z := cosmo.luminosityDistanceToRedshift(s["luminosity_distance"].x);
      && r.value["redshift"] == Num(z)
      && r.value["comoving_distance"] == Num(cosmo.redshiftToComovingDistance(z))
      && InSourceFrame(r.value, s, z)
  {
    var d :- GetReal(s, "luminosity_distance");
    var z := cosmo.luminosityDistanceToRedshift(d);
    var comoving := cosmo.redshiftToComovingDistance(z);
    var o := s["redshift" := Num(z)]["comoving_distance" := Num(comoving)];
    SourceFrameStart(s, z, comoving);
    for i := 0 to |SourceFrameMassKeys|
      invariant SourceFrameSoFar(o, s, z, comoving, i)
    {
      var attempt := ScaleToSourceFrame(o, SourceFrameMassKeys[i], z);
      if attempt.Err? {
        SourceFrameStepFails(o, s, z, comoving, i);
        return Err(attempt.error);
      }
      SourceFrameStep(o, s, z, comoving, i);
      o := attempt.value;
    }
    SourceFrameComplete(o, s, z, comoving);
    r := Ok(o);
  }

  /** Redshifting a generated source-frame mass, as the LAL conversion does, gives back the
      detector-frame mass: the two frames are inverse to each other. */
  lemma SourceFrameRoundTrip(o: Sample, s: Sample, z: real, key: string)
    requires InSourceFrame(o, s, z)
    requires o["redshift" := Num(z)] == o
    requires key in SourceFrameMassKeys && key in s && key in o && o[key] == s[key]
    ensures ScaleSourceKey(o, SourceName(key)) == Ok(o)
  {
    assert HasReal(o, "redshift") && o["redshift"].x == z;
    assert o[key := Num(Redshifted(o[SourceName(key)].x, z))] == o;
  }

  /** generate_tidal_parameters: lambda_tilde and delta_lambda_tilde from the component
      deformabilities and masses. A missing input is a KeyError; the result inverts back to
      the components wherever the linear map between the two pairs is invertible. */
  function GenerateTidalParameters(n: Numerics, s: Sample): (r: Result<Sample>)
    ensures "lambda_1" !in s ==> r == Err(KeyError("lambda_1"))
    ensures r.Ok? <==> (&& HasReal(s, "lambda_1") && HasReal(s, "lambda_2") && HasReal(s, "mass_1") && HasReal(s, "mass_2")
                        && s["mass_1"].x + s["mass_2"].x != 0.0)
    ensures r.Ok? ==> r.value.Keys == s.Keys + {"lambda_tilde", "delta_lambda_tilde"}
    ensures r.Ok? ==> KeepsOthers(r.value, s, {"lambda_tilde", "delta_lambda_tilde"})
    ensures r.Ok? ==> HasReal(r.value, "lambda_tilde") && HasReal(r.value, "delta_lambda_tilde")
  {
    var lambda1 :- GetReal(s, "lambda_1");
    var lambda2 :- GetReal(s, "lambda_2");
    var mass1 :- GetReal(s, "mass_1");
    var mass2 :- GetReal(s, "mass_2");
    var lambdaTilde :- LambdaOneLambdaTwoToLambdaTilde(n, lambda1, lambda2, mass1, mass2);
    var deltaLambdaTilde := LambdaOneLambdaTwoToDeltaLambdaTilde(n, lambda1, lambda2, mass1, mass2).value;
    Ok(s["lambda_tilde" := Num(lambdaTilde)]["delta_lambda_tilde" := Num(deltaLambdaTilde)])
  }

  /** The generated pair converts back to the component deformabilities. */
  lemma GeneratedTidalInverts(n: Numerics, s: Sample)
    requires GenerateTidalParameters(n, s).Ok?
    ensures var o := GenerateTidalParameters(n, s).value;
      Determinant(Coefficients(n, ComponentMassesToSymmetricMassRatio(s["mass_1"].x, s["mass_2"].x).value)) != 0.0 ==>
      LambdaTildeDeltaLambdaTildeToLambdaOneLambdaTwo(n, o["lambda_tilde"].x, o["delta_lambda_tilde"].x,
        s["mass_1"].x, s["mass_2"].x) == Ok((s["lambda_1"].x, s["lambda_2"].x))
  {
    TidalRoundTrip(n, s["lambda_1"].x, s["lambda_2"].x, s["mass_1"].x, s["mass_2"].x);
  }

  /** The mass, spin and source-frame families in turn. No KeyError escapes, nothing present
      is removed, and a mass family that succeeds leaves all six mass parameters. */
  method GenerateFamilies(n: Numerics, cosmo: Cosmology, transform: SpinTransform, o: Sample)
    returns (r: Result<Sample>)
    ensures r.Err? ==> !r.error.KeyError?
    ensures r.Ok? ==> o.Keys <= r.value.Keys
    ensures r.Ok? && GenerateMassParameters(n, o, false).Ok? ==> MassParameterKeys(Keys(false)) <= r.value.Keys
    ensures GenerateMassParameters(n, o, false).Err? && !GenerateMassParameters(n, o, false).error.KeyError? ==>
      r == GenerateMassParameters(n, o, false)
  {
    var masses :- AfterFamily(GenerateMassParameters(n, o, false), o);
    var spins :- AfterFamily(GenerateSpinParameters(n, transform, masses), masses);
    var attempt := GenerateSourceFrameParameters(cosmo, spins);
    r := AfterFamily(attempt, spins);
  }

  /** The conversion a caller hands in as base_conversion. */
  datatype BaseConversion = BinaryBlackHole | BinaryNeutronStar(eos: EquationOfState)

  method ApplyBaseConversion(n: Numerics, cosmo: Cosmology, base: BaseConversion, parameters: Sample, keys: seq<string>)
    returns (r: Result<Conversion>)
    requires KeyOrder(keys, parameters)
    ensures r.Ok? ==> parameters.Keys <= r.value.converted.Keys
  {
    match base
    case BinaryBlackHole =>
      r := ConvertToLalBinaryBlackHoleParameters(n, cosmo, parameters, keys);
    case BinaryNeutronStar(eos) =>
      r := ConvertToLalBinaryNeutronStarParameters(n, cosmo, eos, parameters, keys);
  }

  const BinaryBlackHoleDefaults: seq<(string, Value)> :=
    [("reference_frequency", Num(50.0)), ("waveform_approximant", Str("IMRPhenomPv2")), ("minimum_frequency", Num(20.0))]

  const BinaryNeutronStarDefaults: seq<(string, Value)> :=
    [("reference_frequency", Num(50.0)), ("waveform_approximant", Str("TaylorF2")), ("minimum_frequency", Num(20.0))]

  const WaveformDefaultNames: set<string> := {"reference_frequency", "waveform_approximant", "minimum_frequency"}

  lemma DefaultsNamed()
    ensures Names(BinaryBlackHoleDefaults) == WaveformDefaultNames && DistinctNames(BinaryBlackHoleDefaults)
    ensures Names(BinaryNeutronStarDefaults) == WaveformDefaultNames && DistinctNames(BinaryNeutronStarDefaults)
  {
    assert BinaryBlackHoleDefaults[0].0 in Names(BinaryBlackHoleDefaults);
    assert BinaryBlackHoleDefaults[1].0 in Names(BinaryBlackHoleDefaults);
    assert BinaryBlackHoleDefaults[2].0 in Names(BinaryBlackHoleDefaults);
    assert BinaryNeutronStarDefaults[0].0 in Names(BinaryNeutronStarDefaults);
    assert BinaryNeutronStarDefaults[1].0 in Names(BinaryNeutronStarDefaults);
    assert BinaryNeutronStarDefaults[2].0 in Names(BinaryNeutronStarDefaults);
  }

  /** _generate_all_cbc_parameters without a likelihood: defaults, fixed priors, the base
      conversion (whose errors propagate and whose added keys are dropped), then the three
      families. Input keys, defaults and fixed parameters are all in the output. */
  method GenerateAllCbcParameters(n: Numerics, cosmo: Cosmology, transform: SpinTransform, base: BaseConversion,
                                  defaults: seq<(string, Value)>, sample: Sample, keys: seq<string>, priors: Option<Priors>)
    returns (r: Result<Sample>)
    requires KeyOrder(keys, sample)
    requires DistinctNames(defaults)
    requires priors.Some? ==> DistinctNames(priors.value)
    ensures r.Ok? ==> sample.Keys + Names(defaults) <= r.value.Keys
    ensures r.Ok? && priors.Some? ==> FixedNames(priors.value) <= r.value.Keys
  {
    var withDefaults := SetWaveformDefaults(sample, defaults);
    var order := ExtendKeyOrder(keys, sample, defaults, withDefaults);
    var filled := FillFromFixedPriors(withDefaults, priors);
    if priors.Some? {
      order := ExtendKeyOrder(order, withDefaults, priors.value, filled);
    }
    var conversion :- ApplyBaseConversion(n, cosmo, base, filled, order);
    r := GenerateFamilies(n, cosmo, transform, conversion.converted);
  }

  /** generate_all_bbh_parameters without a likelihood. */
  method GenerateAllBinaryBlackHoleParameters(n: Numerics, cosmo: Cosmology, transform: SpinTransform,
                                              sample: Sample, keys: seq<string>, priors: Option<Priors>)
    returns (r: Result<Sample>)
    requires KeyOrder(keys, sample)
    requires priors.Some? ==> DistinctNames(priors.value)
    ensures r.Ok? ==> sample.Keys + WaveformDefaultNames <= r.value.Keys
  {
    DefaultsNamed();
    r := GenerateAllCbcParameters(n, cosmo, transform, BinaryBlackHole, BinaryBlackHoleDefaults, sample, keys, priors);
  }

  /** generate_all_bns_parameters without a likelihood: the neutron-star conversion, then
      the tidal parameters, whose KeyError is swallowed like a family's. */
  method GenerateAllBinaryNeutronStarParameters(n: Numerics, cosmo: Cosmology, transform: SpinTransform, eos: EquationOfState,
                                                sample: Sample, keys: seq<string>, priors: Option<Priors>)
    returns (r: Result<Sample>)
    requires KeyOrder(keys, sample)
    requires priors.Some? ==> DistinctNames(priors.value)
    ensures r.Ok? ==> sample.Keys + WaveformDefaultNames <= r.value.Keys
  {
    DefaultsNamed();
    var o :- GenerateAllCbcParameters(n, cosmo, transform, BinaryNeutronStar(eos), BinaryNeutronStarDefaults, sample, keys, priors);
    r := AfterFamily(GenerateTidalParameters(n, o), o);
  }

  function MissingMessage(key: string): string
  {
    key + " not in converted sample."
  }

  /** The down-selection of generate_specific_parameters: exactly the requested keys, with
      their converted values, or a KeyError naming the first requested key that is missing. */
  method SelectParameters(updated: Sample, parameters: seq<string>) returns (r: Result<Sample>)
    ensures r.Ok? <==> forall k <- parameters :: k in updated
    ensures r.Ok? ==> r.value.Keys == (set k <- parameters) && forall k <- r.value.Keys :: r.value[k] == updated[k]
    ensures r.Err? ==> exists i :: (&& 0 <= i < |parameters| && parameters[i] !in updated
                                    && (forall j :: 0 <= j < i ==> parameters[j] in updated)
                                    && r.error == KeyError(MissingMessage(parameters[i])))
  {
    var o: Sample := map[];
    for i := 0 to |parameters|
      invariant forall j :: 0 <= j < i ==> parameters[j] in updated
      invariant o.Keys == set j | 0 <= j < i :: parameters[j]
      invariant forall k <- o.Keys :: k in updated && o[k] == updated[k]
    {
      var key := parameters[i];
      if key in updated {
        o := o[key := updated[key]];
      } else {
        return Err(KeyError(MissingMessage(key)));
      }
    }
    assert (set j | 0 <= j < |parameters| :: parameters[j]) == set k <- parameters;
    r := Ok(o);
  }

  /** generate_specific_parameters: every neutron-star parameter is generated from a copy of
      the sample, and the requested ones are returned. */
  method GenerateSpecificParameters(n: Numerics, cosmo: Cosmology, transform: SpinTransform, eos: EquationOfState,
                                    sample: Sample, keys: seq<string>, parameters: seq<string>)
    returns (r: Result<Sample>)
    requires KeyOrder(keys, sample)
    ensures r.Ok? ==> r.value.Keys == set k <- parameters
  {
    var updated :- GenerateAllBinaryNeutronStarParameters(n, cosmo, transform, eos, sample, keys, None);
    r := SelectParameters(updated, parameters);
  }
}
