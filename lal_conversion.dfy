/**
  convert_to_lal_binary_black_hole_parameters and convert_to_lal_binary_neutron_star_parameters:
  turn whatever parameters a sample holds into those the waveform generator needs,
  and report which keys were added.

  The dictionary is copied and then updated key by key in loops over keys, so these are
  methods. The order in which Python iterates the original keys is a parameter
  (`keys`); the distance/redshift relations of the cosmology are opaque functions.
*/
module LalConversion {
  import opened Values
  import opened Numerics
  import opened MassCompletion
  import opened TidalConversion
  import opened SpinConversion
  import opened RealAlgebra

  /** The astropy cosmology relations the conversion calls. */
  datatype Cosmology = Cosmology(
    redshiftToLuminosityDistance: real -> real,
    comovingDistanceToLuminosityDistance: real -> real,
    luminosityDistanceToRedshift: real -> real,
    redshiftToComovingDistance: real -> real)

  /** The converted parameters and the keys the conversion added. */
  datatype Conversion = Conversion(converted: Sample, addedKeys: set<string>)

  /** keys lists the sample's keys, each once: the order in which Python iterates them. */
  predicate KeyOrder(keys: seq<string>, s: Sample)
  {
    && (forall i, j :: 0 <= i < j < |keys| ==> keys[i] != keys[j])
    && (forall k <- keys :: k in s)
    && (forall k <- s.Keys :: k in keys)
  }

  // ---------------------------------------------------------------------------
  // Distances and source-frame keys
  // ---------------------------------------------------------------------------

  /** The luminosity distance from the redshift or else the comoving distance, when absent. */
  function WithLuminosityDistance(cosmo: Cosmology, parameters: Sample): (r: Result<Sample>)
    ensures "luminosity_distance" in parameters ==> r == Ok(parameters)
    ensures r.Ok? ==> Extends(r.value, parameters)
    ensures r.Ok? ==> r.value.Keys <= parameters.Keys + {"luminosity_distance"}
    ensures r.Ok? && ("redshift" in parameters || "comoving_distance" in parameters) ==>
      "luminosity_distance" in r.value
  {
    if "luminosity_distance" in parameters then Ok(parameters)
    else if "redshift" in parameters then
      var z :- GetReal(parameters, "redshift");
      Ok(parameters["luminosity_distance" := Num(cosmo.redshiftToLuminosityDistance(z))])
    else if "comoving_distance" in parameters then
      var d :- GetReal(parameters, "comoving_distance");
      Ok(parameters["luminosity_distance" := Num(cosmo.comovingDistanceToLuminosityDistance(d))])
    else Ok(parameters)
  }

  const SourceSuffix: string := "_source"

  /** key[-7:] == '_source'. */
  predicate IsSourceKey(key: string)
  {
    |key| >= 7 && key[|key| - 7..] == SourceSuffix
  }

  /** key[:-7]: the detector-frame name of a source-frame key. */
  function Strip(key: string): (base: string)
    requires IsSourceKey(key)
    ensures base + SourceSuffix == key
  {
    key[..|key| - 7]
  }

  lemma StripInjective(k1: string, k2: string)
    requires IsSourceKey(k1) && IsSourceKey(k2) && Strip(k1) == Strip(k2)
    ensures k1 == k2
  {
    assert k1 == Strip(k1) + SourceSuffix;
    assert k2 == Strip(k2) + SourceSuffix;
  }

  /** The detector-frame names of the source-frame keys among keys. */
  function Targets(keys: seq<string>): set<string>
  {
    set k | k in keys && IsSourceKey(k) :: Strip(k)
  }

  /** No source-frame key is also the stripped name of another, and there is no
      redshift_source: each detector-frame value is then written once, from the input. */
  predicate Unambiguous(keys: seq<string>)
  {
    && "redshift" + SourceSuffix !in keys
    && forall a, b :: 0 <= a < |keys| && 0 <= b < |keys| && IsSourceKey(keys[a]) && IsSourceKey(keys[b]) ==>
      Strip(keys[b]) != keys[a]
  }

  /** conv[key[:-7]] == c0[key] * (1 + conv['redshift']). */
  predicate ScaledFromSource(conv: Sample, c0: Sample, key: string)
    requires IsSourceKey(key)
  {
    && HasReal(c0, key) && HasReal(conv, "redshift") && HasReal(conv, Strip(key))
    && conv[Strip(key)].x == Redshifted(c0[key].x, conv["redshift"].x)
  }

  /** A source-frame quantity seen in the detector frame at redshift z. */
  function Redshifted(x: real, z: real): real
  {
    x * (1.0 + z)
  }

  /** Every source-frame key among the first i has its detector-frame key and the redshift set. */
  predicate TargetsWritten(conv: Sample, keys: seq<string>, i: int)
    requires 0 <= i <= |keys|
  {
    forall j :: 0 <= j < i && IsSourceKey(keys[j]) ==> Strip(keys[j]) in conv && "redshift" in conv
  }

  /** Every source-frame key among the first i has been scaled into its detector-frame key. */
  predicate ScaledUpTo(conv: Sample, c0: Sample, keys: seq<string>, i: int)
    requires 0 <= i <= |keys|
  {
    forall j :: 0 <= j < i && IsSourceKey(keys[j]) ==> ScaledFromSource(conv, c0, keys[j])
  }

  /** What the loop over the keys has established after its first i keys. */
  predicate SourceLoopInvariant(conv: Sample, c0: Sample, keys: seq<string>, i: int)
    requires 0 <= i <= |keys|
  {
    && c0.Keys <= conv.Keys <= c0.Keys + Targets(keys) + {"redshift"}
    && KeepsOthers(conv, c0, Targets(keys) + {"redshift"})
    && TargetsWritten(conv, keys, i)
    && (Unambiguous(keys) ==> ScaledUpTo(conv, c0, keys, i))
  }

  /** The redshift, from the luminosity distance of the input distances when conv lacks it. */
  function WithRedshift(cosmo: Cosmology, distances: Sample, conv: Sample): (r: Result<Sample>)
    ensures "redshift" in conv ==> r == Ok(conv)
    ensures "redshift" !in conv && !HasReal(distances, "luminosity_distance") ==> r.Err?
    ensures r.Ok? && "redshift" !in conv ==>
      && HasReal(r.value, "redshift")
      && r.value == conv["redshift" := r.value["redshift"]]
  {
    if "redshift" in conv then Ok(conv)
    else
      var distance :- GetReal(distances, "luminosity_distance");
      Ok(conv["redshift" := Num(cosmo.luminosityDistanceToRedshift(distance))])
  }

  /** X = X_source (1 + z) for one source-frame key. */
  function ScaleSourceKey(conv: Sample, key: string): (r: Result<Sample>)
    requires IsSourceKey(key)
    ensures r.Ok? <==> HasReal(conv, key) && HasReal(conv, "redshift")
    ensures r.Ok? ==> r.value == conv[Strip(key) := Num(Redshifted(conv[key].x, conv["redshift"].x))]
  {
    var value :- GetReal(conv, key);
    var z :- GetReal(conv, "redshift");
    Ok(conv[Strip(key) := Num(Redshifted(value, z))])
  }

  /** The loop over the original keys: every X_source gets X = X_source (1 + z). */
  method SourceFrameToDetectorFrame(cosmo: Cosmology, distances: Sample, c0: Sample, keys: seq<string>)
    returns (r: Result<Sample>)
    requires forall k <- keys :: k in c0
    requires forall a, b :: 0 <= a < b < |keys| ==> keys[a] != keys[b]
    ensures r.Ok? ==> c0.Keys <= r.value.Keys <= c0.Keys + Targets(keys) + {"redshift"}
    ensures r.Ok? ==> KeepsOthers(r.value, c0, Targets(keys) + {"redshift"})
    ensures r.Ok? ==> TargetsWritten(r.value, keys, |keys|)
    ensures r.Ok? && Unambiguous(keys) ==> ScaledUpTo(r.value, c0, keys, |keys|)
    ensures r.Ok? && "redshift" !in c0 && !HasReal(distances, "luminosity_distance") ==>
      forall k <- keys :: !IsSourceKey(k)
  {
    var conv := c0;
    var i := 0;
    while i < |keys|
      invariant 0 <= i <= |keys|
      invariant SourceLoopInvariant(conv, c0, keys, i)
      invariant "redshift" !in c0 && !HasReal(distances, "luminosity_distance") ==>
        conv == c0 && forall j :: 0 <= j < i ==> !IsSourceKey(keys[j])
    {
      if IsSourceKey(keys[i]) {
        var withZ :- WithRedshift(cosmo, distances, conv);
        RedshiftKeeps(cosmo, distances, conv, c0, keys, i, withZ);
        var next :- ScaleSourceKey(withZ, keys[i]);
        SourceStep(withZ, c0, keys, i, next);
        conv := next;
      } else {
        SkipStep(conv, c0, keys, i);
      }
      i := i + 1;
    }
    return Ok(conv);
  }

  /** Writing a key that may be written keeps the bounds on the keys and the other values. */
  lemma WriteKeeps(conv: Sample, c0: Sample, written: set<string>, key: string, v: Value)
    requires key in written
    requires c0.Keys <= conv.Keys <= c0.Keys + written
    requires KeepsOthers(conv, c0, written)
    ensures c0.Keys <= conv[key := v].Keys <= c0.Keys + written
    ensures KeepsOthers(conv[key := v], c0, written)
  {
  }

  /** Looking up or setting the redshift keeps the loop invariant at i. */
  lemma RedshiftKeeps(cosmo: Cosmology, distances: Sample, conv: Sample, c0: Sample,
                      keys: seq<string>, i: int, withZ: Sample)
    requires 0 <= i < |keys|
    requires SourceLoopInvariant(conv, c0, keys, i)
    requires WithRedshift(cosmo, distances, conv) == Ok(withZ)
    ensures SourceLoopInvariant(withZ, c0, keys, i)
  {
    if "redshift" !in conv {
      var z := cosmo.luminosityDistanceToRedshift(distances["luminosity_distance"].x);
      assert withZ == conv["redshift" := Num(z)];
      RedshiftStep(conv, c0, keys, i, z);
      WriteKeeps(conv, c0, Targets(keys) + {"redshift"}, "redshift", Num(z));
    }
  }

  /** A redshift is only missing while no source-frame key has been met, so setting it keeps
      both invariants. */
  lemma RedshiftStep(conv: Sample, c0: Sample, keys: seq<string>, i: int, z: real)
    requires 0 <= i < |keys| && "redshift" !in conv
    requires TargetsWritten(conv, keys, i)
    ensures TargetsWritten(conv["redshift" := Num(z)], keys, i)
    ensures c0.Keys <= conv.Keys <= c0.Keys + Targets(keys) + {"redshift"} ==>
      c0.Keys <= conv["redshift" := Num(z)].Keys <= c0.Keys + Targets(keys) + {"redshift"}
    ensures KeepsOthers(conv, c0, Targets(keys) + {"redshift"}) ==>
      KeepsOthers(conv["redshift" := Num(z)], c0, Targets(keys) + {"redshift"})
    ensures ScaledUpTo(conv["redshift" := Num(z)], c0, keys, i)
  {
    forall j | 0 <= j < i
      ensures !IsSourceKey(keys[j])
    {
    }
  }

  /** A key that is not source-frame changes nothing and extends both invariants. */
  lemma SkipStep(conv: Sample, c0: Sample, keys: seq<string>, i: int)
    requires 0 <= i < |keys| && !IsSourceKey(keys[i])
    ensures SourceLoopInvariant(conv, c0, keys, i) ==> SourceLoopInvariant(conv, c0, keys, i + 1)
  {
  }

  /** Writing X = X_source (1 + z) for keys[i] keeps the loop invariant. */
  lemma SourceStep(conv: Sample, c0: Sample, keys: seq<string>, i: int, next: Sample)
    requires 0 <= i < |keys| && IsSourceKey(keys[i]) && keys[i] in c0
    requires forall a, b :: 0 <= a < b < |keys| ==> keys[a] != keys[b]
    requires SourceLoopInvariant(conv, c0, keys, i)
    requires ScaleSourceKey(conv, keys[i]) == Ok(next)
    ensures SourceLoopInvariant(next, c0, keys, i + 1)
  {
    var key := keys[i];
    var scaled := Redshifted(conv[key].x, conv["redshift"].x);
    assert Strip(key) in Targets(keys);
    WriteKeeps(conv, c0, Targets(keys) + {"redshift"}, Strip(key), Num(scaled));
    if Unambiguous(keys) {
      ScaledStep(conv, c0, keys, i, scaled);
    }
  }

  /** Under Unambiguous the key being scaled still holds its input value, and its target is
      neither an earlier key's target nor the redshift, so the earlier scaled values stay. */
  lemma ScaledStep(conv: Sample, c0: Sample, keys: seq<string>, i: int, scaled: real)
    requires 0 <= i < |keys| && IsSourceKey(keys[i]) && keys[i] in c0
    requires forall a, b :: 0 <= a < b < |keys| ==> keys[a] != keys[b]
    requires Unambiguous(keys)
    requires KeepsOthers(conv, c0, Targets(keys) + {"redshift"})
    requires HasReal(conv, "redshift") && HasReal(conv, keys[i])
    requires scaled == Redshifted(conv[keys[i]].x, conv["redshift"].x)
    requires ScaledUpTo(conv, c0, keys, i)
    ensures ScaledUpTo(conv[Strip(keys[i]) := Num(scaled)], c0, keys, i + 1)
  {
    var key := keys[i];
    var next := conv[Strip(key) := Num(scaled)];
    forall j | 0 <= j < i && IsSourceKey(keys[j])
      ensures Strip(keys[j]) != Strip(key)
    {
      if Strip(keys[j]) == Strip(key) {
        StripInjective(keys[j], key);
      }
    }
    assert forall b | 0 <= b < |keys| && IsSourceKey(keys[b]) :: Strip(keys[b]) != key;
    assert key !in Targets(keys);
    assert Strip(key) != "redshift";
    assert conv[key] == c0[key];
    forall j | 0 <= j < i + 1 && IsSourceKey(keys[j])
      ensures ScaledFromSource(next, c0, keys[j])
    {
      assert next["redshift"] == conv["redshift"];
      if j < i {
        assert ScaledFromSource(conv, c0, keys[j]);
        assert next[Strip(keys[j])] == conv[Strip(keys[j])];
      } else {
        assert next[Strip(key)] == Num(scaled);
      }
    }
  }

  // ---------------------------------------------------------------------------
  // Spin magnitudes and tilts from chi_1, chi_2
  // ---------------------------------------------------------------------------

  /** The keys of one spin index: chi_i, chi_i_in_plane, a_i, cos_tilt_i. */
  datatype SpinIndex = SpinIndex(chi: string, inPlane: string, a: string, cosTilt: string)

  /** The loop `for idx in ['1', '2']`. */
  const SpinIndices: seq<SpinIndex> := [
    SpinIndex("chi_1", "chi_1_in_plane", "a_1", "cos_tilt_1"),
    SpinIndex("chi_2", "chi_2_in_plane", "a_2", "cos_tilt_2")]

  /** abs. */
  function Abs(x: real): (r: real)
    ensures r >= 0.0 && (r == x || r == -x)
  {
    if x < 0.0 then -x else x
  }

  /** np.sign: -1, 0 or 1. */
  function Sign(x: real): (r: real)
    ensures r * Abs(x) == x
    ensures r == 0.0 <==> x == 0.0
    ensures r == 1.0 || r == 0.0 || r == -1.0
  {
    if x > 0.0 then 1.0 else if x < 0.0 then -1.0 else 0.0
  }

  function SumOfSquares(x: real, y: real): (r: real)
    ensures r >= 0.0
  {
    x * x + y * y
  }

  /** pow(x, 0.5) of a non-negative x is its non-negative square root, when pow is exact. */
  lemma MagnitudeIsRoot(n: Numerics, x: real)
    requires x >= 0.0
    ensures HalfPowerIsRoot(n) ==> n.pow(x, 0.5) >= 0.0 && n.pow(x, 0.5) * n.pow(x, 0.5) == x
  {
  }

  /** a_i and cos_tilt_i describe chi_i: a_i cos_tilt_i = chi_i, or a zero magnitude with
      cos_tilt_i set to 1. */
  predicate SpinTiltConsistent(o: Sample, k: SpinIndex)
  {
    && HasReal(o, k.chi) && HasReal(o, k.a) && HasReal(o, k.cosTilt)
    && (o[k.a].x * o[k.cosTilt].x == o[k.chi].x || (o[k.a].x == 0.0 && o[k.cosTilt].x == 1.0))
  }

  /** conv with a_i and cos_tilt_i written. */
  function WithSpinMagnitude(conv: Sample, k: SpinIndex, a: real, cosTilt: real): (r: Sample)
    requires k in SpinIndices
    ensures conv.Keys <= r.Keys <= conv.Keys + {k.a, k.cosTilt}
    ensures KeepsOthers(r, conv, {k.a, k.cosTilt})
    ensures k.a in r && k.cosTilt in r && r[k.a] == Num(a) && r[k.cosTilt] == Num(cosTilt)
    ensures k.chi in conv ==> k.chi in r && r[k.chi] == conv[k.chi]
  {
    conv[k.a := Num(a)][k.cosTilt := Num(cosTilt)]
  }

  /** a_i = (chi_i^2 + chi_i_in_plane^2)^0.5 and cos_tilt_i = chi_i / a_i, a ZeroDivisionError
      when a_i is zero. */
  function MagnitudeFromInPlane(n: Numerics, conv: Sample, k: SpinIndex, chi: real): (r: Result<Sample>)
    requires k in SpinIndices && HasReal(conv, k.chi) && conv[k.chi].x == chi
    ensures !HasReal(conv, k.inPlane) ==> r.Err?
    ensures r.Ok? ==> conv.Keys <= r.value.Keys <= conv.Keys + {k.a, k.cosTilt}
    ensures r.Ok? ==> KeepsOthers(r.value, conv, {k.a, k.cosTilt})
    ensures r.Ok? ==> SpinTiltConsistent(r.value, k)
    ensures r.Ok? && HalfPowerIsRoot(n) ==>
      && HasReal(r.value, k.a) && HasReal(conv, k.inPlane)
      && r.value[k.a].x >= 0.0
      && r.value[k.a].x * r.value[k.a].x == SumOfSquares(chi, conv[k.inPlane].x)
  {
    var inPlane :- GetReal(conv, k.inPlane);
    var a := n.pow(SumOfSquares(chi, inPlane), 0.5);
    MagnitudeIsRoot(n, SumOfSquares(chi, inPlane));
    var cosTilt :- Div(chi, a);
    Ok(WithSpinMagnitude(conv, k, a, cosTilt))
  }

  /** One pass of the spin loop: a_i and cos_tilt_i from chi_i when chi_i was an input key,
      from the in-plane component when that was one too, from abs and sign when a_i was not,
      and otherwise cos_tilt_i = chi_i / a_i, set to 1 when a_i is zero. */
  function SphericalSpin(n: Numerics, conv: Sample, original: set<string>, k: SpinIndex): (r: Result<Sample>)
    requires k in SpinIndices
    ensures k.chi !in original ==> r == Ok(conv)
    ensures k.chi in original && !HasReal(conv, k.chi) ==> r.Err?
    ensures r.Ok? ==> conv.Keys <= r.value.Keys <= conv.Keys + {k.a, k.cosTilt}
    ensures r.Ok? ==> KeepsOthers(r.value, conv, {k.a, k.cosTilt})
    ensures r.Ok? && k.chi in original && (k.inPlane in original || k.a in conv) ==>
      SpinTiltConsistent(r.value, k)
    ensures r.Ok? && k.chi in original && k.inPlane !in original && k.a !in original ==>
      && SpinTiltConsistent(r.value, k)
      && r.value[k.a].x == Abs(conv[k.chi].x)
    ensures r.Ok? && k.chi in original && k.inPlane in original && HalfPowerIsRoot(n) ==>
      && HasReal(r.value, k.a) && HasReal(conv, k.inPlane)
      && r.value[k.a].x >= 0.0
      && r.value[k.a].x * r.value[k.a].x == SumOfSquares(conv[k.chi].x, conv[k.inPlane].x)
  {
    if k.chi !in original then Ok(conv)
    else
      var chi :- GetReal(conv, k.chi);
      if k.inPlane in original then
        MagnitudeFromInPlane(n, conv, k, chi)
      else if k.a !in original then
        Ok(WithSpinMagnitude(conv, k, Abs(chi), Sign(chi)))
      else
        var a :- GetReal(conv, k.a);
        Ok(conv[k.cosTilt := Num(if a == 0.0 then 1.0 else chi / a)])
  }

  /** The spins given as chi_i are consistent for every index whose chi_i was an input key. */
  predicate SpinsConsistent(o: Sample, original: set<string>)
  {
    forall j :: 0 <= j < |SpinIndices| && SpinIndices[j].chi in original ==>
      SpinTiltConsistent(o, SpinIndices[j])
  }

  /** The loop over both spin indices. */
  method SphericalSpins(n: Numerics, c0: Sample, original: set<string>) returns (r: Result<Sample>)
    requires original <= c0.Keys
    ensures r.Ok? ==> c0.Keys <= r.value.Keys <= c0.Keys + {"a_1", "cos_tilt_1", "a_2", "cos_tilt_2"}
    ensures r.Ok? ==> KeepsOthers(r.value, c0, {"a_1", "cos_tilt_1", "a_2", "cos_tilt_2"})
    ensures r.Ok? ==> SpinsConsistent(r.value, original)
  {
    var conv := c0;
    for i := 0 to |SpinIndices|
      invariant c0.Keys <= conv.Keys <= c0.Keys + {"a_1", "cos_tilt_1", "a_2", "cos_tilt_2"}
      invariant KeepsOthers(conv, c0, {"a_1", "cos_tilt_1", "a_2", "cos_tilt_2"})
      invariant forall j :: 0 <= j < i && SpinIndices[j].chi in original ==>
        SpinTiltConsistent(conv, SpinIndices[j])
    {
      var next :- SphericalSpin(n, conv, original, SpinIndices[i]);
      conv := next;
    }
    return Ok(conv);
  }

  // ---------------------------------------------------------------------------
  // Azimuths, angles and phase
  // ---------------------------------------------------------------------------

  const AzimuthKeys: seq<string> := ["phi_jl", "phi_12"]

  /** phi_jl and phi_12 default to zero. */
  method DefaultAzimuths(c0: Sample) returns (o: Sample)
    ensures o.Keys == c0.Keys + {"phi_jl", "phi_12"}
    ensures Extends(o, c0)
    ensures forall key <- AzimuthKeys :: key !in c0 ==> o[key] == Num(0.0)
  {
    o := c0;
    for i := 0 to |AzimuthKeys|
      invariant o.Keys == c0.Keys + set j | 0 <= j < i :: AzimuthKeys[j]
      invariant Extends(o, c0)
      invariant forall j :: 0 <= j < i && AzimuthKeys[j] !in c0 ==> o[AzimuthKeys[j]] == Num(0.0)
    {
      if AzimuthKeys[i] !in o {
        o := o[AzimuthKeys[i] := Num(0.0)];
      }
    }
    assert AzimuthKeys[0] == "phi_jl" && AzimuthKeys[1] == "phi_12";
    assert (set j | 0 <= j < |AzimuthKeys| :: AzimuthKeys[j]) == {"phi_jl", "phi_12"};
  }

  /** Each azimuth absent from `given` is present in o with the value zero. */
  predicate AzimuthsDefaulted(o: Sample, given: set<string>)
  {
    forall key <- AzimuthKeys :: key !in given ==> key in o && o[key] == Num(0.0)
  }

  /** An angle and the key of its cosine. */
  datatype AnglePair = AnglePair(angle: string, cosine: string)

  /** The loop `for angle in ['tilt_1', 'tilt_2', 'theta_jn']` with cos_angle = 'cos_' + angle. */
  const AnglePairs: seq<AnglePair> := [
    AnglePair("tilt_1", "cos_tilt_1"),
    AnglePair("tilt_2", "cos_tilt_2"),
    AnglePair("theta_jn", "cos_theta_jn")]

  const AngleKeys: set<string> := {"tilt_1", "tilt_2", "theta_jn"}

  /** Every angle whose cosine is present is its arccos. */
  predicate AnglesFromCosines(n: Numerics, o: Sample)
  {
    forall j :: 0 <= j < |AnglePairs| && AnglePairs[j].cosine in o ==>
      && HasReal(o, AnglePairs[j].cosine) && HasReal(o, AnglePairs[j].angle)
      && o[AnglePairs[j].angle].x == n.arccos(o[AnglePairs[j].cosine].x)
  }

  /** The loop over the angles: angle = arccos(cos_angle) whenever cos_angle is present. */
  method AnglesFromCosineKeys(n: Numerics, c0: Sample) returns (r: Result<Sample>)
    ensures r.Ok? ==> c0.Keys <= r.value.Keys <= c0.Keys + AngleKeys
    ensures r.Ok? ==> KeepsOthers(r.value, c0, AngleKeys)
    ensures r.Ok? ==> AnglesFromCosines(n, r.value)
    ensures r.Err? ==> exists j :: 0 <= j < |AnglePairs| && AnglePairs[j].cosine in c0 && !HasReal(c0, AnglePairs[j].cosine)
  {
    var conv := c0;
    for i := 0 to |AnglePairs|
      invariant c0.Keys <= conv.Keys <= c0.Keys + AngleKeys
      invariant KeepsOthers(conv, c0, AngleKeys)
      invariant forall j :: 0 <= j < i && AnglePairs[j].cosine in conv ==>
        && HasReal(conv, AnglePairs[j].cosine) && HasReal(conv, AnglePairs[j].angle)
        && conv[AnglePairs[j].angle].x == n.arccos(conv[AnglePairs[j].cosine].x)
    {
      var pair := AnglePairs[i];
      if pair.cosine in conv {
        var c :- GetReal(conv, pair.cosine);
        conv := conv[pair.angle := Num(n.arccos(c))];
      }
    }
    return Ok(conv);
  }

  /** 2 pi. */
  function TwoPi(n: Numerics): PositiveReal
  {
    2.0 * n.pi
  }

  /** np.mod for a positive divisor: floored, so the result lies in [0, y) and differs from x
      by a whole multiple of y. */
  function FlooredMod(x: real, y: PositiveReal): (m: real)
    ensures 0.0 <= m < y
    ensures ((x - m) / y).Floor as real == (x - m) / y
  {
    var f := (x / y).Floor as real;
    QuotientTimesDivisor(x, y);
    FloorBelow(x, y, f, x / y);
    FloorAbove(x, y, f, x / y);
    MultipleQuotient(y, f);
    x - y * f
  }

  lemma QuotientTimesDivisor(x: real, y: real)
    requires y > 0.0
    ensures (x / y) * y == x
  {
  }

  lemma FloorBelow(x: real, y: real, f: real, q: real)
    requires y > 0.0 && f <= q && x == q * y
    ensures y * f <= x
  {
    var d := q - f;
    MulNonNegative(d, y);
    assert d * y == q * y - f * y;
  }

  lemma FloorAbove(x: real, y: real, f: real, q: real)
    requires y > 0.0 && q < f + 1.0 && x == q * y
    ensures x < y * f + y
  {
    var d := f + 1.0 - q;
    MulPositive(d, y);
    assert d * y == f * y + y - q * y;
  }

  lemma MultipleQuotient(y: real, f: real)
    requires y > 0.0
    ensures (y * f) / y == f
  {
  }

  /** phase = (delta_phase - sign(cos(theta_jn)) psi) mod 2 pi. */
  function PhaseFromDeltaPhase(n: Numerics, conv: Sample): (r: Result<Sample>)
    ensures r.Ok? <==> HasReal(conv, "delta_phase") && HasReal(conv, "theta_jn") && HasReal(conv, "psi")
    ensures r.Ok? ==> r.value.Keys == conv.Keys + {"phase"}
    ensures r.Ok? ==> KeepsOthers(r.value, conv, {"phase"})
    ensures r.Ok? ==> HasReal(r.value, "phase") && 0.0 <= r.value["phase"].x < TwoPi(n)
  {
    var deltaPhase :- GetReal(conv, "delta_phase");
    var thetaJn :- GetReal(conv, "theta_jn");
    var psi :- GetReal(conv, "psi");
    Ok(conv["phase" := Num(FlooredMod(deltaPhase - Sign(n.cos(thetaJn)) * psi, TwoPi(n)))])
  }

  // ---------------------------------------------------------------------------
  // convert_to_lal_binary_black_hole_parameters
  // ---------------------------------------------------------------------------

  /** The keys the spin consistency reads. */
  const SpinIndexKeys: set<string> := {"chi_1", "a_1", "cos_tilt_1", "chi_2", "a_2", "cos_tilt_2"}

  /** The later steps write no spin key. */
  lemma LaterWritesMissSpins()
    ensures {"phi_jl", "phi_12"} !! SpinIndexKeys
    ensures AngleKeys !! SpinIndexKeys
    ensures {"phase"} !! SpinIndexKeys
  {
  }

  /** Writes away from the spin keys keep the spins consistent. */
  lemma SpinsSurvive(o: Sample, next: Sample, original: set<string>, written: set<string>)
    requires SpinsConsistent(o, original)
    requires KeepsOthers(next, o, written) && written !! SpinIndexKeys
    ensures SpinsConsistent(next, original)
  {
    forall j | 0 <= j < |SpinIndices| && SpinIndices[j].chi in original
      ensures SpinTiltConsistent(next, SpinIndices[j])
    {
      var k := SpinIndices[j];
      assert k.chi in SpinIndexKeys && k.a in SpinIndexKeys && k.cosTilt in SpinIndexKeys;
      assert next[k.chi] == o[k.chi] && next[k.a] == o[k.a] && next[k.cosTilt] == o[k.cosTilt];
    }
  }

  /** Writing the phase keeps every angle the arccos of its cosine. */
  lemma AnglesSurvive(n: Numerics, o: Sample, next: Sample)
    requires AnglesFromCosines(n, o)
    requires next.Keys == o.Keys + {"phase"} && KeepsOthers(next, o, {"phase"})
    ensures AnglesFromCosines(n, next)
  {
    forall j | 0 <= j < |AnglePairs| && AnglePairs[j].cosine in next
      ensures HasReal(next, AnglePairs[j].cosine) && HasReal(next, AnglePairs[j].angle)
      ensures next[AnglePairs[j].angle].x == n.arccos(next[AnglePairs[j].cosine].x)
    {
      var pair := AnglePairs[j];
      assert pair.cosine != "phase" && pair.angle != "phase";
    }
  }

  /** The first half of the black-hole conversion, as written: the distance, the
      detector-frame values of the source-frame keys, with the redshift read from the input's
      luminosity distance, and the component masses by generate_component_masses as written.
      A source-frame key with neither a redshift nor a numeric luminosity distance in the
      input is an error, even where a comoving distance gave the luminosity distance. */
  method DetectorFrameMasses(n: Numerics, cosmo: Cosmology, parameters: Sample, keys: seq<string>)
    returns (r: Result<Sample>)
    requires KeyOrder(keys, parameters)
    ensures r.Ok? ==> parameters.Keys <= r.value.Keys <= parameters.Keys + MassStageWrites(keys)
    ensures r.Ok? ==> KeepsOthers(r.value, parameters, MassStageWrites(keys))
    ensures r.Ok? && ("redshift" in parameters || "comoving_distance" in parameters) ==>
      "luminosity_distance" in r.value
    ensures r.Ok? && Spanning(parameters, Keys(false)) ==> "mass_1" in r.value && "mass_2" in r.value
    ensures r.Ok? && ComponentsDerived(parameters, keys) ==> ComponentsSumToTotal(r.value, Keys(false))
    ensures r.Ok? && MassRatioKey !in parameters.Keys + Targets(keys) ==> ComponentsHaveRatio(r.value, Keys(false))
    ensures (exists k <- keys :: IsSourceKey(k)) && "redshift" !in parameters && !HasReal(parameters, "luminosity_distance") ==>
      r.Err?
  {
    var c1 :- WithLuminosityDistance(cosmo, parameters);
    var c2 :- SourceFrameToDetectorFrame(cosmo, parameters, c1, keys);
    assert c1.Keys <= c2.Keys;
    MassKeysBeforeCompletion(parameters, c2, keys);
    var c3 :- GenerateComponentMassesAsWritten(n, c2, false, false);
    assert Spanning(parameters, Keys(false)) ==> Spanning(c2, Keys(false));
    MassStageFrame(parameters, c1, c2, c3, keys);
    return Ok(c3);
  }

  /** The first half as corrected: the redshift is read from the converted luminosity
      distance and the components come from the corrected generate_component_masses. A
      source-frame key then fails for want of a redshift only when neither a distance
      nor a redshift was given. */
  method DetectorFrameMassesCorrected(n: Numerics, cosmo: Cosmology, parameters: Sample, keys: seq<string>)
    returns (r: Result<Sample>)
    requires KeyOrder(keys, parameters)
    ensures r.Ok? ==> parameters.Keys <= r.value.Keys <= parameters.Keys + MassStageWrites(keys)
    ensures r.Ok? ==> KeepsOthers(r.value, parameters, MassStageWrites(keys))
    ensures r.Ok? && ("redshift" in parameters || "comoving_distance" in parameters) ==>
      "luminosity_distance" in r.value
    ensures r.Ok? && Spanning(parameters, Keys(false)) ==> "mass_1" in r.value && "mass_2" in r.value
    ensures r.Ok? && ComponentsDerived(parameters, keys) ==> ComponentsSumToTotal(r.value, Keys(false))
    ensures r.Ok? && MassRatioKey !in parameters.Keys + Targets(keys) ==> ComponentsHaveRatio(r.value, Keys(false))
    ensures r.Ok? && (exists k <- keys :: IsSourceKey(k)) && "redshift" !in parameters ==>
      "luminosity_distance" in parameters || "comoving_distance" in parameters
  {
    var c1 :- WithLuminosityDistance(cosmo, parameters);
    var c2 :- SourceFrameToDetectorFrame(cosmo, c1, c1, keys);
    assert c1.Keys <= c2.Keys;
    MassKeysBeforeCompletion(parameters, c2, keys);
    var c3 :- GenerateComponentMasses(n, c2, false, false);
    assert Spanning(parameters, Keys(false)) ==> Spanning(c2, Keys(false));
    MassStageFrame(parameters, c1, c2, c3, keys);
    return Ok(c3);
  }

  /** The first half's three steps together write only MassStageWrites(keys). */
  lemma MassStageFrame(parameters: Sample, c1: Sample, c2: Sample, c3: Sample, keys: seq<string>)
    requires Extends(c1, parameters) && c1.Keys <= parameters.Keys + {"luminosity_distance"}
    requires c1.Keys <= c2.Keys <= c1.Keys + Targets(keys) + {"redshift"}
    requires KeepsOthers(c2, c1, Targets(keys) + {"redshift"})
    requires AddsOnlyMasses(c3, c2, Keys(false))
    ensures parameters.Keys <= c3.Keys <= parameters.Keys + MassStageWrites(keys)
    ensures KeepsOthers(c3, parameters, MassStageWrites(keys))
  {
  }

  /** The components are not both given, neither directly nor as source-frame masses, so
      generate_component_masses computes them. */
  predicate ComponentsDerived(parameters: Sample, keys: seq<string>)
  {
    !("mass_1" in parameters.Keys + Targets(keys) && "mass_2" in parameters.Keys + Targets(keys))
  }

  /** Before the components are generated, a mass key is present only if it was given
      directly or as a source-frame mass. */
  lemma MassKeysBeforeCompletion(parameters: Sample, c2: Sample, keys: seq<string>)
    requires c2.Keys <= parameters.Keys + {"luminosity_distance"} + Targets(keys) + {"redshift"}
    ensures ComponentsDerived(parameters, keys) ==> !(Keys(false).mass1 in c2 && Keys(false).mass2 in c2)
    ensures MassRatioKey !in parameters.Keys + Targets(keys) ==> MassRatioKey !in c2
  {
  }

  /** The first half writes neither azimuth, so one it did not find was not given. */
  lemma AzimuthsNotMassStage(o: Sample, parameters: Sample, c3: Sample, keys: seq<string>)
    requires c3.Keys <= parameters.Keys + MassStageWrites(keys)
    requires AzimuthsDefaulted(o, c3.Keys)
    ensures AzimuthsDefaulted(o, parameters.Keys + Targets(keys))
  {
  }

  /** The second half writes none of the mass keys, so it keeps the relations between them. */
  lemma MassRelationsSurvive(o: Sample, c: Sample)
    requires c.Keys <= o.Keys <= c.Keys + SpinStageWrites && KeepsOthers(o, c, SpinStageWrites)
    ensures ComponentsSumToTotal(c, Keys(false)) ==> ComponentsSumToTotal(o, Keys(false))
    ensures ComponentsHaveRatio(c, Keys(false)) ==> ComponentsHaveRatio(o, Keys(false))
  {
  }

  /** A sample with a comoving distance, a source-frame mass and neither a luminosity distance
      nor a redshift. */
  const ComovingOnlySample: Sample := map["comoving_distance" := Num(100.0), "mass_1_source" := Num(10.0)]

  /** As written, the redshift is looked up from the input's luminosity distance: on a sample
      that only has a comoving distance this raises KeyError('luminosity_distance'), although
      the luminosity distance was computed a step earlier and would have served. */
  lemma ComovingDistanceOnlyRaises(cosmo: Cosmology)
    ensures WithLuminosityDistance(cosmo, ComovingOnlySample).Ok?
    ensures var c1 := WithLuminosityDistance(cosmo, ComovingOnlySample).value;
      && WithRedshift(cosmo, ComovingOnlySample, c1) == Err(KeyError("luminosity_distance"))
      && WithRedshift(cosmo, c1, c1).Ok?
  {
  }

  /** Corrected: reading the distance from the converted sample, the redshift is available
      whenever a numeric luminosity or comoving distance was given. */
  lemma RedshiftAvailable(cosmo: Cosmology, p: Sample, conv: Sample)
    requires HasReal(p, "luminosity_distance") || ("luminosity_distance" !in p && HasReal(p, "comoving_distance"))
    requires "redshift" !in p
    ensures WithLuminosityDistance(cosmo, p).Ok?
    ensures WithRedshift(cosmo, WithLuminosityDistance(cosmo, p).value, conv).Ok?
  {
  }

  /** The keys the first half may write. */
  function MassStageWrites(keys: seq<string>): set<string>
  {
    Targets(keys) + {"luminosity_distance", "redshift", "mass_1", "mass_2", "total_mass", MassRatioKey, SymmetricMassRatioKey}
  }

  /** The keys the second half may write. */
  const SpinStageWrites: set<string> :=
    {"a_1", "cos_tilt_1", "a_2", "cos_tilt_2", "phi_jl", "phi_12", "tilt_1", "tilt_2", "theta_jn", "phase"}

  /** The second half of the black-hole conversion: spin magnitudes and tilts, default
      azimuths, angles from cosines and the phase from delta_phase. */
  method SpinsAndAngles(n: Numerics, c3: Sample, original: set<string>) returns (r: Result<Sample>)
    requires original <= c3.Keys
    ensures r.Ok? ==> c3.Keys <= r.value.Keys <= c3.Keys + SpinStageWrites
    ensures r.Ok? ==> KeepsOthers(r.value, c3, SpinStageWrites)
    ensures r.Ok? ==> SpinsConsistent(r.value, original)
    ensures r.Ok? ==> "phi_jl" in r.value && "phi_12" in r.value
    ensures r.Ok? ==> AzimuthsDefaulted(r.value, c3.Keys)
    ensures r.Ok? ==> AnglesFromCosines(n, r.value)
    ensures r.Ok? && "delta_phase" in original ==>
      HasReal(r.value, "phase") && 0.0 <= r.value["phase"].x < TwoPi(n)
  {
    var c4 :- SphericalSpins(n, c3, original);
    var c5 := DefaultAzimuths(c4);
    var c6 :- AnglesFromCosineKeys(n, c5);
    var c7 := c6;
    LaterWritesMissSpins();
    SpinsSurvive(c4, c5, original, {"phi_jl", "phi_12"});
    SpinsSurvive(c5, c6, original, AngleKeys);
    if "delta_phase" in original {
      c7 :- PhaseFromDeltaPhase(n, c6);
      SpinsSurvive(c6, c7, original, {"phase"});
      AnglesSurvive(n, c6, c7);
    }
    SpinStageFrame(c3, c4, c5, c6, c7);
    return Ok(c7);
  }

  /** The four steps of the second half together write only SpinStageWrites, and an azimuth
      absent before them ends up 0.0. */
  lemma SpinStageFrame(c3: Sample, c4: Sample, c5: Sample, c6: Sample, c7: Sample)
    requires c3.Keys <= c4.Keys <= c3.Keys + {"a_1", "cos_tilt_1", "a_2", "cos_tilt_2"}
    requires KeepsOthers(c4, c3, {"a_1", "cos_tilt_1", "a_2", "cos_tilt_2"})
    requires c5.Keys == c4.Keys + {"phi_jl", "phi_12"} && Extends(c5, c4)
    requires forall key <- AzimuthKeys :: key !in c4 ==> c5[key] == Num(0.0)
    requires c5.Keys <= c6.Keys <= c5.Keys + AngleKeys && KeepsOthers(c6, c5, AngleKeys)
    requires c6.Keys <= c7.Keys <= c6.Keys + {"phase"} && KeepsOthers(c7, c6, {"phase"})
    ensures c3.Keys <= c7.Keys <= c3.Keys + SpinStageWrites
    ensures KeepsOthers(c7, c3, SpinStageWrites)
    ensures "phi_jl" in c7 && "phi_12" in c7
    ensures AzimuthsDefaulted(c7, c3.Keys)
  {
  }

  /** Every key the black-hole conversion may write. */
  function ConversionWrites(keys: seq<string>): set<string>
  {
    MassStageWrites(keys) + SpinStageWrites
  }

  /** The black-hole conversion: distance, source-frame keys, component masses, spin
      magnitudes and tilts, default azimuths, angles from cosines and the phase from
      delta_phase, in that order; the added keys are those absent from the input. */
  method ConvertToLalBinaryBlackHoleParameters(n: Numerics, cosmo: Cosmology, parameters: Sample, keys: seq<string>)
    returns (r: Result<Conversion>)
    requires KeyOrder(keys, parameters)
    ensures r.Ok? ==> parameters.Keys <= r.value.converted.Keys
    ensures r.Ok? ==> r.value.addedKeys == r.value.converted.Keys - parameters.Keys
    ensures r.Ok? ==> r.value.converted.Keys <= parameters.Keys + ConversionWrites(keys)
    ensures r.Ok? ==> KeepsOthers(r.value.converted, parameters, ConversionWrites(keys))
    ensures r.Ok? && ("redshift" in parameters || "comoving_distance" in parameters) ==>
      "luminosity_distance" in r.value.converted
    ensures r.Ok? && Spanning(parameters, Keys(false)) ==>
      && "mass_1" in r.value.converted
      && "mass_2" in r.value.converted
    ensures r.Ok? ==> SpinsConsistent(r.value.converted, parameters.Keys)
    ensures r.Ok? ==> "phi_jl" in r.value.converted && "phi_12" in r.value.converted
    ensures r.Ok? ==> AzimuthsDefaulted(r.value.converted, parameters.Keys + Targets(keys))
    ensures r.Ok? && ComponentsDerived(parameters, keys) ==> ComponentsSumToTotal(r.value.converted, Keys(false))
    ensures r.Ok? && MassRatioKey !in parameters.Keys + Targets(keys) ==> ComponentsHaveRatio(r.value.converted, Keys(false))
    ensures r.Ok? ==> AnglesFromCosines(n, r.value.converted)
    ensures r.Ok? && "delta_phase" in parameters ==>
      HasReal(r.value.converted, "phase") && 0.0 <= r.value.converted["phase"].x < TwoPi(n)
    ensures (exists k <- keys :: IsSourceKey(k)) && "redshift" !in parameters && !HasReal(parameters, "luminosity_distance") ==>
      r.Err?
  {
    var c3 :- DetectorFrameMasses(n, cosmo, parameters, keys);
    var c7 :- SpinsAndAngles(n, c3, parameters.Keys);
    AzimuthsNotMassStage(c7, parameters, c3, keys);
    MassRelationsSurvive(c7, c3);
    return Ok(Conversion(c7, c7.Keys - parameters.Keys));
  }

  // ---------------------------------------------------------------------------
  // convert_to_lal_binary_neutron_star_parameters
  // ---------------------------------------------------------------------------

  /** What the spectral equation of state gives for the two masses: both tidal
      deformabilities, or Unphysical when the decomposition warns, the family fails its
      physical check or a mass exceeds the family's maximum mass. */
  datatype EosOutcome = Lambdas(lambda1: real, lambda2: real) | Unphysical

  /** SpectralDecompositionEOS, eos_family_physical_check and EOSFamily, applied to the
      converted parameters. */
  type EquationOfState = Sample -> EosOutcome

  /** The keys whose presence marks a sample as carrying tidal information. */
  const TidalKeys: set<string> := {"lambda_1", "lambda_2", "lambda_tilde", "delta_lambda_tilde", "eos_spectral_gamma_0"}

  predicate AnyTidal(o: Sample)
  {
    "lambda_1" in o || "lambda_2" in o || "lambda_tilde" in o || "delta_lambda_tilde" in o || "eos_spectral_gamma_0" in o
  }

  /** Both deformabilities and both masses are numbers. */
  predicate TidalPair(o: Sample)
  {
    HasReal(o, "lambda_1") && HasReal(o, "lambda_2") && HasReal(o, "mass_1") && HasReal(o, "mass_2")
  }

  /** lambda_1 mass_1^5 = lambda_2 mass_2^5. */
  predicate EqualScaledDeformability(o: Sample)
  {
    TidalPair(o) && o["lambda_1"].x * FifthPower(o["mass_1"].x) == o["lambda_2"].x * FifthPower(o["mass_2"].x)
  }

  /** The forward map gives back the sample's lambda_tilde. */
  predicate MatchesLambdaTilde(n: Numerics, o: Sample)
  {
    && TidalPair(o) && HasReal(o, "lambda_tilde")
    && LambdaOneLambdaTwoToLambdaTilde(n, o["lambda_1"].x, o["lambda_2"].x, o["mass_1"].x, o["mass_2"].x)
       == Ok(o["lambda_tilde"].x)
  }

  /** The forward map gives back delta_lambda_tilde. */
  predicate MatchesDeltaLambdaTilde(n: Numerics, o: Sample, deltaLambdaTilde: real)
  {
    && TidalPair(o)
    && LambdaOneLambdaTwoToDeltaLambdaTilde(n, o["lambda_1"].x, o["lambda_2"].x, o["mass_1"].x, o["mass_2"].x)
       == Ok(deltaLambdaTilde)
  }

  /** lambda_1 and lambda_2 from lambda_tilde and delta_lambda_tilde (the latter read from the
      input parameters) or, failing that, from lambda_tilde alone. */
  function LambdasFromTilde(n: Numerics, conv: Sample, parameters: Sample): (r: Result<Sample>)
    ensures "delta_lambda_tilde" !in conv && "lambda_tilde" !in conv ==> r == Ok(conv)
    ensures r.Ok? ==> conv.Keys <= r.value.Keys <= conv.Keys + {"lambda_1", "lambda_2"}
    ensures r.Ok? ==> KeepsOthers(r.value, conv, {"lambda_1", "lambda_2"})
    ensures r.Ok? && "delta_lambda_tilde" in conv ==>
      && HasReal(parameters, "delta_lambda_tilde")
      && MatchesLambdaTilde(n, r.value)
      && MatchesDeltaLambdaTilde(n, r.value, parameters["delta_lambda_tilde"].x)
    ensures r.Ok? && "delta_lambda_tilde" !in conv && "lambda_tilde" in conv ==>
      EqualScaledDeformability(r.value) && MatchesLambdaTilde(n, r.value)
  {
    if "delta_lambda_tilde" in conv then
      var lambdaTilde :- GetReal(conv, "lambda_tilde");
      var deltaLambdaTilde :- GetReal(parameters, "delta_lambda_tilde");
      var mass1 :- GetReal(conv, "mass_1");
      var mass2 :- GetReal(conv, "mass_2");
      var lambdas :- LambdaTildeDeltaLambdaTildeToLambdaOneLambdaTwo(n, lambdaTilde, deltaLambdaTilde, mass1, mass2);
      TwoTermInverseRoundTrip(n, lambdaTilde, deltaLambdaTilde, mass1, mass2, lambdas.0, lambdas.1);
      Ok(conv["lambda_1" := Num(lambdas.0)]["lambda_2" := Num(lambdas.1)])
    else if "lambda_tilde" in conv then
      var lambdaTilde :- GetReal(conv, "lambda_tilde");
      var mass1 :- GetReal(conv, "mass_1");
      var mass2 :- GetReal(conv, "mass_2");
      var lambdas :- LambdaTildeToLambdaOneLambdaTwo(n, lambdaTilde, mass1, mass2);
      EqualRatioInverseScaling(n, lambdaTilde, mass1, mass2, lambdas.0, lambdas.1);
      EqualRatioInverseRoundTrip(n, lambdaTilde, mass1, mass2, lambdas.0, lambdas.1);
      Ok(conv["lambda_1" := Num(lambdas.0)]["lambda_2" := Num(lambdas.1)])
    else Ok(conv)
  }

  /** lambda_2 = lambda_1 mass_1^5 / mass_2^5. */
  function ScaledSecondLambda(conv: Sample): (r: Result<Sample>)
    ensures r.Ok? ==> r.value.Keys == conv.Keys + {"lambda_2"}
    ensures r.Ok? ==> KeepsOthers(r.value, conv, {"lambda_2"})
    ensures r.Ok? ==> EqualScaledDeformability(r.value)
    ensures HasReal(conv, "mass_2") && conv["mass_2"].x == 0.0 ==> r.Err?
  {
    var lambda1 :- GetReal(conv, "lambda_1");
    var mass1 :- GetReal(conv, "mass_1");
    var mass2 :- GetReal(conv, "mass_2");
    FifthPowerZeroIff(mass2);
    var lambda2 :- Div(lambda1 * FifthPower(mass1), FifthPower(mass2));
    Ok(conv["lambda_2" := Num(lambda2)])
  }

  lemma FifthPowerZeroIff(x: real)
    ensures FifthPower(x) == 0.0 <==> x == 0.0
  {
    PowerFive(x);
    if x != 0.0 {
      NonZeroFactors(x, x);
      NonZeroFactors(x * x, x);
      NonZeroFactors(x * x * x, x);
      NonZeroFactors(x * x * x * x, x);
    }
  }

  /** The equation of state's deformabilities, or zeros and eos_check = False. */
  function EosLambdas(eos: EquationOfState, conv: Sample): (o: Sample)
    ensures eos(conv).Lambdas? ==>
      o == conv["lambda_1" := Num(eos(conv).lambda1)]["lambda_2" := Num(eos(conv).lambda2)]
    ensures eos(conv).Unphysical? ==>
      && o.Keys == conv.Keys + {"lambda_1", "lambda_2", "eos_check"}
      && o["lambda_1"] == Num(0.0) && o["lambda_2"] == Num(0.0) && o["eos_check"] == Bool(false)
      && KeepsOthers(o, conv, {"lambda_1", "lambda_2", "eos_check"})
  {
    match eos(conv)
    case Lambdas(lambda1, lambda2) => conv["lambda_1" := Num(lambda1)]["lambda_2" := Num(lambda2)]
    case Unphysical => conv["lambda_1" := Num(0.0)]["lambda_2" := Num(0.0)]["eos_check" := Bool(false)]
  }

  /** lambda_2 from lambda_1 when it is missing or None, otherwise the equation of state when
      its first parameter is present. */
  function SecondLambda(eos: EquationOfState, conv: Sample): (r: Result<Sample>)
    ensures r.Ok? ==> conv.Keys <= r.value.Keys <= conv.Keys + {"lambda_1", "lambda_2", "eos_check"}
    ensures r.Ok? ==> KeepsOthers(r.value, conv, {"lambda_1", "lambda_2", "eos_check"})
    ensures ("lambda_2" !in conv && "lambda_1" in conv) || ("lambda_2" in conv && conv["lambda_2"] == Null) ==>
      r == ScaledSecondLambda(conv)
    ensures "lambda_2" in conv && conv["lambda_2"] != Null && "eos_spectral_gamma_0" !in conv ==> r == Ok(conv)
  {
    if "lambda_2" !in conv && "lambda_1" in conv then ScaledSecondLambda(conv)
    else if "lambda_2" in conv && conv["lambda_2"] == Null then ScaledSecondLambda(conv)
    else if "eos_spectral_gamma_0" in conv then Ok(EosLambdas(eos, conv))
    else Ok(conv)
  }

  /** The tidal part of the neutron-star conversion, applied to the black-hole conversion's
      output: zero deformabilities when no tidal key is present, else lambda_1 and lambda_2
      from the tilde parameters and then lambda_2 from lambda_1 or from the equation of state. */
  function TidalStage(n: Numerics, eos: EquationOfState, conv: Sample, parameters: Sample): (r: Result<Sample>)
    ensures !AnyTidal(conv) ==>
      && r.Ok? && r.value.Keys == conv.Keys + {"lambda_1", "lambda_2"}
      && r.value["lambda_1"] == Num(0.0) && r.value["lambda_2"] == Num(0.0)
    ensures r.Ok? ==> conv.Keys <= r.value.Keys <= conv.Keys + {"lambda_1", "lambda_2", "eos_check"}
    ensures r.Ok? ==> KeepsOthers(r.value, conv, {"lambda_1", "lambda_2", "eos_check"})
    ensures r.Ok? && "delta_lambda_tilde" in conv && "eos_spectral_gamma_0" !in conv ==>
      && HasReal(parameters, "delta_lambda_tilde")
      && MatchesLambdaTilde(n, r.value)
      && MatchesDeltaLambdaTilde(n, r.value, parameters["delta_lambda_tilde"].x)
    ensures r.Ok? && "delta_lambda_tilde" !in conv && "lambda_tilde" in conv && "eos_spectral_gamma_0" !in conv ==>
      EqualScaledDeformability(r.value) && MatchesLambdaTilde(n, r.value)
    ensures (&& r.Ok? && "delta_lambda_tilde" !in conv && "lambda_tilde" !in conv
             && (("lambda_2" !in conv && "lambda_1" in conv) || ("lambda_2" in conv && conv["lambda_2"] == Null))) ==>
      EqualScaledDeformability(r.value)
  {
    if !AnyTidal(conv) then
      Ok(conv["lambda_1" := Num(0.0)]["lambda_2" := Num(0.0)])
    else
      var withLambdas :- LambdasFromTilde(n, conv, parameters);
      SecondLambda(eos, withLambdas)
  }

  /** The neutron-star conversion: the black-hole conversion, then the tidal deformabilities.
      Without tidal keys the deformabilities are zero and are reported as added. */
  method ConvertToLalBinaryNeutronStarParameters(n: Numerics, cosmo: Cosmology, eos: EquationOfState,
                                                 parameters: Sample, keys: seq<string>)
    returns (r: Result<Conversion>)
    requires KeyOrder(keys, parameters)
    ensures r.Ok? ==> parameters.Keys <= r.value.converted.Keys
    ensures r.Ok? ==> r.value.addedKeys == r.value.converted.Keys - parameters.Keys
    ensures r.Ok? && TidalKeys !! parameters.Keys && TidalKeys !! Targets(keys) ==>
      && "lambda_1" in r.value.converted && "lambda_2" in r.value.converted
      && r.value.converted["lambda_1"] == Num(0.0) && r.value.converted["lambda_2"] == Num(0.0)
    ensures r.Ok? && "delta_lambda_tilde" in r.value.converted && "eos_spectral_gamma_0" !in r.value.converted ==>
      && HasReal(parameters, "delta_lambda_tilde")
      && MatchesLambdaTilde(n, r.value.converted)
      && MatchesDeltaLambdaTilde(n, r.value.converted, parameters["delta_lambda_tilde"].x)
    ensures (&& r.Ok? && "delta_lambda_tilde" !in r.value.converted && "lambda_tilde" in r.value.converted
             && "eos_spectral_gamma_0" !in r.value.converted) ==>
      EqualScaledDeformability(r.value.converted) && MatchesLambdaTilde(n, r.value.converted)
    ensures (&& r.Ok? && "delta_lambda_tilde" !in r.value.converted && "lambda_tilde" !in r.value.converted
             && "lambda_1" in parameters && "lambda_2" !in parameters && "lambda_2" !in Targets(keys)) ==>
      EqualScaledDeformability(r.value.converted)
    ensures r.Ok? && Spanning(parameters, Keys(false)) ==>
      && "mass_1" in r.value.converted
      && "mass_2" in r.value.converted
    ensures r.Ok? && ComponentsDerived(parameters, keys) ==> ComponentsSumToTotal(r.value.converted, Keys(false))
    ensures r.Ok? && MassRatioKey !in parameters.Keys + Targets(keys) ==> ComponentsHaveRatio(r.value.converted, Keys(false))
    ensures r.Ok? ==> AzimuthsDefaulted(r.value.converted, parameters.Keys + Targets(keys))
    ensures (exists k <- keys :: IsSourceKey(k)) && "redshift" !in parameters && !HasReal(parameters, "luminosity_distance") ==>
      r.Err?
  {
    var bbh :- ConvertToLalBinaryBlackHoleParameters(n, cosmo, parameters, keys);
    r := WithTidalStage(n, eos, parameters, keys, bbh);
    if r.Ok? {
      TidalStageKeepsMasses(r.value.converted, bbh.converted, parameters.Keys + Targets(keys));
    }
  }

  /** The tidal stage writes no mass key and no azimuth. */
  lemma TidalStageKeepsMasses(o: Sample, c: Sample, given: set<string>)
    requires c.Keys <= o.Keys <= c.Keys + {"lambda_1", "lambda_2", "eos_check"}
    requires KeepsOthers(o, c, {"lambda_1", "lambda_2", "eos_check"})
    ensures ComponentsSumToTotal(c, Keys(false)) ==> ComponentsSumToTotal(o, Keys(false))
    ensures ComponentsHaveRatio(c, Keys(false)) ==> ComponentsHaveRatio(o, Keys(false))
    ensures AzimuthsDefaulted(c, given) ==> AzimuthsDefaulted(o, given)
  {
  }

  /** The tidal stage on the black-hole conversion's output, with the added keys. */
  method WithTidalStage(n: Numerics, eos: EquationOfState, parameters: Sample, keys: seq<string>, bbh: Conversion)
    returns (r: Result<Conversion>)
    requires parameters.Keys <= bbh.converted.Keys
    requires bbh.addedKeys == bbh.converted.Keys - parameters.Keys
    requires bbh.converted.Keys <= parameters.Keys + ConversionWrites(keys)
    requires KeepsOthers(bbh.converted, parameters, ConversionWrites(keys))
    ensures r.Ok? ==> parameters.Keys <= r.value.converted.Keys
    ensures r.Ok? ==> r.value.addedKeys == r.value.converted.Keys - parameters.Keys
    ensures r.Ok? ==> bbh.converted.Keys <= r.value.converted.Keys <= bbh.converted.Keys + {"lambda_1", "lambda_2", "eos_check"}
    ensures r.Ok? ==> KeepsOthers(r.value.converted, bbh.converted, {"lambda_1", "lambda_2", "eos_check"})
    ensures r.Ok? && TidalKeys !! parameters.Keys && TidalKeys !! Targets(keys) ==>
      && "lambda_1" in r.value.converted && "lambda_2" in r.value.converted
      && r.value.converted["lambda_1"] == Num(0.0) && r.value.converted["lambda_2"] == Num(0.0)
    ensures r.Ok? && "delta_lambda_tilde" in r.value.converted && "eos_spectral_gamma_0" !in r.value.converted ==>
      && HasReal(parameters, "delta_lambda_tilde")
      && MatchesLambdaTilde(n, r.value.converted)
      && MatchesDeltaLambdaTilde(n, r.value.converted, parameters["delta_lambda_tilde"].x)
    ensures (&& r.Ok? && "delta_lambda_tilde" !in r.value.converted && "lambda_tilde" in r.value.converted
             && "eos_spectral_gamma_0" !in r.value.converted) ==>
      EqualScaledDeformability(r.value.converted) && MatchesLambdaTilde(n, r.value.converted)
    ensures (&& r.Ok? && "delta_lambda_tilde" !in r.value.converted && "lambda_tilde" !in r.value.converted
             && "lambda_1" in parameters && "lambda_2" !in parameters && "lambda_2" !in Targets(keys)) ==>
      EqualScaledDeformability(r.value.converted)
  {
    TidalKeysNotWritten(keys);
    var converted :- TidalStage(n, eos, bbh.converted, parameters);
    if !AnyTidal(bbh.converted) {
      return Ok(Conversion(converted, bbh.addedKeys + {"lambda_1", "lambda_2"}));
    }
    return Ok(Conversion(converted, converted.Keys - parameters.Keys));
  }

  /** The black-hole conversion writes a tidal key only as the detector-frame name of a
      source-frame key. */
  lemma TidalKeysNotWritten(keys: seq<string>)
    ensures TidalKeys * ConversionWrites(keys) <= Targets(keys)
  {
  }
}
