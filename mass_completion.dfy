/**
  Completing a sample's mass parameters from whichever "spanning" pair it holds
  (generate_component_masses and generate_mass_parameters).

  The sample is copied and only keys it does not already hold are written, so the
  input is never overwritten; the branch taken depends only on which keys are
  present, in the order mass_1, mass_2, total mass, chirp mass.
*/
module MassCompletion {
  import opened Values
  import opened Numerics
  import opened MassConversion

  /** The key names of the detector-frame or of the source-frame masses. */
  datatype MassKeys = MassKeys(mass1: string, mass2: string, total: string, chirp: string)

  const MassRatioKey: string := "mass_ratio"
  const SymmetricMassRatioKey: string := "symmetric_mass_ratio"
  const InsufficientMasses: string := "Insufficient mass parameters in input dictionary"

  /** The two mass ratios are shared between the frames; the four scaled masses are not. */
  function Keys(source: bool): (k: MassKeys)
    ensures Distinct(k)
    ensures source ==> k.mass1 == "mass_1_source" && k.total == "total_mass_source"
    ensures !source ==> k.mass1 == "mass_1" && k.total == "total_mass"
  {
    if source then MassKeys("mass_1_source", "mass_2_source", "total_mass_source", "chirp_mass_source")
    else MassKeys("mass_1", "mass_2", "total_mass", "chirp_mass")
  }


  /** check_and_return_quietly: a KeyError when the masses are required, else the sample unchanged. */
  function Quietly(requireAdd: bool, s: Sample): (r: Result<Sample>)
    ensures requireAdd <==> r.Err?
    ensures r.Ok? ==> r.value == s
  {
    if requireAdd then Err(KeyError(InsufficientMasses)) else Ok(s)
  }

  /** The six mass keys are pairwise different. */
  predicate Distinct(k: MassKeys)
  {
    && k.mass1 != k.mass2 && k.mass1 != k.total && k.mass1 != k.chirp
    && k.mass2 != k.total && k.mass2 != k.chirp && k.total != k.chirp
    && MassRatioKey !in {k.mass1, k.mass2, k.total, k.chirp}
    && SymmetricMassRatioKey !in {k.mass1, k.mass2, k.total, k.chirp, MassRatioKey}
  }

  /** Where the components and the total mass are all present, they agree. */
  predicate ComponentsSumToTotal(o: Sample, k: MassKeys)
  {
    HasReal(o, k.mass1) && HasReal(o, k.mass2) && HasReal(o, k.total) ==>
      o[k.mass1].x + o[k.mass2].x == o[k.total].x
  }

  /** Where the components and the mass ratio are all present, mass_2 == mass_ratio * mass_1. */
  predicate ComponentsHaveRatio(o: Sample, k: MassKeys)
  {
    HasReal(o, k.mass1) && HasReal(o, k.mass2) && HasReal(o, MassRatioKey) ==>
      o[k.mass2].x == o[MassRatioKey].x * o[k.mass1].x
  }

  /** Where the components, a positive chirp mass and a positive mass ratio are all present,
      the chirp mass is that of the components. */
  ghost predicate ComponentsHaveChirpMass(o: Sample, k: MassKeys)
  {
    && HasReal(o, k.mass1) && HasReal(o, k.mass2) && HasReal(o, k.chirp) && HasReal(o, MassRatioKey)
    && o[k.chirp].x > 0.0 && o[MassRatioKey].x > 0.0
    ==> IsChirpMass(o[k.chirp].x, o[k.mass1].x, o[k.mass2].x)
  }

  // ---------------------------------------------------------------------------
  // The final assignments of each branch
  // ---------------------------------------------------------------------------

  /** mass_2 = mass_ratio * mass_1. */
  function Mass2FromRatio(o: Sample, k: MassKeys): (r: Result<Sample>)
    requires Distinct(k) && k.mass2 !in o
    ensures r.Ok? ==> Extends(r.value, o) && r.value.Keys == o.Keys + {k.mass2}
    ensures r.Ok? ==>
      && HasReal(o, MassRatioKey) && HasReal(o, k.mass1)
      && r.value[k.mass2].Num? && r.value[k.mass2].x == o[MassRatioKey].x * o[k.mass1].x
  {
    var q :- GetReal(o, MassRatioKey);
    var m1 :- GetReal(o, k.mass1);
    Ok(o[k.mass2 := Num(q * m1)])
  }

  /** mass_1 = 1 / mass_ratio * mass_2: a ZeroDivision when the ratio is zero. */
  function Mass1FromRatio(o: Sample, k: MassKeys): (r: Result<Sample>)
    requires Distinct(k) && k.mass1 !in o
    ensures r.Ok? ==> Extends(r.value, o) && r.value.Keys == o.Keys + {k.mass1}
    ensures r.Ok? ==>
      && HasReal(o, MassRatioKey) && HasReal(o, k.mass2) && r.value[k.mass1].Num?
      && o[MassRatioKey].x * r.value[k.mass1].x == o[k.mass2].x
    ensures MassRatioKey !in o ==> r == Err(KeyError(MassRatioKey))
  {
    var q :- GetReal(o, MassRatioKey);
    var inverse :- Div(1.0, q);
    var m2 :- GetReal(o, k.mass2);
    Ok(o[k.mass1 := Num(inverse * m2)])
  }

  /** Both components from the total mass and the mass ratio. */
  function ComponentsFromTotal(o: Sample, k: MassKeys): (r: Result<Sample>)
    requires Distinct(k) && k.mass1 !in o && k.mass2 !in o
    ensures r.Ok? ==> Extends(r.value, o) && r.value.Keys == o.Keys + {k.mass1, k.mass2}
    ensures r.Ok? ==> ComponentsSumToTotal(r.value, k) && ComponentsHaveRatio(r.value, k)
    ensures r.Ok? ==> HasReal(r.value, k.mass1) && HasReal(r.value, k.mass2) && HasReal(r.value, k.total)
  {
    var total :- GetReal(o, k.total);
    var q :- GetReal(o, MassRatioKey);
    var masses :- TotalMassAndMassRatioToComponentMasses(q, total);
    Ok(o[k.mass1 := Num(masses.mass1)][k.mass2 := Num(masses.mass2)])
  }

  /** The total mass from (chirp mass, mass ratio), then both components: a pair with the
      given chirp mass and mass ratio. */
  function ComponentsFromChirp(n: Numerics, o: Sample, k: MassKeys): (r: Result<Sample>)
    requires Distinct(k) && k.mass1 !in o && k.mass2 !in o && k.total !in o
    ensures r.Ok? ==> Extends(r.value, o) && r.value.Keys == o.Keys + {k.total, k.mass1, k.mass2}
    ensures r.Ok? ==> ComponentsSumToTotal(r.value, k) && ComponentsHaveRatio(r.value, k)
    ensures r.Ok? ==> HasReal(r.value, k.mass1) && HasReal(r.value, k.mass2)
    ensures r.Ok? && ChirpPowersAreRoots(n) ==> ComponentsHaveChirpMass(r.value, k)
  {
    var chirp :- GetReal(o, k.chirp);
    var q :- GetReal(o, MassRatioKey);
    var total :- ChirpMassAndMassRatioToTotalMass(n, chirp, q);
    assert ChirpMassAndMassRatioToComponentMasses(n, chirp, q) == TotalMassAndMassRatioToComponentMasses(q, total);
    ComponentsFromTotal(o[k.total := Num(total)], k)
  }

  // ---------------------------------------------------------------------------
  // The three branches
  // ---------------------------------------------------------------------------

  /** o is s with at most the mass keys added, and none of s's keys changed. */
  predicate AddsOnlyMasses(o: Sample, s: Sample, k: MassKeys)
  {
    Extends(o, s) && o.Keys <= s.Keys + {k.mass1, k.mass2, k.total, MassRatioKey, SymmetricMassRatioKey}
  }

  /** mass_1 is present and mass_2 is not. */
  function FromMass1(n: Numerics, s: Sample, k: MassKeys, requireAdd: bool): (r: Result<Sample>)
    requires Distinct(k)
    requires k.mass1 in s && k.mass2 !in s
    ensures r.Ok? ==> AddsOnlyMasses(r.value, s, k)
    ensures r.Ok? ==> (r.value == s && !requireAdd) || (HasReal(r.value, k.mass1) && HasReal(r.value, k.mass2))
    ensures r.Ok? ==> ComponentsSumToTotal(r.value, k)
    ensures r.Ok? && MassRatioKey !in s ==> ComponentsHaveRatio(r.value, k)
  {
    if k.total in s then
      var total :- GetReal(s, k.total);
      var m1 :- GetReal(s, k.mass1);
      Ok(s[k.mass2 := Num(total - m1)])
    else if MassRatioKey in s then
      Mass2FromRatio(s, k)
    else if SymmetricMassRatioKey in s then
      var eta :- GetReal(s, SymmetricMassRatioKey);
      var q :- SymmetricMassRatioToMassRatio(n, eta);
      Mass2FromRatio(s[MassRatioKey := Num(q)], k)
    else if k.chirp in s then
      var m1 :- GetReal(s, k.mass1);
      var chirp :- GetReal(s, k.chirp);
      var q :- Mass1AndChirpMassToMassRatio(n, m1, chirp);
      Mass2FromRatio(s[MassRatioKey := Num(q)], k)
    else
      Quietly(requireAdd, s)
  }

  /** The ratio step of the mass_2-only branch, shared by the written and the corrected form. */
  function Mass2Ratio(n: Numerics, s: Sample, k: MassKeys): (r: Result<Sample>)
    requires Distinct(k)
    requires k.mass1 !in s && k.mass2 in s && k.total !in s
    requires MassRatioKey in s || SymmetricMassRatioKey in s || k.chirp in s
    ensures r.Ok? ==> AddsOnlyMasses(r.value, s, k) && k.total !in r.value
    ensures r.Ok? ==> HasReal(r.value, k.mass1) && HasReal(r.value, k.mass2)
    ensures r.Ok? ==> ComponentsHaveRatio(r.value, k)
  {
    if MassRatioKey in s then
      Mass1FromRatio(s, k)
    else if SymmetricMassRatioKey in s then
      var eta :- GetReal(s, SymmetricMassRatioKey);
      var q :- SymmetricMassRatioToMassRatio(n, eta);
      Mass1FromRatio(s[MassRatioKey := Num(q)], k)
    else
      var m2 :- GetReal(s, k.mass2);
      var chirp :- GetReal(s, k.chirp);
      var q :- Mass2AndChirpMassToMassRatio(n, m2, chirp);
      Mass1FromRatio(s[MassRatioKey := Num(q)], k)
  }

  /** mass_2 is present and mass_1 is not, as corrected: with nothing to pair mass_2 with,
      the sample is returned quietly (or a KeyError raised) as in the other branches. */
  function FromMass2(n: Numerics, s: Sample, k: MassKeys, requireAdd: bool): (r: Result<Sample>)
    requires Distinct(k)
    requires k.mass1 !in s && k.mass2 in s
    ensures r.Ok? ==> AddsOnlyMasses(r.value, s, k)
    ensures r.Ok? ==> (r.value == s && !requireAdd) || (HasReal(r.value, k.mass1) && HasReal(r.value, k.mass2))
    ensures r.Ok? ==> ComponentsSumToTotal(r.value, k)
    ensures r.Ok? && MassRatioKey !in s ==> ComponentsHaveRatio(r.value, k)
  {
    if k.total in s then
      var total :- GetReal(s, k.total);
      var m2 :- GetReal(s, k.mass2);
      Ok(s[k.mass1 := Num(total - m2)])
    else if MassRatioKey in s || SymmetricMassRatioKey in s || k.chirp in s then
      Mass2Ratio(n, s, k)
    else
      Quietly(requireAdd, s)
  }

  /** The mass_2 branch as written: the result of check_and_return_quietly is discarded, so
      with require_add false the code goes on to read the absent mass_ratio. */
  function FromMass2AsWritten(n: Numerics, s: Sample, k: MassKeys, requireAdd: bool): (r: Result<Sample>)
    requires Distinct(k)
    requires k.mass1 !in s && k.mass2 in s
    ensures r.Ok? ==> AddsOnlyMasses(r.value, s, k) && k.mass1 in r.value
  {
    if k.total in s then
      var total :- GetReal(s, k.total);
      var m2 :- GetReal(s, k.mass2);
      Ok(s[k.mass1 := Num(total - m2)])
    else if MassRatioKey in s || SymmetricMassRatioKey in s || k.chirp in s then
      Mass2Ratio(n, s, k)
    else
      var _ :- Quietly(requireAdd, s);
      Mass1FromRatio(s, k)
  }

  /** Neither component is present: go through the total mass and the mass ratio. */
  function FromTotalOrChirp(n: Numerics, s: Sample, k: MassKeys, requireAdd: bool): (r: Result<Sample>)
    requires Distinct(k)
    requires k.mass1 !in s && k.mass2 !in s
    ensures r.Ok? ==> AddsOnlyMasses(r.value, s, k)
    ensures r.Ok? ==> (r.value == s && !requireAdd) || (HasReal(r.value, k.mass1) && HasReal(r.value, k.mass2))
    ensures r.Ok? ==> ComponentsSumToTotal(r.value, k) && ComponentsHaveRatio(r.value, k)
    ensures r.Ok? && ChirpPowersAreRoots(n) && k.total !in s ==> ComponentsHaveChirpMass(r.value, k)
  {
    if k.total in s then
      if MassRatioKey in s then
        ComponentsFromTotal(s, k)
      else if SymmetricMassRatioKey in s then
        var eta :- GetReal(s, SymmetricMassRatioKey);
        var q :- SymmetricMassRatioToMassRatio(n, eta);
        ComponentsFromTotal(s[MassRatioKey := Num(q)], k)
      else if k.chirp in s then
        var chirp :- GetReal(s, k.chirp);
        var total :- GetReal(s, k.total);
        var eta :- ChirpMassAndTotalMassToSymmetricMassRatio(n, chirp, total);
        var q :- SymmetricMassRatioToMassRatio(n, eta);
        ComponentsFromTotal(s[SymmetricMassRatioKey := Num(eta)][MassRatioKey := Num(q)], k)
      else
        Quietly(requireAdd, s)
    else if k.chirp in s then
      if MassRatioKey in s then
        ComponentsFromChirp(n, s, k)
      else if SymmetricMassRatioKey in s then
        var eta :- GetReal(s, SymmetricMassRatioKey);
        var q :- SymmetricMassRatioToMassRatio(n, eta);
        ComponentsFromChirp(n, s[MassRatioKey := Num(q)], k)
      else
        Quietly(requireAdd, s)
    else
      Quietly(requireAdd, s)
  }

  // ---------------------------------------------------------------------------
  // generate_component_masses
  // ---------------------------------------------------------------------------

  /** The sample names two mass parameters from which both components follow. */
  predicate Spanning(s: Sample, k: MassKeys)
  {
    var ratio := MassRatioKey in s || SymmetricMassRatioKey in s;
    || (k.mass1 in s && (k.mass2 in s || k.total in s || ratio || k.chirp in s))
    || (k.mass2 in s && (k.total in s || ratio || k.chirp in s))
    || (k.total in s && (ratio || k.chirp in s))
    || (k.chirp in s && ratio)
  }

  /** generate_component_masses as corrected (see FromMass2).
      Existing keys are kept, both components are present unless the sample is returned
      quietly, which happens exactly when no spanning pair is present, and the added
      masses agree with the total mass and with a mass ratio that was not given. */
  function GenerateComponentMasses(n: Numerics, s: Sample, requireAdd: bool, source: bool): (r: Result<Sample>)
    ensures Keys(source).mass1 in s && Keys(source).mass2 in s ==> r == Ok(s)
    ensures r.Ok? ==> AddsOnlyMasses(r.value, s, Keys(source))
    ensures r.Ok? ==> (r.value == s && !requireAdd) || (Keys(source).mass1 in r.value && Keys(source).mass2 in r.value)
    ensures !Spanning(s, Keys(source)) ==> r == Quietly(requireAdd, s)
    ensures r.Ok? && Spanning(s, Keys(source)) ==> Keys(source).mass1 in r.value && Keys(source).mass2 in r.value
    ensures r.Ok? && !(Keys(source).mass1 in s && Keys(source).mass2 in s) ==> ComponentsSumToTotal(r.value, Keys(source))
    ensures r.Ok? && MassRatioKey !in s ==> ComponentsHaveRatio(r.value, Keys(source))
    ensures r.Ok? && ChirpPowersAreRoots(n) && !(Keys(source).mass1 in s || Keys(source).mass2 in s || Keys(source).total in s) ==>
      ComponentsHaveChirpMass(r.value, Keys(source))
  {
    var k := Keys(source);
    if k.mass1 in s then
      if k.mass2 in s then Ok(s) else FromMass1(n, s, k, requireAdd)
    else if k.mass2 in s then
      FromMass2(n, s, k, requireAdd)
    else
      FromTotalOrChirp(n, s, k, requireAdd)
  }

  /** generate_component_masses as written, with the mass_2 branch of FromMass2AsWritten; the
      conversions and generate_mass_parameters use this one. Whenever it succeeds it agrees
      with the corrected form, so every promise made on success carries over; it fails
      where the corrected form does not only with mass_2 alone, require_add false. */
  function GenerateComponentMassesAsWritten(n: Numerics, s: Sample, requireAdd: bool, source: bool): (r: Result<Sample>)
    ensures r.Ok? ==> r == GenerateComponentMasses(n, s, requireAdd, source)
    ensures Keys(source).mass1 !in s && Keys(source).mass2 in s && !Spanning(s, Keys(source)) ==>
      r == Err(KeyError(if requireAdd then InsufficientMasses else MassRatioKey))
    ensures !(Keys(source).mass1 !in s && Keys(source).mass2 in s) ==> r == GenerateComponentMasses(n, s, requireAdd, source)
  {
    var k := Keys(source);
    if k.mass1 in s then
      if k.mass2 in s then Ok(s) else FromMass1(n, s, k, requireAdd)
    else if k.mass2 in s then
      FromMass2AsWritten(n, s, k, requireAdd)
    else
      FromTotalOrChirp(n, s, k, requireAdd)
  }

  /** A sample holding only mass_2: the code as written raises a KeyError for mass_ratio
      even though require_add is false, where the corrected form returns the sample. */
  lemma Mass2AloneRaises(n: Numerics)
    ensures GenerateComponentMassesAsWritten(n, map["mass_2" := Num(10.0)], false, false)
      == Err(KeyError(MassRatioKey))
    ensures GenerateComponentMasses(n, map["mass_2" := Num(10.0)], false, false)
      == Ok(map["mass_2" := Num(10.0)])
  {
  }

  /** The written and corrected forms differ only there: mass_2 alone, require_add false. */
  lemma AsWrittenAgreesElsewhere(n: Numerics, s: Sample, requireAdd: bool, source: bool)
    requires requireAdd || Spanning(s, Keys(source)) || Keys(source).mass1 in s || Keys(source).mass2 !in s
    ensures GenerateComponentMassesAsWritten(n, s, requireAdd, source)
      == GenerateComponentMasses(n, s, requireAdd, source)
  {
  }

  // ---------------------------------------------------------------------------
  // generate_mass_parameters
  // ---------------------------------------------------------------------------

  /** The derived mass named by key, from the components in o. */
  function DerivedMass(n: Numerics, o: Sample, k: MassKeys, key: string): (r: Result<real>)
    requires Distinct(k) && key in {k.chirp, k.total, SymmetricMassRatioKey, MassRatioKey}
    ensures k.mass1 !in o ==> r == Err(KeyError(k.mass1))
    ensures r.Ok? ==> HasReal(o, k.mass1) && HasReal(o, k.mass2)
    ensures r.Ok? && key == k.total ==> r.value == o[k.mass1].x + o[k.mass2].x
    ensures r.Ok? && key == MassRatioKey ==> r.value * o[k.mass1].x == o[k.mass2].x
  {
    var m1 :- GetReal(o, k.mass1);
    var m2 :- GetReal(o, k.mass2);
    if key == k.chirp then ComponentMassesToChirpMass(n, m1, m2)
    else if key == k.total then Ok(ComponentMassesToTotalMass(m1, m2))
    else if key == SymmetricMassRatioKey then ComponentMassesToSymmetricMassRatio(m1, m2)
    else ComponentMassesToMassRatio(m1, m2)
  }

  /** Put key := its derived mass unless the key is already there; the components are read
      only when the key is absent. */
  function AddIfAbsent(n: Numerics, o: Sample, k: MassKeys, key: string): (r: Result<Sample>)
    requires Distinct(k) && key in {k.chirp, k.total, SymmetricMassRatioKey, MassRatioKey}
    ensures key in o ==> r == Ok(o)
    ensures key !in o ==> (r.Ok? <==> DerivedMass(n, o, k, key).Ok?)
    ensures r.Ok? ==> Extends(r.value, o) && r.value.Keys == o.Keys + {key}
    ensures r.Ok? ==> key in o || (k.mass1 in o && k.mass2 in o)
    ensures r.Ok? && ComponentsSumToTotal(o, k) ==> ComponentsSumToTotal(r.value, k)
    ensures r.Ok? && key == k.total ==> ComponentsSumToTotal(r.value, k) || key in o
    ensures r.Ok? && ComponentsHaveRatio(o, k) ==> ComponentsHaveRatio(r.value, k)
    ensures r.Ok? && key == MassRatioKey ==> ComponentsHaveRatio(r.value, k) || key in o
  {
    if key in o then Ok(o) else var v :- DerivedMass(n, o, k, key); Ok(o[key := Num(v)])
  }

  /** The four derived masses, each added only when absent. */
  function AddDerivedMasses(n: Numerics, o: Sample, k: MassKeys): (r: Result<Sample>)
    requires Distinct(k)
    ensures r.Ok? ==> Extends(r.value, o)
    ensures r.Ok? ==> r.value.Keys == o.Keys + {k.chirp, k.total, SymmetricMassRatioKey, MassRatioKey}
    ensures r.Ok? ==> (k.mass1 in o && k.mass2 in o) || {k.chirp, k.total, SymmetricMassRatioKey, MassRatioKey} <= o.Keys
    ensures r.Ok? && k.total !in o ==> ComponentsSumToTotal(r.value, k)
    ensures r.Ok? && ComponentsSumToTotal(o, k) ==> ComponentsSumToTotal(r.value, k)
    ensures r.Ok? && MassRatioKey !in o ==> ComponentsHaveRatio(r.value, k)
    ensures r.Ok? && ComponentsHaveRatio(o, k) ==> ComponentsHaveRatio(r.value, k)
  {
    var o1 :- AddIfAbsent(n, o, k, k.chirp);
    var o2 :- AddIfAbsent(n, o1, k, k.total);
    var o3 :- AddIfAbsent(n, o2, k, SymmetricMassRatioKey);
    AddIfAbsent(n, o3, k, MassRatioKey)
  }

  /** generate_mass_parameters: the components (as written), then chirp mass, total mass,
      symmetric mass ratio and mass ratio, each only when absent. On success all six are
      present, nothing else is added, nothing present is changed, and a total mass or mass
      ratio that was computed agrees with the components. mass_2 with no partner raises a
      KeyError for mass_ratio; with neither component, the components derived from a chirp
      mass and a mass ratio have that chirp mass. */
  function GenerateMassParameters(n: Numerics, s: Sample, source: bool): (r: Result<Sample>)
    ensures Keys(source).mass1 !in s && Keys(source).mass2 in s && !Spanning(s, Keys(source)) ==>
      r == Err(KeyError(MassRatioKey))
    ensures r.Ok? ==> Extends(r.value, s)
    ensures r.Ok? ==> r.value.Keys == s.Keys + MassParameterKeys(Keys(source))
    ensures r.Ok? && Keys(source).total !in s ==> ComponentsSumToTotal(r.value, Keys(source))
    ensures r.Ok? && MassRatioKey !in s ==> ComponentsHaveRatio(r.value, Keys(source))
  {
    var o :- GenerateComponentMassesAsWritten(n, s, false, source);
    AddDerivedMasses(n, o, Keys(source))
  }

  function MassParameterKeys(k: MassKeys): set<string>
  {
    {k.mass1, k.mass2, k.total, k.chirp, MassRatioKey, SymmetricMassRatioKey}
  }
}
