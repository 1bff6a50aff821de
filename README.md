# bilby compact-binary parameter conversion and interferometer strain data, in Dafny

This project models two parts of bilby, the Python library for gravitational-wave
inference.

The first part is the parameter conversion of compact binary coalescences
(`bilby/gw/conversion.py`). It covers the following:

- The closed-form mass maps between component masses, total mass, chirp mass, mass ratio
  and symmetric mass ratio, including the Cardano root forms.
- The tidal maps between (lambda_1, lambda_2) and (lambda_tilde, delta_lambda_tilde).
- `generate_component_masses` and `generate_mass_parameters`.
- `generate_component_spins` and `generate_spin_parameters`, and the aligned fast path of
  `bilby_to_lalsimulation_spins`.
- `generate_tidal_parameters` and `generate_source_frame_parameters`.
- The two `convert_to_lal_binary_*_parameters` conversions.
- `fill_from_fixed_priors`, `_generate_all_cbc_parameters`, its binary black hole and
  binary neutron star drivers, and `generate_specific_parameters`.
- The cached block loops of `generate_posterior_samples_from_marginalized_likelihood` and
  `compute_per_detector_log_likelihoods`.

The second part is the `InterferometerStrainData` class (`bilby/gw/detector/strain_data.py`).
It covers the following:

- Its analysed band and Nyquist clamp.
- Its cached frequency mask.
- The relation between window roll-off and alpha.
- The `_infer_dependence` checks.
- The strain setters.
- The lazy, cached conversion between time- and frequency-domain strain.

## How the model is put together

- **Samples.** A parameter sample is a `map<string, Value>`. A `Value` is a float, a boolean,
  a string or None.
- **Errors.** Python exceptions are a `Result` with the exception kind: KeyError naming the
  key, TypeError, ZeroDivisionError or ValueError with its message. Division by a Python
  float zero raises.
- **Foreign numerics.** `sqrt`, `cbrt`, fractional powers, `cos`, `arccos`, `arctan2`, pi and
  the solar mass are fields of a `Numerics` value passed in. A lemma states as `requires`
  the few facts it needs about them (for example "pow(x, 0.5) is the non-negative square
  root").
- **Other opaque parameters.** The cosmology, the equation of state, the lalsimulation spin
  transform, the per-row likelihood draw, the grids of `CoupledTimeAndFrequencySeries` and
  the FFTs and window are parameters too.
- **Code that assigns step by step.** Code that copies a dict and assigns keys in a loop is
  a `method` with loop invariants. Examples are the source-frame loops and the spin,
  azimuth and angle loops of the LAL conversion, and the fixed-prior and default loops.
- **Reconstruction.** The reconstruction loops are methods over an in-memory cache. The
  cache keeps block starts in insertion order, as the Python dict does.
- **Expressions.** Closed-form maps are functions, with round-trip lemmas.
- **Source defects.** The two defects under "## Findings" are reproduced where the source
  calls the defective code: `generate_mass_parameters` and the LAL conversions use the
  as-written members. Each corrected member sits beside its as-written twin, with the
  intended property proved about it.
- **The strain-data class.** `InterferometerStrainData` is a class whose getters and setters
  change its fields as the Python properties do. Every method is tied by its `ensures` to a
  pure function over a snapshot of the fields (`StrainData.Fields`). The promised
  properties are proved about those functions. A call that raises half-way keeps the
  assignments made before it, as in Python.

## Model

| member | source | states |
|---|---|---|
| `MassConversion.TotalMassAndMassRatioToComponentMasses` | bilby/gw/conversion.py:400-421 | defined iff q != -1; the components sum to the total and m2 = q*m1 |
| `MassConversion.ChirpMassAndMassRatioToTotalMass` | bilby/gw/conversion.py:520-540 | with true roots, q > 0 and Mc > 0: defined and positive, and the primary M/(1+q) with ratio q has chirp mass Mc |
| `MassConversion.ChirpMassAndMassRatioToComponentMasses` | bilby/gw/conversion.py:424-448 | with true roots, q > 0 and Mc > 0: defined, and the components have ratio q and chirp mass Mc |
| `MassConversion.ComponentMassesToMassRatio` | bilby/gw/conversion.py:603-620 | defined iff m1 != 0, and q*m1 = m2 |
| `MassConversion.ComponentMassesToChirpMass` | bilby/gw/conversion.py:543-560 | for positive masses the result is the chirp mass: Mc^5 (m1+m2) = (m1 m2)^3 |
| `MassConversion.ComponentMassesToSymmetricMassRatio` | bilby/gw/conversion.py:583-600 | defined iff m1+m2 != 0; eta (m1+m2)^2 = m1 m2 and eta <= 1/4 |
| `MassConversion.ComponentMassesToTotalMass` | bilby/gw/conversion.py:563-580 | for positive masses the total exceeds each component |
| `MassConversion.SymmetricMassRatioToMassRatio` | bilby/gw/conversion.py:451-467 | defined iff eta != 0; for 0 < eta <= 1/4 the result q lies in (0, 1] and solves eta (1+q)^2 = q |
| `MassConversion.ChirpMassAndTotalMassToSymmetricMassRatio` | bilby/gw/conversion.py:470-487 | defined iff the total mass is non-zero |
| `MassConversion.ChirpMassAndPrimaryMassToMassRatio` | bilby/gw/conversion.py:490-517 | a zero primary mass raises ZeroDivisionError |
| `MassConversion.Mass1AndChirpMassToMassRatio` | bilby/gw/conversion.py:623-646 | a zero mass_1 raises ZeroDivisionError |
| `MassConversion.Mass2AndChirpMassToMassRatio` | bilby/gw/conversion.py:649-670 | a zero mass_2 raises ZeroDivisionError |
| `MassConversion.ComponentMassesRoundTrip` | bilby/gw/conversion.py:400-421 | (total mass, mass ratio) of (m1, m2) maps back to (m1, m2) |
| `MassConversion.TotalMassAndMassRatioRoundTrip` | bilby/gw/conversion.py:563-620 | the components of (q, M) give back total M and ratio q |
| `MassConversion.SymmetricMassRatioRoundTrip` | bilby/gw/conversion.py:451-467 | for m1 >= m2 > 0, eta of the masses maps back to m2/m1 |
| `MassConversion.SymmetricMassRatioRootUnique` | bilby/gw/conversion.py:451-467 | eta (1+q)^2 = q has one root in (0, 1] |
| `MassConversion.ChirpMassAndTotalMassToSymmetricMassRatioConsistent` | bilby/gw/conversion.py:470-487 | the chirp-and-total formula agrees with the component formula for eta |
| `MassConversion.ChirpMassAndMassRatioToTotalMassConsistent` | bilby/gw/conversion.py:520-540 | from the chirp mass of (m1, m2) and q = m2/m1 the total is m1+m2 |
| `MassConversion.ChirpMassAndMassRatioRoundTrip` | bilby/gw/conversion.py:424-448 | components to chirp mass and back give the same components |
| `MassConversion.ChirpMassUnique` | bilby/gw/conversion.py:543-560 | the chirp mass of two positive masses is unique |
| `MassConversion.ChirpMassAndPrimaryMassToMassRatioSolves` | bilby/gw/conversion.py:490-517 | with true roots, m1 > 0, Mc > 0 and (Mc/m1)^5 <= 27/4, the Cardano (cbrt) form is defined and returns q with chirp mass Mc for (m1, q*m1) |
| `MassConversion.Mass1AndChirpMassToMassRatioSolves` | bilby/gw/conversion.py:623-646 | with true roots, m1 > 0, Mc > 0 and (Mc/m1)^5 <= 27/4, the pow form is defined and returns q with chirp mass Mc for (m1, q*m1) |
| `MassConversion.Mass2AndChirpMassToMassRatioSolves` | bilby/gw/conversion.py:649-670 | with true roots, m2 > 0, Mc > 0 and (Mc/m2)^5 <= 27/4, that is q >= 1/3: defined, q > 0, and Mc is the chirp mass of (m2/q, m2) |
| `MassConversion.ChirpRatioPremise` | bilby/gw/conversion.py:623-646 | for masses with chirp mass Mc and ratio q, (Mc/m1)^5 <= 27/4 holds iff q <= 3 |
| `MassConversion.Mass2RatioPremise` | bilby/gw/conversion.py:649-670 | for the mass_2 form, (Mc/m2)^5 <= 27/4 holds iff q >= 1/3 |
| `MassConversion.ChirpMassSymmetric` | bilby/gw/conversion.py:543-560 | the chirp mass relation is symmetric in the two masses |
| `TidalConversion.Coefficients` | bilby/gw/conversion.py:673-702 | with a true square root, at eta = 1/4 (equal masses) the coefficients c2 and c3 of the antisymmetric terms vanish |
| `TidalConversion.EqualMassLambdaTildeIsMean` | bilby/gw/conversion.py:673-702 | for two equal non-zero masses lambda_tilde is (lambda_1 + lambda_2)/2 |
| `TidalConversion.LambdaOneLambdaTwoToLambdaTilde` | bilby/gw/conversion.py:673-702 | defined iff m1+m2 != 0; lambda_tilde from the eta coefficients |
| `TidalConversion.LambdaOneLambdaTwoToDeltaLambdaTilde` | bilby/gw/conversion.py:705-735 | defined iff m1+m2 != 0; delta_lambda_tilde from the eta coefficients |
| `TidalConversion.LambdaTildeDeltaLambdaTildeToLambdaOneLambdaTwo` | bilby/gw/conversion.py:738-780 | a zero total mass raises ZeroDivisionError, and ZeroDivisionError is the only error; a zero determinant is reported as that error, where numpy returns inf/nan |
| `TidalConversion.CramerSolve` | bilby/gw/conversion.py:766-780 | an error iff the determinant is zero (numpy returns inf/nan there) |
| `TidalConversion.CramerSolveInvertsForward` | bilby/gw/conversion.py:738-780 | solving the forward images gives back (lambda_1, lambda_2) |
| `TidalConversion.ForwardInvertsCramerSolve` | bilby/gw/conversion.py:673-780 | the forward maps of the solution give back (lambda_tilde, delta_lambda_tilde) |
| `TidalConversion.TidalRoundTrip` | bilby/gw/conversion.py:673-780 | for a non-zero total mass, forward then inverse is the identity whenever the determinant is non-zero |
| `TidalConversion.TwoTermInverseRoundTrip` | bilby/gw/conversion.py:738-780 | inverse then forward is the identity |
| `TidalConversion.LambdaTildeToLambdaOneLambdaTwo` | bilby/gw/conversion.py:783-813 | a zero mass or total mass raises ZeroDivisionError (Python-float divisions) |
| `TidalConversion.EqualRatioInverseScaling` | bilby/gw/conversion.py:783-813 | the result has lambda_1 m1^5 = lambda_2 m2^5 |
| `TidalConversion.EqualRatioInverseRoundTrip` | bilby/gw/conversion.py:783-813 | the pair it returns maps forward to the lambda_tilde given |
| `MassCompletion.Keys` | bilby/gw/conversion.py:1044-1053 | the detector- or source-frame key names, all distinct |
| `MassCompletion.Quietly` | bilby/gw/conversion.py:1037-1041 | raises iff require_add; otherwise returns the input sample |
| `MassCompletion.Mass2FromRatio` | bilby/gw/conversion.py:1080-1082 | adds only mass_2 = mass_ratio * mass_1 |
| `MassCompletion.Mass1FromRatio` | bilby/gw/conversion.py:1109-1111 | adds only mass_1 with mass_ratio * mass_1 = mass_2; a missing mass_ratio raises KeyError |
| `MassCompletion.ComponentsFromTotal` | bilby/gw/conversion.py:1155-1164 | adds both components: they sum to the total and have the ratio |
| `MassCompletion.ComponentsFromChirp` | bilby/gw/conversion.py:1137-1164 | adds total and components, consistent with each other and the ratio; with true roots the components have the given chirp mass |
| `MassCompletion.FromMass1` | bilby/gw/conversion.py:1055-1084 | mass_1 branch: adds only mass keys; components sum to the total; ratio holds when it was derived |
| `MassCompletion.Mass2Ratio` | bilby/gw/conversion.py:1093-1111 | mass_2 branch with a ratio source: both components, with the ratio |
| `MassCompletion.FromMass2` | bilby/gw/conversion.py:1086-1113 | mass_2 branch, corrected: as FromMass1 |
| `MassCompletion.FromMass2AsWritten` | bilby/gw/conversion.py:1086-1113 | mass_2 branch as written: on success mass_1 is added |
| `MassCompletion.FromTotalOrChirp` | bilby/gw/conversion.py:1115-1166 | neither component given: both are added, summing to the total and with the ratio; when derived from the chirp mass with true roots, they have that chirp mass |
| `MassCompletion.GenerateComponentMasses` | bilby/gw/conversion.py:1007-1166 | corrected form: with both components given the sample is returned unchanged; adds only mass keys; without spanning parameters it returns quietly or raises as require_add says; otherwise both components appear, consistent with total and ratio, and with the chirp mass when derived from it |
| `MassCompletion.GenerateComponentMassesAsWritten` | bilby/gw/conversion.py:1007-1166 | as written: mass_2 without a ratio source raises KeyError (mass_ratio, or the insufficient-masses message under require_add); everywhere else, and whenever it succeeds, it equals the corrected form |
| `MassCompletion.Mass2AloneRaises` | bilby/gw/conversion.py:1106-1111 | {mass_2: 10} raises KeyError('mass_ratio') as written, and is returned unchanged when corrected |
| `MassCompletion.AsWrittenAgreesElsewhere` | bilby/gw/conversion.py:1007-1166 | the written and corrected forms agree on every other input |
| `MassCompletion.DerivedMass` | bilby/gw/conversion.py:1209-1228 | a derived mass needs both components; the total is their sum and the ratio m2/m1 |
| `MassCompletion.AddIfAbsent` | bilby/gw/conversion.py:1209-1228 | a present key is kept; an absent one is added from the components and keeps the sum and ratio relations |
| `MassCompletion.AddDerivedMasses` | bilby/gw/conversion.py:1209-1228 | adds exactly the four derived keys, never overwriting, with the sum and ratio relations |
| `MassCompletion.GenerateMassParameters` | bilby/gw/conversion.py:1169-1230 | calls the completion as written, so mass_2 without a ratio source raises KeyError('mass_ratio'); otherwise extends the sample by exactly the six mass keys; the total is the sum of the components and the ratio m2/m1 where derived |
| `SpinConversion.BilbyToLalsimulationSpins` | bilby/gw/conversion.py:130-150 | aligned spins take the fast path (no in-plane part, iota = theta_jn); otherwise the transform's result |
| `SpinConversion.AlignedComponent` | bilby/gw/conversion.py:133-136 | an aligned spin keeps its magnitude; tilt 0 gives z = a |
| `SpinConversion.FastPathKeepsMagnitudes` | bilby/gw/conversion.py:130-137 | on the fast path each spin's z-component has the spin's magnitude |
| `SpinConversion.Fmod` | bilby/gw/conversion.py:1317-1322 | C fmod: the result has the sign of x, is below y in magnitude, and x - r is a whole multiple of y |
| `SpinConversion.SpinAzimuth` | bilby/gw/conversion.py:1317-1322 | phi lies in [0, 2 pi) and is arctan2(y, x), shifted by 2 pi when negative |
| `SpinConversion.ReadSpinArguments` | bilby/gw/conversion.py:1299-1315 | succeeds when every spin-conversion key holds a float, and reads the magnitudes and tilts |
| `SpinConversion.WithSpinFrame` | bilby/gw/conversion.py:1303-1322 | writes the seven frame keys and both azimuths, keeping the other keys |
| `SpinConversion.GenerateComponentSpins` | bilby/gw/conversion.py:1281-1334 | full key set: the transform; else chi_1/chi_2: aligned spins; else the sample unchanged |
| `SpinConversion.AlignedTransformGivesMagnitudes` | bilby/gw/conversion.py:1302-1315 | aligned inputs give spin_1z = a_1 and spin_2z = a_2 |
| `SpinConversion.EffectiveSpin` | bilby/gw/conversion.py:1254-1257 | defined iff q != -1: chi_eff (1+q) = s1z + q s2z |
| `SpinConversion.EffectiveSpinBounded` | bilby/gw/conversion.py:1254-1257 | for q > 0, chi_eff lies between spin_1z and spin_2z |
| `SpinConversion.PrecessionWeight` | bilby/gw/conversion.py:1268-1269 | for 0 < q <= 1 the weight lies in (0, 1] |
| `SpinConversion.PrecessingSpin` | bilby/gw/conversion.py:1266-1270 | chi_p = max(chi_1_in_plane, weight * chi_2_in_plane): at least both, and equal to one of them |
| `SpinConversion.PrecessingSpinBounded` | bilby/gw/conversion.py:1266-1270 | chi_p lies between chi_1_in_plane and the larger in-plane spin |
| `SpinConversion.InPlane` | bilby/gw/conversion.py:1259-1264 | the non-negative in-plane magnitude |
| `SpinConversion.WithCosTilts` | bilby/gw/conversion.py:1272-1276 | cos_tilt_1 = cos(tilt_1) when tilt_1 is present, and cos_tilt_2 = cos(tilt_2) when both are; fails iff a present tilt is not a float; a missing tilt_1 leaves the sample; other keys kept |
| `SpinConversion.WithEffectiveSpins` | bilby/gw/conversion.py:1254-1270 | adds exactly chi_eff, both in-plane spins and chi_p; chi_eff is mass-weighted, each in-plane spin is the magnitude of its (x, y) components, chi_p = max(chi_1_in_plane, weight * chi_2_in_plane) |
| `SpinConversion.GenerateSpinParameters` | bilby/gw/conversion.py:1233-1278 | adds the spin summary keys with the same relations as WithEffectiveSpins, and cos_tilt_1 = cos(tilt_1) when tilt_1 is given; other keys kept |
| `SpinConversion.SpinSummaryBounded` | bilby/gw/conversion.py:1259-1270 | for 0 < q <= 1 with true square roots: chi_i_in_plane^2 = spin_ix^2 + spin_iy^2, chi_1_in_plane <= chi_p <= the larger in-plane spin, and chi_p <= 1 for sub-extremal in-plane spins |
| `LalConversion.WithLuminosityDistance` | bilby/gw/conversion.py:195-202 | a given luminosity distance is kept; otherwise it is computed from redshift or comoving distance |
| `LalConversion.Strip` | bilby/gw/conversion.py:205-210 | the key with its `_source` suffix removed |
| `LalConversion.WithRedshift` | bilby/gw/conversion.py:206-209 | a present redshift is kept; otherwise it needs a luminosity distance in the input |
| `LalConversion.ScaleSourceKey` | bilby/gw/conversion.py:210-211 | writes the detector-frame key as the source value times (1 + z) |
| `LalConversion.SourceFrameToDetectorFrame` | bilby/gw/conversion.py:204-211 | writes only targets and redshift; every `*_source` key's target holds its scaled value |
| `LalConversion.Sign` | bilby/gw/conversion.py:229-232 | np.sign: sign times absolute value is x, in {-1, 0, 1} |
| `LalConversion.SphericalSpin` | bilby/gw/conversion.py:216-245 | the three chi branches: magnitude from chi and in-plane, abs/sign, or cos tilt = chi/a with 1.0 on a zero magnitude |
| `LalConversion.MagnitudeFromInPlane` | bilby/gw/conversion.py:219-227 | a_i = (chi_i^2 + chi_i_in_plane^2)^0.5, non-negative with a_i^2 equal to the sum of squares when pow is exact; a_i cos_tilt_i = chi_i; a zero magnitude is a ZeroDivisionError; only a_i and cos_tilt_i are written |
| `LalConversion.SphericalSpins` | bilby/gw/conversion.py:216-245 | both spins converted; only a and cos_tilt keys written |
| `LalConversion.DefaultAzimuths` | bilby/gw/conversion.py:247-249 | phi_jl and phi_12 default to 0.0 when absent, existing values kept |
| `LalConversion.AnglesFromCosineKeys` | bilby/gw/conversion.py:251-254 | each present cosine gives its angle; a non-float cosine raises |
| `LalConversion.FlooredMod` | bilby/gw/conversion.py:258-263 | np.mod: in [0, y) and differs from x by a whole multiple of y |
| `LalConversion.PhaseFromDeltaPhase` | bilby/gw/conversion.py:256-263 | phase in [0, 2 pi), added iff delta_phase, theta_jn and psi are floats |
| `LalConversion.DetectorFrameMasses` | bilby/gw/conversion.py:193-214 | first half of the conversion, as written: writes only distance, detector-frame and mass keys; components sum to the total when derived and have the ratio when it was not given; a source-frame key with neither redshift nor a luminosity distance raises |
| `LalConversion.DetectorFrameMassesCorrected` | bilby/gw/conversion.py:193-214 | the same with the distance read from the converted sample and the corrected completion: a source-frame key without redshift succeeds only when a luminosity or comoving distance was given |
| `LalConversion.ComovingDistanceOnlyRaises` | bilby/gw/conversion.py:195-211 | as written, a comoving-distance-only sample raises KeyError('luminosity_distance') |
| `LalConversion.RedshiftAvailable` | bilby/gw/conversion.py:195-211 | read from the converted sample, the redshift is available whenever a distance was given |
| `LalConversion.SpinsAndAngles` | bilby/gw/conversion.py:216-263 | spins consistent, azimuths absent before default to 0.0, angles from cosines, phase in range |
| `LalConversion.ConvertToLalBinaryBlackHoleParameters` | bilby/gw/conversion.py:166-268 | keeps the input keys, and their values outside the written keys; added_keys is exactly the new keys; components sum to the total when derived and have the ratio when not given; absent azimuths are 0.0; angles from cosines; phase in range; as written, a source-frame key with neither redshift nor luminosity distance raises |
| `LalConversion.LambdasFromTilde` | bilby/gw/conversion.py:309-319 | delta_lambda_tilde: the two-term inverse; lambda_tilde alone: the equal-ratio inverse |
| `LalConversion.ScaledSecondLambda` | bilby/gw/conversion.py:320-329 | lambda_2 = lambda_1 m1^5 / m2^5; a zero mass_2 raises |
| `LalConversion.EosLambdas` | bilby/gw/conversion.py:330-354 | the equation of state's lambdas, or zeros with eos_check False |
| `LalConversion.SecondLambda` | bilby/gw/conversion.py:320-354 | the lambda_2 branches: scaled from lambda_1, from the EOS, or left |
| `LalConversion.TidalStage` | bilby/gw/conversion.py:302-354 | no tidal key: both lambdas 0; otherwise the lambdas match the tilde parameters |
| `LalConversion.ConvertToLalBinaryNeutronStarParameters` | bilby/gw/conversion.py:271-359 | black-hole conversion then the tidal stage: added_keys exactly the new keys; no tidal key gives both lambdas 0; the lambdas match the tilde parameters given; the black-hole mass relations and default azimuths are kept; as written, a source-frame key with neither redshift nor luminosity distance raises |
| `LalConversion.WithTidalStage` | bilby/gw/conversion.py:299-359 | writes only lambda_1, lambda_2 and eos_check, keeping every other key, and the lambdas match the tilde parameters given |
| `LalConversion.TidalKeysNotWritten` | bilby/gw/conversion.py:299-306 | the black-hole stage writes no tidal key except a source-frame target |
| `ParameterGeneration.FillFromFixedPriors` | bilby/gw/conversion.py:985-1004 | None leaves the sample; otherwise every delta prior's name holds its peak, other keys kept |
| `ParameterGeneration.SetWaveformDefaults` | bilby/gw/conversion.py:819-828 | every default key holds its default; other keys kept |
| `ParameterGeneration.AfterFamily` | bilby/gw/conversion.py:876-884 | a KeyError from a family is swallowed and leaves the previous sample; nothing else is |
| `ParameterGeneration.SourceName` | bilby/gw/conversion.py:1388 | the `_source` key whose stripped name is the key |
| `ParameterGeneration.ScaleToSourceFrame` | bilby/gw/conversion.py:1386-1389 | an absent key is skipped; a present one gives key_source with source (1 + z) = value |
| `ParameterGeneration.GenerateSourceFrameParameters` | bilby/gw/conversion.py:1367-1391 | missing luminosity_distance raises KeyError; adds exactly redshift, comoving distance and the source keys |
| `ParameterGeneration.SourceFrameRoundTrip` | bilby/gw/conversion.py:1386-1389 | the detector-frame scaling of a generated source key gives back the detector-frame value |
| `ParameterGeneration.GenerateTidalParameters` | bilby/gw/conversion.py:1337-1364 | missing lambda_1 raises KeyError; on success exactly lambda_tilde and delta_lambda_tilde added |
| `ParameterGeneration.GeneratedTidalInverts` | bilby/gw/conversion.py:1337-1364 | when the determinant is non-zero, the generated tilde pair inverts to the sample's (lambda_1, lambda_2) |
| `ParameterGeneration.GenerateFamilies` | bilby/gw/conversion.py:876-884 | no KeyError escapes; keys only grow; a successful mass family leaves all mass keys |
| `ParameterGeneration.ApplyBaseConversion` | bilby/gw/conversion.py:831 | the base conversion keeps every key of its input |
| `ParameterGeneration.DefaultsNamed` | bilby/gw/conversion.py:904-906 | both default tables name exactly the three waveform defaults, once each |
| `ParameterGeneration.GenerateAllCbcParameters` | bilby/gw/conversion.py:816-885 | the output has every input key, every waveform default and every fixed prior |
| `ParameterGeneration.GenerateAllBinaryBlackHoleParameters` | bilby/gw/conversion.py:888-911 | input keys plus the waveform defaults |
| `ParameterGeneration.GenerateAllBinaryNeutronStarParameters` | bilby/gw/conversion.py:914-948 | input keys plus the waveform defaults; a tidal KeyError is swallowed |
| `ParameterGeneration.SelectParameters` | bilby/gw/conversion.py:975-982 | succeeds iff every key is present; exactly those keys with the converted values; otherwise names the first missing key |
| `ParameterGeneration.GenerateSpecificParameters` | bilby/gw/conversion.py:951-982 | on success the keys are exactly the requested ones |
| `Reconstruction.FillRows` | bilby/gw/conversion.py:1683-1685 | one tuple per row, each the draw for its own row |
| `Reconstruction.FreshCache` | bilby/gw/conversion.py:1650-1654 | an empty cache for the table |
| `Reconstruction.InitialCache` | bilby/gw/conversion.py:1637-1654 | a stored cache is reused iff it was made for the same table |
| `Reconstruction.NewStartsFresh` | bilby/gw/conversion.py:1676-1693 | the starts the loop fills are increasing, uncached and inside the table |
| `Reconstruction.FillBlocks` | bilby/gw/conversion.py:1674-1693 | appends exactly the uncached block starts; cached blocks unchanged; each new block holds its rows' draws |
| `Reconstruction.SteppedIncreasing` | bilby/gw/conversion.py:1676-1692 | starts laid out one block apart increase |
| `Reconstruction.ConcatenateComplete` | bilby/gw/conversion.py:1700-1702 | the blocks of a complete cache concatenate to the rows in order |
| `Reconstruction.ResumedFillIsRowwise` | bilby/gw/conversion.py:1676-1702 | resuming from a cached prefix, the concatenation is every row's draw in order |
| `Reconstruction.ResumedStartsCover` | bilby/gw/conversion.py:1676-1693 | the resumed starts cover the table one block apart |
| `Reconstruction.WriteColumns` | bilby/gw/conversion.py:1704-1705 | succeeds iff one tuple per row of the right width; each key holds its column, the last column for a repeated key, and other keys are kept |
| `Reconstruction.StackColumns` | bilby/gw/conversion.py:1700-1705 | no blocks raises ValueError; otherwise writes the concatenated columns, the last one for a repeated key |
| `Reconstruction.FillColumns` | bilby/gw/conversion.py:1673-1705 | from a fresh or consistent cache, each row gets its own draw under the keys, the last value for a repeated key |
| `Reconstruction.GeneratePosteriorSamplesFromMarginalizedLikelihood` | bilby/gw/conversion.py:1583-1707 | no marginalized parameter returns the samples; otherwise each row gets its own reconstructed values |
| `Reconstruction.LogLikelihoodKey` | bilby/gw/conversion.py:1562 | the detector name followed by `_log_likelihood` |
| `Reconstruction.LogLikelihoodKeys` | bilby/gw/conversion.py:1561-1562 | one key per detector, in order |
| `Reconstruction.LogLikelihoodKeysDistinct` | bilby/gw/conversion.py:1561-1563 | distinct detectors give distinct column names |
| `Reconstruction.ComputePerDetectorLogLikelihoods` | bilby/gw/conversion.py:1472-1565 | each row gets its own per-detector log likelihoods; with distinct detector names each column holds its detector's value |
| `StrainData.Initial` | bilby/gw/detector/strain_data.py:44-56 | a new object has no grid, no strain and no mask |
| `StrainData.TimeWithinData` | bilby/gw/detector/strain_data.py:87-94 | with a duration, true iff start <= t <= start + duration; without one only earlier times answer |
| `StrainData.Clamped` | bilby/gw/detector/strain_data.py:106-110 | with a sampling frequency the maximum is at most Nyquist, left alone below it and Nyquist above |
| `StrainData.ClampedIdempotent` | bilby/gw/detector/strain_data.py:106-110 | a second read of the maximum returns the same value |
| `StrainData.MaskOf` | bilby/gw/detector/strain_data.py:127-128 | mask[i] iff minimum <= f[i] <= maximum |
| `StrainData.WithMask` | bilby/gw/detector/strain_data.py:116-131 | a cached mask is kept; otherwise the maximum is clamped and the band mask cached |
| `StrainData.WithMaskIdempotent` | bilby/gw/detector/strain_data.py:116-131 | a second read changes nothing |
| `StrainData.BroadcastLength` | bilby/gw/detector/strain_data.py:187 | numpy's broadcast of two 1-d lengths: equal lengths, or a length-1 operand stretched to the other's length; any other pair fails |
| `StrainData.Masked` | bilby/gw/detector/strain_data.py:187 | strain inside the band, zero outside, with numpy broadcasting: a length-1 strain or mask is stretched; other unequal lengths raise ValueError |
| `StrainData.SingleMaskBroadcasts` | bilby/gw/detector/strain_data.py:187 | a single-entry mask keeps the whole strain or zeroes all of it |
| `StrainData.Windowed` | bilby/gw/detector/strain_data.py:195-196 | the element-wise product, with a length-1 operand broadcast; other unequal lengths raise ValueError |
| `StrainData.Alpha` | bilby/gw/detector/strain_data.py:133-135 | alpha * duration = 2 roll_off; no duration raises TypeError, zero raises ZeroDivisionError |
| `StrainData.RollOffFor` | bilby/gw/detector/strain_data.py:159-160 | the roll-off whose alpha is the one given |
| `StrainData.Window` | bilby/gw/detector/strain_data.py:137-163 | roll_off given: stored; alpha given: alpha reads back; window of the strain's length; its power is the window factor |
| `StrainData.Transformed` | bilby/gw/detector/strain_data.py:195-196 | nfft replaces the frequency strain and array, nothing else |
| `StrainData.FrequencyDomainRead` | bilby/gw/detector/strain_data.py:178-199 | neither strain raises ValueError; otherwise the stored or transformed strain, cached, times the (possibly stale) mask with numpy broadcasting |
| `StrainData.SingleMaskRead` | bilby/gw/detector/strain_data.py:186-187 | a stored strain read through a cached single-entry mask returns the whole strain or its zeros, whatever its length |
| `StrainData.TransformAlwaysRuns` | bilby/gw/detector/strain_data.py:188-198 | with scipy's M-point Tukey window and a defined alpha, the read always stores the nfft result: the window product cannot fail |
| `StrainData.FrequencyReadCached` | bilby/gw/detector/strain_data.py:186-199 | a second read returns the same and changes nothing |
| `StrainData.TimeDomainRead` | bilby/gw/detector/strain_data.py:165-176 | neither strain raises ValueError; stored strain returned; otherwise infft of the masked (broadcast) frequency read, cached |
| `StrainData.TimeReadCached` | bilby/gw/detector/strain_data.py:170-176 | a second read returns the same and changes nothing |
| `StrainData.Parameterised` | bilby/gw/detector/strain_data.py:643-646 | new sampling frequency, duration, start and both grids; nothing else |
| `StrainData.Inferred` | bilby/gw/detector/strain_data.py:389-410 | all three raise; array only: stored; a missing parameter raises; otherwise grid set; strain untouched |
| `StrainData.SetTimeDomain` | bilby/gw/detector/strain_data.py:412-446 | stores the strain and clears the frequency strain iff its length matches the time array |
| `StrainData.SetFrequencyDomain` | bilby/gw/detector/strain_data.py:519-550 | stores the strain and resets window_factor to 1 iff its length matches |
| `StrainData.Zeros` | bilby/gw/detector/strain_data.py:605-606 | n complex zeros |
| `StrainData.ZeroNoise` | bilby/gw/detector/strain_data.py:586-606 | new grid and an all-zero frequency strain of its length |
| `StrainData.AssignFrequencyDomainStrain` | bilby/gw/detector/strain_data.py:201-205 | accepted iff its length equals the frequency array's |
| `StrainData.SetTimeThenRead` | bilby/gw/detector/strain_data.py:442-446 | after a successful set, the time-domain getter returns that strain |
| `StrainData.SetFrequencyThenRead` | bilby/gw/detector/strain_data.py:546-550 | after a successful set, the frequency getter returns it zeroed outside the band |
| `StrainData.ZeroNoiseReadsZero` | bilby/gw/detector/strain_data.py:586-606 | zero noise reads back as zeros |
| `StrainData.ZeroNoiseStaleMaskReadsZero` | bilby/gw/detector/strain_data.py:586-606 | zero noise read through a stale single-entry mask still returns zeros of the new length |
| `StrainData.InterferometerStrainData.constructor` | bilby/gw/detector/strain_data.py:25-56 | the initial state |
| `StrainData.InterferometerStrainData.MaximumFrequency` | bilby/gw/detector/strain_data.py:104-110 | returns and stores the clamped maximum, at most Nyquist; a second read returns it |
| `StrainData.InterferometerStrainData.FrequencyMask` | bilby/gw/detector/strain_data.py:116-131 | the state WithMask describes; the mask is cached |
| `StrainData.InterferometerStrainData.TimeDomainWindow` | bilby/gw/detector/strain_data.py:137-163 | state and result as Window |
| `StrainData.InterferometerStrainData.FrequencyDomainStrain` | bilby/gw/detector/strain_data.py:178-199 | state and result as FrequencyDomainRead, including the broadcast of a stale length-1 mask |
| `StrainData.InterferometerStrainData.TimeDomainStrain` | bilby/gw/detector/strain_data.py:165-176 | state and result as TimeDomainRead, including the broadcast of a stale length-1 mask |
| `StrainData.InterferometerStrainData.SetTimeAndFrequencyArrayParameters` | bilby/gw/detector/strain_data.py:643-646 | state as Parameterised |
| `StrainData.InterferometerStrainData.InferDependence` | bilby/gw/detector/strain_data.py:389-410 | state and error as Inferred |
| `StrainData.InterferometerStrainData.SetFromTimeDomainStrain` | bilby/gw/detector/strain_data.py:412-446 | state and result as SetTimeDomain |
| `StrainData.InterferometerStrainData.SetFromFrequencyDomainStrain` | bilby/gw/detector/strain_data.py:519-550 | state and result as SetFrequencyDomain |
| `StrainData.InterferometerStrainData.SetFromZeroNoise` | bilby/gw/detector/strain_data.py:586-606 | state as ZeroNoise |
| `StrainData.InterferometerStrainData.SetFrequencyDomainStrain` | bilby/gw/detector/strain_data.py:201-205 | state and result as AssignFrequencyDomainStrain |

## Left out

- Cosmology (astropy) is an opaque parameter. This covers the distance and redshift maps
  (bilby/gw/conversion.py:22-87) and the redshift values of :195-211 and :1381-1384. Only
  the way the results are used is modelled.
- The equation-of-state solver (SpectralDecompositionEOS, EOSFamily,
  `eos_family_physical_check`, :330-354 and :362-397) is an opaque parameter. The parameter
  answers with the lambdas or with "unphysical".
- The lalsimulation spin transform (:138-163) is an opaque parameter. Only the aligned fast
  path is computed.
- Floating-point behaviour is not modelled. Arithmetic is on exact reals. sqrt, cbrt,
  fractional powers, cos, arccos and arctan2 are opaque, and lemmas assume only the root
  facts they state. A Python-float division by zero raises. A division by zero of a numpy
  float gives inf or nan instead; the model reports it as ZeroDivisionError. This covers the
  determinant in :770-779 and the denominator in :809-811, which divide by expressions built
  from the numpy value eta.
- pandas DataFrames and np.vectorize broadcasting are not modelled. Samples are single
  dicts. The reconstruction table is a sequence of rows, and its column writes produce a
  new table rather than changing the DataFrame in place.
- `added_keys` is compared as a set. The order Python lists the new keys in is not
  modelled; the order of the original keys is a parameter.
- The likelihood is not modelled. This covers the waveform, SNR and sky-frame evaluation
  (:1394-1469, :1710-1727), the per-detector evaluation, and the marginalized-parameter draw
  (:1571-1580, :1730-1738). Each row's draw is a function of that row, so its randomness is
  not modelled.
- Multiprocessing pools, tqdm, the pickle cache file, `safe_file_dump` and
  `command_line_args.clean` (:1624-1635, :1657-1698) are not modelled. The stored cache is
  an optional parameter, and persistence is a no-op.
- The likelihood-dependent parts of `_generate_all_cbc_parameters` (:822-824, :832-875) are
  left out. The waveform defaults always come from the defaults table.
- Reconstruction.FillBlocks: block > 0 is required. With block <= 0 the Python loop never
  ends.
- Reconstruction.GeneratePosteriorSamplesFromMarginalizedLikelihood: the promise about
  each row's values is weaker than the source's. It covers a stored cache only when that
  cache was laid out by the same loop with the same block size. A cache written with
  another block size is reused as is (:1638), and what it concatenates to is not stated.
- Reconstruction.WriteColumns: a row must hold exactly one value per key. numpy's
  `new_samples[:, ii]` (:1562-1563, :1704-1705) also accepts wider rectangular rows. Those
  can only come from a stored cache written with more parameters; fill_sample never makes
  them.
- Reconstruction.StackColumns: numpy's IndexError for tuples that are too narrow is
  modelled as a failed write. Its ValueError message for an empty list is kept.
- ParameterGeneration.GenerateAllCbcParameters: the contract is weaker than the source's
  promise. It states only that the input keys, defaults and fixed priors are present. The
  values each family writes are stated by that family's own member.
- ParameterGeneration.GenerateAllBinaryBlackHoleParameters: the contract states only the
  keys, for the same reason.
- ParameterGeneration.GenerateAllBinaryNeutronStarParameters: the contract states only
  the keys, for the same reason.
- ParameterGeneration.GenerateSpecificParameters: the contract states the key set. The
  values are stated by `ParameterGeneration.SelectParameters`.
- ParameterGeneration.ApplyBaseConversion: the contract states only that the input keys
  are kept. The conversions' own members state the rest.
- MassConversion.ChirpMassAndPrimaryMassToMassRatio: its own contract states only the
  zero-mass error. The ratio it returns is stated by ChirpMassAndPrimaryMassToMassRatioSolves,
  under (Mc/m1)^5 <= 27/4.
- MassConversion.Mass1AndChirpMassToMassRatio: its own contract states only the zero-mass
  error. The ratio is stated by Mass1AndChirpMassToMassRatioSolves, under (Mc/m1)^5 <= 27/4.
- MassConversion.Mass2AndChirpMassToMassRatio: its own contract states only the zero-mass
  error. The ratio is stated by Mass2AndChirpMassToMassRatioSolves, under (Mc/m2)^5 <= 27/4.
- Beyond (Mc/m)^5 = 27/4 the radicand 27 t^2 - 4 t^3 of the three ratio formulas is
  negative. By MassConversion.ChirpRatioPremise this is q > 3 for the mass_1 forms, and by
  MassConversion.Mass2RatioPremise q < 1/3 for the mass_2 form, which the mass_2 and
  chirp_mass branch of `generate_component_masses` (:1099-1104) reaches. The `** 0.5` forms
  then give a complex number, and the np.sqrt form gives nan. The model's opaque roots give an unconstrained real
  there, and no corrected solver for that range is given.
- MassConversion.ChirpMassAndTotalMassToSymmetricMassRatio: the function's own contract
  states only when it is defined. Its value is stated by
  `ChirpMassAndTotalMassToSymmetricMassRatioConsistent`.
- TidalConversion.LambdaTildeDeltaLambdaTildeToLambdaOneLambdaTwo: its own contract states
  only the error cases. That it inverts the forward maps is stated by
  TidalConversion.TidalRoundTrip and TidalConversion.TwoTermInverseRoundTrip.
- The mass conversions are exact only under the root facts their lemmas require. Those
  facts are: pow(x, 0.5) is the non-negative square root, cbrt is the real cube root, and
  pow(x, 0.6) and pow(x, 1.2) are the fifth roots of the cube and of the sixth power.
- LalConversion.DetectorFrameMasses: the contract does not restate the detector-frame
  values written from `*_source` keys. LalConversion.SourceFrameToDetectorFrame states them.
- LalConversion.ConvertToLalBinaryBlackHoleParameters: for the same reason, the
  detector-frame values and the spin values are stated by the stage members
  (SourceFrameToDetectorFrame, SphericalSpins), not by the conversion's own contract.
- LalConversion.ConvertToLalBinaryNeutronStarParameters: the same as the black-hole
  conversion; its angle and phase facts are not restated.
- `CoupledTimeAndFrequencySeries` (bilby/core/series.py) is not part of this model.
  - Its sampling frequency, duration, start time and arrays are plain fields.
  - The grids built from the parameters are opaque functions.
  - A new object starts at start time 0 with empty arrays.
  - Assigning `time_array` or `frequency_array` stores that array and nothing else.
- FFTs (`utils.nfft`/`infft`), the Tukey window and the window-factor mean (:161-162) are
  opaque parameters. scipy's tukey(M) always has M points; this is the predicate
  `TukeyKeepsLength`, assumed only by `TransformAlwaysRuns`. The getter's error branch for a
  window product that does not broadcast is therefore never taken in the source.
- The following parts of `strain_data.py` are I/O or foreign-library code and are not
  modelled: low-pass filtering, PSD creation and file writing, gwpy/pycbc/lal import and
  export, open-data, frame-file and csv reading, and `set_from_power_spectral_density`.
- StrainData.InterferometerStrainData.FrequencyMask: the mask is cached and never
  recomputed. Later changes of the band or of the frequency array do not refresh it. This
  is what the source does, and the model keeps it.
- StrainData.Inferred: the source's last branch (:408-409) cannot be reached, so it is
  not modelled. When the first test fails, one of sampling_frequency and duration is
  None.

## Findings

| source | as written | input that shows it | evidently intended | confidence | as-written member | corrected member |
|---|---|---|---|---|---|---|
| bilby/gw/conversion.py:1106-1111 | When only mass_2 is present and no ratio source is available, `check_and_return_quietly(require_add, sample)` is called without `return`. Execution falls through to read `mass_ratio`. | `{mass_2: 10.0}` with require_add False raises KeyError('mass_ratio') | return the sample unchanged, as the mass_1 branch does (:1077-1078) | high, not executed | `MassCompletion.GenerateComponentMassesAsWritten`, which `MassCompletion.GenerateMassParameters` and the LAL conversions call (shown by `MassCompletion.Mass2AloneRaises`) | `MassCompletion.GenerateComponentMasses` |
| bilby/gw/conversion.py:206-209 | The redshift of a source-frame key is computed from `parameters['luminosity_distance']`, the input dict. The luminosity distance just derived from a comoving distance (:199-202) is ignored. | `{comoving_distance: 100.0, mass_1_source: 10.0}` raises KeyError('luminosity_distance') | read the luminosity distance from `converted_parameters` | medium-high, not executed | `LalConversion.DetectorFrameMasses`, which the conversions call (shown by `LalConversion.ComovingDistanceOnlyRaises`) | `LalConversion.DetectorFrameMassesCorrected` (property `LalConversion.RedshiftAvailable`) |
