/** The strain data held for one interferometer: the analysed frequency band, the
    roll-off of the Tukey window, the time and frequency grids, and the time- and
    frequency-domain strain, each computed lazily from the other.

    The object is modelled twice, as the source's getters and setters need: the class
    InterferometerStrainData changes its fields step by step as the source does, and
    each of its methods is tied to a pure function over a snapshot of those fields
    (Fields), about which the properties are proved. */
module StrainData {
  import opened Values

  /** A frequency bound that may be numpy's inf. */
  datatype Limit = Hz(value: real) | Infinite

  /** A complex strain sample. */
  datatype Complex = Complex(re: real, im: real)

  const Zero := Complex(0.0, 0.0)

  datatype Domain = TimeDomain | FrequencyDomain

  /** The grids a CoupledTimeAndFrequencySeries builds from (duration, sampling
      frequency, start time); that class is not part of this model. */
  datatype SeriesGrid = SeriesGrid(
    times: (real, real, real) -> seq<real>,
    frequencies: (real, real) -> seq<real>)

  /** The signal processing the lazy getters call: scipy's Tukey window of a length
      and an alpha, the mean of the squared window, and bilby's nfft/infft. */
  datatype SignalProcessing = SignalProcessing(
    tukey: (nat, real) -> seq<real>,
    meanSquare: seq<real> -> real,
    nfft: (seq<real>, Option<real>) -> (seq<Complex>, seq<real>),
    infft: (seq<Complex>, Option<real>) -> seq<real>)

  /** Every attribute the modelled members read or write. The five grid attributes
      stand for the CoupledTimeAndFrequencySeries the object holds. */
  datatype Fields = Fields(
    minimumFrequency: real,
    maximumFrequency: Limit,
    rollOff: real,
    windowFactor: real,
    samplingFrequency: Option<real>,
    duration: Option<real>,
    startTime: real,
    timeArray: seq<real>,
    frequencyArray: seq<real>,
    timeDomainStrain: Option<seq<real>>,
    frequencyDomainStrain: Option<seq<Complex>>,
    frequencyMask: Option<seq<bool>>)

  /** The state after a call together with what the call returned or raised: a
      Python method that raises half-way keeps the assignments made before. */
  datatype Outcome<+X> = Outcome(after: Fields, result: Result<X>)

  const TimeDomainNotSet := "time domain strain data not yet set"
  const FrequencyDomainNotSet := "frequency domain strain data not yet set"
  const BothOrNeither := "You must provide both sampling_frequency and duration"
  const OverDetermined := "You have given the sampling_frequency, duration, and an array"
  const TimesMismatch := "Data times do not match time array"
  const FrequenciesMismatch := "Data frequencies do not match frequency_array"
  const SetterMismatch := "The frequency_array and the set strain have different lengths"
  const NotBroadcast := "operands could not be broadcast together"

  /** A freshly constructed object: no grid, no strain, window factor 1. */
  function Initial(minimumFrequency: real, maximumFrequency: Limit, rollOff: real): (f: Fields)
    ensures f.timeDomainStrain.None? && f.frequencyDomainStrain.None? && f.frequencyMask.None?
    ensures f.samplingFrequency.None? && f.duration.None?
  {
    Fields(minimumFrequency, maximumFrequency, rollOff, 1.0, None, None, 0.0, [], [], None, None, None)
  }

  // ---------------------------------------------------------------------------
  // Data span, Nyquist clamp, band mask, window

  predicate InSpan(t: real, start: real, duration: real)
  {
    start <= t <= start + duration
  }

  /** time_within_data: before the start is outside; with no duration the
      comparison with the end is a TypeError. */
  function TimeWithinData(f: Fields, t: real): (r: Result<bool>)
    ensures f.duration.Some? ==> r.Ok? && (r.value <==> InSpan(t, f.startTime, f.duration.value))
    ensures f.duration.None? ==> (r.Ok? <==> t < f.startTime)
    ensures r.Ok? && r.value ==> f.startTime <= t
  {
    if t < f.startTime then Ok(false)
    else if f.duration.None? then Err(TypeError)
    else Ok(!(t > f.startTime + f.duration.value))
  }

  /** `2 * maximum_frequency > sampling_frequency`; inf exceeds every bound. */
  predicate AboveNyquist(limit: Limit, sampling: real)
  {
    limit.Infinite? || 2.0 * limit.value > sampling
  }

  /** The maximum frequency after the getter has forced it below Nyquist. */
  function Clamped(limit: Limit, sampling: Option<real>): (c: Limit)
    ensures sampling.None? ==> c == limit
    ensures sampling.Some? ==> c.Hz? && 2.0 * c.value <= sampling.value
    ensures sampling.Some? && !AboveNyquist(limit, sampling.value) ==> c == limit
    ensures sampling.Some? && AboveNyquist(limit, sampling.value) ==> 2.0 * c.value == sampling.value
  {
    if sampling.Some? && AboveNyquist(limit, sampling.value) then Hz(sampling.value / 2.0) else limit
  }

  /** Clamping twice is clamping once: a second read of maximum_frequency returns
      what the first one stored. */
  lemma ClampedIdempotent(limit: Limit, sampling: Option<real>)
    ensures Clamped(Clamped(limit, sampling), sampling) == Clamped(limit, sampling)
  {
  }

  predicate InBand(frequency: real, minimum: real, maximum: Limit)
  {
    minimum <= frequency && (maximum.Infinite? || frequency <= maximum.value)
  }

  /** `(frequency_array >= minimum) & (frequency_array <= maximum)` */
  function MaskOf(frequencies: seq<real>, minimum: real, maximum: Limit): (m: seq<bool>)
    ensures |m| == |frequencies|
    ensures forall i :: 0 <= i < |m| ==> (m[i] <==> InBand(frequencies[i], minimum, maximum))
  {
    seq(|frequencies|, i requires 0 <= i < |frequencies| => InBand(frequencies[i], minimum, maximum))
  }

  /** The state after reading frequency_mask: the cached mask is kept; otherwise the
      maximum frequency is clamped and the mask of the current band is stored. */
  function WithMask(f: Fields): (g: Fields)
    ensures g.frequencyMask.Some?
    ensures f.frequencyMask.Some? ==> g == f
    ensures f.frequencyMask.None? ==>
      g == f.(maximumFrequency := Clamped(f.maximumFrequency, f.samplingFrequency), frequencyMask := g.frequencyMask)
    ensures f.frequencyMask.None? ==> |g.frequencyMask.value| == |f.frequencyArray|
    ensures f.frequencyMask.None? ==> forall i :: 0 <= i < |f.frequencyArray| ==>
      (g.frequencyMask.value[i] <==> InBand(f.frequencyArray[i], f.minimumFrequency, g.maximumFrequency))
  {
    if f.frequencyMask.Some? then f
    else
      var maximum := Clamped(f.maximumFrequency, f.samplingFrequency);
      f.(maximumFrequency := maximum, frequencyMask := Some(MaskOf(f.frequencyArray, f.minimumFrequency, maximum)))
  }

  /** Reading the mask a second time changes nothing. */
  lemma WithMaskIdempotent(f: Fields)
    ensures WithMask(WithMask(f)) == WithMask(f)
  {
  }

  /** numpy's broadcast of two one-dimensional lengths: equal lengths agree, and an
      operand of length 1 is stretched to the other's length; any other pair does not
      broadcast. */
  function BroadcastLength(m: nat, n: nat): (r: Option<nat>)
    ensures r.Some? <==> m == n || m == 1 || n == 1
    ensures r.Some? ==> (r.value == m || m == 1) && (r.value == n || n == 1)
    ensures m == n ==> r == Some(m)
  {
    if m == n then Some(m) else if m == 1 then Some(n) else if n == 1 then Some(m) else None
  }

  /** The position of an operand of length n that lines up with position i of a
      broadcast result of the given length: the only element of a stretched operand,
      otherwise i itself. */
  function Aligned(i: int, n: nat, length: nat): (j: nat)
    requires 0 <= i < length && (n == length || n == 1)
    ensures j < n
    ensures n == length ==> j == i
  {
    if n == 1 then 0 else i
  }

  /** `strain * mask`: the strain inside the band, zero outside it, with numpy's
      broadcasting of a length-1 operand. */
  function Masked(strain: seq<Complex>, mask: seq<bool>): (r: Result<seq<Complex>>)
    ensures r.Ok? <==> BroadcastLength(|strain|, |mask|).Some?
    ensures r.Err? ==> r == Err(ValueError(NotBroadcast))
    ensures r.Ok? ==> |r.value| == BroadcastLength(|strain|, |mask|).value
    ensures r.Ok? ==> forall i :: 0 <= i < |r.value| ==>
      r.value[i] == if mask[Aligned(i, |mask|, |r.value|)] then strain[Aligned(i, |strain|, |r.value|)] else Zero
    ensures |strain| == |mask| ==>
      && r.Ok? && |r.value| == |strain|
      && forall i :: 0 <= i < |mask| ==> r.value[i] == if mask[i] then strain[i] else Zero
  {
    match BroadcastLength(|strain|, |mask|)
    case None => Err(ValueError(NotBroadcast))
    case Some(n) =>
      Ok(seq(n, i requires 0 <= i < n =>
        if mask[Aligned(i, |mask|, n)] then strain[Aligned(i, |strain|, n)] else Zero))
  }

  /** A single-entry mask broadcasts over the whole strain: it keeps every sample or
      zeroes every one. */
  lemma SingleMaskBroadcasts(strain: seq<Complex>, b: bool)
    ensures Masked(strain, [b]) == Ok(if b then strain else Zeros(|strain|))
  {
    var r := Masked(strain, [b]);
    assert |r.value| == |strain|;
    forall i | 0 <= i < |strain|
      ensures r.value[i] == (if b then strain else Zeros(|strain|))[i]
    {
      assert Aligned(i, 1, |strain|) == 0;
    }
    assert r.value == (if b then strain else Zeros(|strain|));
  }

  /** `strain * window`, element by element, with numpy's broadcasting of a length-1
      operand. */
  function Windowed(strain: seq<real>, window: seq<real>): (r: Result<seq<real>>)
    ensures r.Ok? <==> BroadcastLength(|strain|, |window|).Some?
    ensures r.Err? ==> r == Err(ValueError(NotBroadcast))
    ensures r.Ok? ==> |r.value| == BroadcastLength(|strain|, |window|).value
    ensures r.Ok? ==> forall i :: 0 <= i < |r.value| ==>
      r.value[i] == strain[Aligned(i, |strain|, |r.value|)] * window[Aligned(i, |window|, |r.value|)]
    ensures |strain| == |window| ==>
      && r.Ok? && |r.value| == |strain|
      && forall i :: 0 <= i < |strain| ==> r.value[i] == strain[i] * window[i]
  {
    match BroadcastLength(|strain|, |window|)
    case None => Err(ValueError(NotBroadcast))
    case Some(n) =>
      Ok(seq(n, i requires 0 <= i < n => strain[Aligned(i, |strain|, n)] * window[Aligned(i, |window|, n)]))
  }

  /** The alpha property, `2 * roll_off / duration`. */
  function Alpha(rollOff: real, duration: Option<real>): (r: Result<real>)
    ensures duration.None? ==> r == Err(TypeError)
    ensures duration.Some? ==> (r.Ok? <==> duration.value != 0.0)
    ensures duration.Some? && duration.value == 0.0 ==> r == Err(ZeroDivision)
    ensures r.Ok? ==> r.value * duration.value == 2.0 * rollOff
  {
    if duration.None? then Err(TypeError) else Div(2.0 * rollOff, duration.value)
  }

  /** The roll-off time_domain_window sets from an alpha, `alpha * duration / 2`;
      alpha read back afterwards is the alpha given. */
  function RollOffFor(alpha: real, duration: real): (r: real)
    ensures 2.0 * r == alpha * duration
    ensures duration != 0.0 ==> Alpha(r, Some(duration)) == Ok(alpha)
  {
    var r := alpha * duration / 2.0;
    assert 2.0 * r == alpha * duration;
    assert duration != 0.0 ==> (alpha * duration) / duration == alpha;
    r
  }

  /** time_domain_window(roll_off, alpha): update the roll-off, build the window of
      the time-domain strain's length and record its power loss in window_factor. */
  function Window(f: Fields, dsp: SignalProcessing, rollOff: Option<real>, alpha: Option<real>): (o: Outcome<seq<real>>)
    ensures o.after == f.(rollOff := o.after.rollOff, windowFactor := o.after.windowFactor)
    ensures rollOff.Some? ==> o.after.rollOff == rollOff.value
    ensures rollOff.None? && alpha.Some? && f.duration.Some? ==>
      o.after.rollOff == RollOffFor(alpha.value, f.duration.value)
    ensures rollOff.None? && alpha.Some? && f.duration.Some? && f.duration.value != 0.0 ==>
      Alpha(o.after.rollOff, o.after.duration) == Ok(alpha.value)
    ensures rollOff.None? && alpha.Some? && f.duration.None? ==> o == Outcome(f, Err(TypeError))
    ensures rollOff.None? && alpha.None? ==> o.after.rollOff == f.rollOff
    ensures o.result.Ok? <==>
      !(rollOff.None? && alpha.Some? && f.duration.None?) && f.timeDomainStrain.Some? &&
      Alpha(o.after.rollOff, f.duration).Ok?
    ensures o.result.Ok? ==>
      o.result.value == dsp.tukey(|f.timeDomainStrain.value|, Alpha(o.after.rollOff, f.duration).value) &&
      o.after.windowFactor == dsp.meanSquare(o.result.value)
    ensures o.result.Err? ==> o.after.windowFactor == f.windowFactor
  {
    if rollOff.None? && alpha.Some? && f.duration.None? then Outcome(f, Err(TypeError))
    else
      var g := if rollOff.Some? then f.(rollOff := rollOff.value)
               else if alpha.Some? then f.(rollOff := RollOffFor(alpha.value, f.duration.value))
               else f;
      if g.timeDomainStrain.None? then Outcome(g, Err(TypeError))
      else match Alpha(g.rollOff, g.duration)
        case Err(e) => Outcome(g, Err(e))
        case Ok(a) =>
          var window := dsp.tukey(|g.timeDomainStrain.value|, a);
          Outcome(g.(windowFactor := dsp.meanSquare(window)), Ok(window))
  }

  // ---------------------------------------------------------------------------
  // Lazy strain getters

  /** The frequency-domain part of the transform path: nfft of the windowed time
      series replaces the frequency-domain strain and the frequency given. */
  function Transformed(f: Fields, dsp: SignalProcessing, windowed: seq<real>): (g: Fields)
    ensures g == f.(frequencyDomainStrain := g.frequencyDomainStrain, frequencyArray := g.frequencyArray)
    ensures g.frequencyDomainStrain == Some(dsp.nfft(windowed, f.samplingFrequency).0)
    ensures g.frequencyArray == dsp.nfft(windowed, f.samplingFrequency).1
  {
    var transform := dsp.nfft(windowed, f.samplingFrequency);
    f.(frequencyDomainStrain := Some(transform.0), frequencyArray := transform.1)
  }

  /** The frequency_domain_strain getter. */
  function FrequencyDomainRead(f: Fields, dsp: SignalProcessing): (o: Outcome<seq<Complex>>)
    ensures f.frequencyDomainStrain.None? && f.timeDomainStrain.None? ==>
      o == Outcome(f, Err(ValueError(FrequencyDomainNotSet)))
    ensures f.frequencyDomainStrain.Some? ==>
      o.after == WithMask(f) && o.result == Masked(f.frequencyDomainStrain.value, o.after.frequencyMask.value)
    ensures o.after.timeDomainStrain == f.timeDomainStrain
    ensures o.after.minimumFrequency == f.minimumFrequency && o.after.samplingFrequency == f.samplingFrequency
    ensures o.result.Ok? ==>
      o.after.frequencyDomainStrain.Some? && o.after.frequencyMask.Some? &&
      o.result == Masked(o.after.frequencyDomainStrain.value, o.after.frequencyMask.value)
  {
    if f.frequencyDomainStrain.Some? then
      var g := WithMask(f);
      Outcome(g, Masked(f.frequencyDomainStrain.value, g.frequencyMask.value))
    else if f.timeDomainStrain.None? then
      Outcome(f, Err(ValueError(FrequencyDomainNotSet)))
    else match Alpha(f.rollOff, f.duration)
      case Err(e) => Outcome(f, Err(e))
      case Ok(_) =>
        var w := Window(f, dsp, None, None);
        match Windowed(f.timeDomainStrain.value, w.result.value)
        case Err(e) => Outcome(w.after, Err(e))
        case Ok(windowed) =>
          var g := WithMask(Transformed(w.after, dsp, windowed));
          Outcome(g, Masked(g.frequencyDomainStrain.value, g.frequencyMask.value))
  }

  /** Once the frequency-domain strain has been read, reading it again returns the
      same array and changes nothing: the transform is computed once. */
  lemma {:induction false} FrequencyReadCached(f: Fields, dsp: SignalProcessing)
    requires FrequencyDomainRead(f, dsp).result.Ok?
    ensures FrequencyDomainRead(FrequencyDomainRead(f, dsp).after, dsp) == FrequencyDomainRead(f, dsp)
  {
    var o := FrequencyDomainRead(f, dsp);
    WithMaskIdempotent(o.after);
  }

  /** A stored frequency-domain strain read through a cached single-entry mask: numpy
      broadcasts the mask, so the whole strain is returned, or all of it zeroed. */
  lemma SingleMaskRead(f: Fields, dsp: SignalProcessing, b: bool)
    requires f.frequencyDomainStrain.Some? && f.frequencyMask == Some([b])
    ensures FrequencyDomainRead(f, dsp) ==
      Outcome(f, Ok(if b then f.frequencyDomainStrain.value else Zeros(|f.frequencyDomainStrain.value|)))
  {
    SingleMaskBroadcasts(f.frequencyDomainStrain.value, b);
  }

  /** scipy's tukey(M, alpha) has M points. */
  ghost predicate TukeyKeepsLength(dsp: SignalProcessing)
  {
    forall m: nat, alpha: real :: |dsp.tukey(m, alpha)| == m
  }

  /** With a window as long as the strain, the transform path always reaches nfft: once
      alpha is defined, the read leaves a frequency-domain strain behind. */
  lemma TransformAlwaysRuns(f: Fields, dsp: SignalProcessing)
    requires TukeyKeepsLength(dsp)
    requires f.frequencyDomainStrain.None? && f.timeDomainStrain.Some? && Alpha(f.rollOff, f.duration).Ok?
    ensures FrequencyDomainRead(f, dsp).after.frequencyDomainStrain.Some?
  {
  }

  /** The time_domain_strain getter: the stored strain, or the inverse transform of
      the (masked) frequency-domain strain, which is then stored. */
  function TimeDomainRead(f: Fields, dsp: SignalProcessing): (o: Outcome<seq<real>>)
    ensures f.timeDomainStrain.None? && f.frequencyDomainStrain.None? ==>
      o == Outcome(f, Err(ValueError(TimeDomainNotSet)))
    ensures f.timeDomainStrain.Some? ==> o == Outcome(f, Ok(f.timeDomainStrain.value))
    ensures o.result.Ok? ==> o.after.timeDomainStrain == Some(o.result.value)
    ensures f.timeDomainStrain.None? && o.result.Ok? ==>
      FrequencyDomainRead(f, dsp).result.Ok? &&
      o.result.value == dsp.infft(FrequencyDomainRead(f, dsp).result.value, f.samplingFrequency) &&
      o.after.frequencyDomainStrain == f.frequencyDomainStrain
  {
    if f.timeDomainStrain.Some? then Outcome(f, Ok(f.timeDomainStrain.value))
    else if f.frequencyDomainStrain.None? then Outcome(f, Err(ValueError(TimeDomainNotSet)))
    else
      var o := FrequencyDomainRead(f, dsp);
      match o.result
      case Err(e) => Outcome(o.after, Err(e))
      case Ok(strain) =>
        var series := dsp.infft(strain, f.samplingFrequency);
        Outcome(o.after.(timeDomainStrain := Some(series)), Ok(series))
  }

  /** Once the time-domain strain has been read, reading it again returns the same
      series and changes nothing. */
  lemma TimeReadCached(f: Fields, dsp: SignalProcessing)
    requires TimeDomainRead(f, dsp).result.Ok?
    ensures TimeDomainRead(TimeDomainRead(f, dsp).after, dsp) == TimeDomainRead(f, dsp)
  {
  }

  // ---------------------------------------------------------------------------
  // Setters

  /** _set_time_and_frequency_array_parameters: a new coupled series. */
  function Parameterised(f: Fields, grid: SeriesGrid, duration: real, sampling: real, start: real): (g: Fields)
    ensures g.samplingFrequency == Some(sampling) && g.duration == Some(duration) && g.startTime == start
    ensures g.timeArray == grid.times(duration, sampling, start)
    ensures g.frequencyArray == grid.frequencies(duration, sampling)
    ensures g == f.(samplingFrequency := g.samplingFrequency, duration := g.duration, startTime := start,
                    timeArray := g.timeArray, frequencyArray := g.frequencyArray)
  {
    f.(samplingFrequency := Some(sampling), duration := Some(duration), startTime := start,
       timeArray := grid.times(duration, sampling, start), frequencyArray := grid.frequencies(duration, sampling))
  }

  /** The two states agree on everything but the grid. */
  predicate SameData(g: Fields, f: Fields)
  {
    g.minimumFrequency == f.minimumFrequency && g.maximumFrequency == f.maximumFrequency &&
    g.rollOff == f.rollOff && g.windowFactor == f.windowFactor &&
    g.timeDomainStrain == f.timeDomainStrain && g.frequencyDomainStrain == f.frequencyDomainStrain &&
    g.frequencyMask == f.frequencyMask
  }

  /** _infer_dependence: either a sampling frequency and a duration, or an array of
      the given domain, must be supplied, and not both. Raising leaves the state as
      it was. (The source's last `else` branch cannot be reached: when the first
      test fails, one of the two parameters is None.) */
  function Inferred(f: Fields, grid: SeriesGrid, domain: Domain, given: Option<seq<real>>,
                    duration: Option<real>, sampling: Option<real>, start: real): (r: Result<Fields>)
    ensures sampling.Some? && duration.Some? && given.Some? ==> r == Err(ValueError(OverDetermined))
    ensures sampling.Some? && duration.Some? && given.None? ==>
      r == Ok(Parameterised(f, grid, duration.value, sampling.value, start))
    ensures !(sampling.Some? && duration.Some?) && given.Some? ==>
      r.Ok? && (if domain == TimeDomain then r.value == f.(timeArray := given.value)
                else r.value == f.(frequencyArray := given.value))
    ensures !(sampling.Some? && duration.Some?) && given.None? ==> r == Err(ValueError(BothOrNeither))
    ensures r.Ok? ==> SameData(r.value, f)
  {
    if sampling.Some? && duration.Some? then
      if given.Some? then Err(ValueError(OverDetermined))
      else Ok(Parameterised(f, grid, duration.value, sampling.value, start))
    else if given.Some? then
      if domain == TimeDomain then Ok(f.(timeArray := given.value)) else Ok(f.(frequencyArray := given.value))
    else Err(ValueError(BothOrNeither))
  }

  /** set_from_time_domain_strain. */
  function SetTimeDomain(f: Fields, grid: SeriesGrid, strain: seq<real>, sampling: Option<real>,
                         duration: Option<real>, start: real, times: Option<seq<real>>): (o: Outcome<()>)
    ensures var inferred := Inferred(f, grid, TimeDomain, times, duration, sampling, start);
      (o.result.Ok? <==> inferred.Ok? && |strain| == |inferred.value.timeArray|) &&
      (inferred.Err? ==> o == Outcome(f, Err(inferred.error))) &&
      (inferred.Ok? && o.result.Err? ==> o == Outcome(inferred.value, Err(ValueError(TimesMismatch))))
    ensures o.result.Ok? ==> o.after.timeDomainStrain == Some(strain) && o.after.frequencyDomainStrain.None?
    ensures o.result.Err? ==>
      o.after.timeDomainStrain == f.timeDomainStrain && o.after.frequencyDomainStrain == f.frequencyDomainStrain
    ensures o.after.windowFactor == f.windowFactor && o.after.frequencyMask == f.frequencyMask
  {
    match Inferred(f, grid, TimeDomain, times, duration, sampling, start)
    case Err(e) => Outcome(f, Err(e))
    case Ok(g) =>
      if |strain| == |g.timeArray| then
        Outcome(g.(timeDomainStrain := Some(strain), frequencyDomainStrain := None), Ok(()))
      else Outcome(g, Err(ValueError(TimesMismatch)))
  }

  /** set_from_frequency_domain_strain. The time-domain strain is left as it was. */
  function SetFrequencyDomain(f: Fields, grid: SeriesGrid, strain: seq<Complex>, sampling: Option<real>,
                              duration: Option<real>, start: real, frequencies: Option<seq<real>>): (o: Outcome<()>)
    ensures var inferred := Inferred(f, grid, FrequencyDomain, frequencies, duration, sampling, start);
      (o.result.Ok? <==> inferred.Ok? && |strain| == |inferred.value.frequencyArray|) &&
      (inferred.Err? ==> o == Outcome(f, Err(inferred.error))) &&
      (inferred.Ok? && o.result.Err? ==> o == Outcome(inferred.value, Err(ValueError(FrequenciesMismatch))))
    ensures o.result.Ok? ==>
      o.after.frequencyDomainStrain == Some(strain) && o.after.windowFactor == 1.0 &&
      |strain| == |o.after.frequencyArray|
    ensures o.result.Err? ==>
      o.after.frequencyDomainStrain == f.frequencyDomainStrain && o.after.windowFactor == f.windowFactor
    ensures o.after.timeDomainStrain == f.timeDomainStrain && o.after.frequencyMask == f.frequencyMask
  {
    match Inferred(f, grid, FrequencyDomain, frequencies, duration, sampling, start)
    case Err(e) => Outcome(f, Err(e))
    case Ok(g) =>
      if |strain| == |g.frequencyArray| then
        Outcome(g.(frequencyDomainStrain := Some(strain), windowFactor := 1.0), Ok(()))
      else Outcome(g, Err(ValueError(FrequenciesMismatch)))
  }

  function Zeros(n: nat): (z: seq<Complex>)
    ensures |z| == n && forall i :: 0 <= i < n ==> z[i] == Zero
  {
    seq(n, _ => Zero)
  }

  /** set_from_zero_noise: a new grid and an all-zero frequency-domain strain of
      its length. */
  function ZeroNoise(f: Fields, grid: SeriesGrid, sampling: real, duration: real, start: real): (g: Fields)
    ensures g.samplingFrequency == Some(sampling) && g.duration == Some(duration) && g.startTime == start
    ensures g.frequencyArray == grid.frequencies(duration, sampling)
    ensures g.frequencyDomainStrain.Some? && |g.frequencyDomainStrain.value| == |g.frequencyArray|
    ensures forall i :: 0 <= i < |g.frequencyArray| ==> g.frequencyDomainStrain.value[i] == Zero
    ensures g.timeDomainStrain == f.timeDomainStrain && g.frequencyMask == f.frequencyMask
  {
    var p := Parameterised(f, grid, duration, sampling, start);
    p.(frequencyDomainStrain := Some(Zeros(|p.frequencyArray|)))
  }

  /** The frequency_domain_strain setter: only data as long as the frequency given. */
  function AssignFrequencyDomainStrain(f: Fields, strain: seq<Complex>): (o: Outcome<()>)
    ensures o.result.Ok? <==> |strain| == |f.frequencyArray|
    ensures o.result.Ok? ==> o.after == f.(frequencyDomainStrain := Some(strain))
    ensures o.result.Err? ==> o == Outcome(f, Err(ValueError(SetterMismatch)))
  {
    if |f.frequencyArray| != |strain| then Outcome(f, Err(ValueError(SetterMismatch)))
    else Outcome(f.(frequencyDomainStrain := Some(strain)), Ok(()))
  }

  // ---------------------------------------------------------------------------
  // Set, then read back

  /** After set_from_time_domain_strain succeeds, the time-domain getter returns the
      strain that was set. */
  lemma SetTimeThenRead(f: Fields, grid: SeriesGrid, dsp: SignalProcessing, strain: seq<real>,
                        sampling: Option<real>, duration: Option<real>, start: real, times: Option<seq<real>>)
    requires SetTimeDomain(f, grid, strain, sampling, duration, start, times).result.Ok?
    ensures var g := SetTimeDomain(f, grid, strain, sampling, duration, start, times).after;
      TimeDomainRead(g, dsp) == Outcome(g, Ok(strain))
  {
  }

  /** After set_from_frequency_domain_strain succeeds on an object whose mask is
      not yet computed, the frequency-domain getter returns the strain with the
      frequencies outside the band zeroed. */
  lemma {:induction false} SetFrequencyThenRead(f: Fields, grid: SeriesGrid, dsp: SignalProcessing,
                                                strain: seq<Complex>, sampling: Option<real>,
                                                duration: Option<real>, start: real, frequencies: Option<seq<real>>)
    requires f.frequencyMask.None?
    requires SetFrequencyDomain(f, grid, strain, sampling, duration, start, frequencies).result.Ok?
    ensures var g := SetFrequencyDomain(f, grid, strain, sampling, duration, start, frequencies).after;
      var read := FrequencyDomainRead(g, dsp);
      read.result.Ok? && |read.result.value| == |strain| &&
      forall i :: 0 <= i < |strain| ==>
        read.result.value[i] ==
          if InBand(g.frequencyArray[i], g.minimumFrequency, Clamped(g.maximumFrequency, g.samplingFrequency))
          then strain[i] else Zero
  {
    var g := SetFrequencyDomain(f, grid, strain, sampling, duration, start, frequencies).after;
    var h := WithMask(g);
    assert |h.frequencyMask.value| == |strain|;
  }

  /** Zero noise read back through a freshly computed mask is zero everywhere. */
  lemma {:induction false} ZeroNoiseReadsZero(f: Fields, grid: SeriesGrid, dsp: SignalProcessing,
                                              sampling: real, duration: real, start: real)
    requires f.frequencyMask.None?
    ensures var read := FrequencyDomainRead(ZeroNoise(f, grid, sampling, duration, start), dsp);
      read.result.Ok? && read.result.value == Zeros(|grid.frequencies(duration, sampling)|)
  {
    var g := ZeroNoise(f, grid, sampling, duration, start);
    var read := FrequencyDomainRead(g, dsp);
    assert |WithMask(g).frequencyMask.value| == |g.frequencyArray|;
    assert read.result.value == Zeros(|g.frequencyArray|);
  }

  /** The same read after a single-entry mask was cached for an earlier grid: the
      stale mask broadcasts, and the read still returns zeros of the new length. */
  lemma {:induction false} ZeroNoiseStaleMaskReadsZero(f: Fields, grid: SeriesGrid, dsp: SignalProcessing,
                                                       sampling: real, duration: real, start: real, b: bool)
    requires f.frequencyMask == Some([b])
    ensures var read := FrequencyDomainRead(ZeroNoise(f, grid, sampling, duration, start), dsp);
      read.result == Ok(Zeros(|grid.frequencies(duration, sampling)|))
  {
    var g := ZeroNoise(f, grid, sampling, duration, start);
    SingleMaskRead(g, dsp, b);
    assert g.frequencyDomainStrain.value == Zeros(|g.frequencyArray|);
  }

  // ---------------------------------------------------------------------------
  // The object

  class InterferometerStrainData {
    var minimumFrequency: real
    var maximumFrequency: Limit
    var rollOff: real
    var windowFactor: real
    var samplingFrequency: Option<real>
    var duration: Option<real>
    var startTime: real
    var timeArray: seq<real>
    var frequencyArray: seq<real>
    var timeDomainStrain: Option<seq<real>>
    var frequencyDomainStrain: Option<seq<Complex>>
    var frequencyMask: Option<seq<bool>>
    const grid: SeriesGrid
    const dsp: SignalProcessing

    function Snapshot(): Fields
      reads this
    {
      Fields(minimumFrequency, maximumFrequency, rollOff, windowFactor, samplingFrequency, duration,
             startTime, timeArray, frequencyArray, timeDomainStrain, frequencyDomainStrain, frequencyMask)
    }

    constructor (minimumFrequency: real, maximumFrequency: Limit, rollOff: real,
                 grid: SeriesGrid, dsp: SignalProcessing)
      ensures Snapshot() == Initial(minimumFrequency, maximumFrequency, rollOff)
      ensures this.grid == grid && this.dsp == dsp
    {
      this.minimumFrequency := minimumFrequency;
      this.maximumFrequency := maximumFrequency;
      this.rollOff := rollOff;
      windowFactor := 1.0;
      samplingFrequency := None;
      duration := None;
      startTime := 0.0;
      timeArray := [];
      frequencyArray := [];
      timeDomainStrain := None;
      frequencyDomainStrain := None;
      frequencyMask := None;
      this.grid := grid;
      this.dsp := dsp;
    }

    /** The maximum_frequency getter: clamps to Nyquist and stores the result. */
    method MaximumFrequency() returns (m: Limit)
      modifies this`maximumFrequency
      ensures m == maximumFrequency == Clamped(old(maximumFrequency), samplingFrequency)
      ensures samplingFrequency.Some? ==> m.Hz? && 2.0 * m.value <= samplingFrequency.value
      ensures Clamped(m, samplingFrequency) == m
    {
      if samplingFrequency.Some? {
        if AboveNyquist(maximumFrequency, samplingFrequency.value) {
          maximumFrequency := Hz(samplingFrequency.value / 2.0);
        }
      }
      m := maximumFrequency;
    }

    /** The frequency_mask getter: the cached mask, or the mask of the current band,
      which is then cached. */
    method FrequencyMask() returns (m: seq<bool>)
      modifies this`maximumFrequency, this`frequencyMask
      ensures Snapshot() == WithMask(old(Snapshot()))
      ensures frequencyMask == Some(m)
    {
      if frequencyMask.Some? {
        m := frequencyMask.value;
        return;
      }
      var maximum := MaximumFrequency();
      m := MaskOf(frequencyArray, minimumFrequency, maximum);
      frequencyMask := Some(m);
    }

    method TimeDomainWindow(rollOffArg: Option<real>, alphaArg: Option<real>) returns (r: Result<seq<real>>)
      modifies this`rollOff, this`windowFactor
      ensures Outcome(Snapshot(), r) == Window(old(Snapshot()), dsp, rollOffArg, alphaArg)
    {
      if rollOffArg.Some? {
        rollOff := rollOffArg.value;
      } else if alphaArg.Some? {
        if duration.None? {
          return Err(TypeError);
        }
        rollOff := RollOffFor(alphaArg.value, duration.value);
      }
      if timeDomainStrain.None? {
        return Err(TypeError);
      }
      var alpha :- Alpha(rollOff, duration);
      var window := dsp.tukey(|timeDomainStrain.value|, alpha);
      windowFactor := dsp.meanSquare(window);
      r := Ok(window);
    }

    /** The frequency_domain_strain getter. */
    method FrequencyDomainStrain() returns (r: Result<seq<Complex>>)
      modifies this`maximumFrequency, this`frequencyMask, this`rollOff, this`windowFactor,
               this`frequencyDomainStrain, this`frequencyArray
      ensures Outcome(Snapshot(), r) == FrequencyDomainRead(old(Snapshot()), dsp)
    {
      if frequencyDomainStrain.Some? {
        var mask := FrequencyMask();
        r := Masked(frequencyDomainStrain.value, mask);
        return;
      }
      if timeDomainStrain.None? {
        return Err(ValueError(FrequencyDomainNotSet));
      }
      // the log message reads alpha before the window is built
      var _ :- Alpha(rollOff, duration);
      // with alpha defined and a time-domain strain present the window is built
      var window := TimeDomainWindow(None, None);
      var windowed :- Windowed(timeDomainStrain.value, window.value);
      var transform := dsp.nfft(windowed, samplingFrequency);
      frequencyDomainStrain := Some(transform.0);
      frequencyArray := transform.1;
      var mask := FrequencyMask();
      r := Masked(transform.0, mask);
    }

    /** The time_domain_strain getter. */
    method TimeDomainStrain() returns (r: Result<seq<real>>)
      modifies this`maximumFrequency, this`frequencyMask, this`rollOff, this`windowFactor,
               this`frequencyDomainStrain, this`frequencyArray, this`timeDomainStrain
      ensures Outcome(Snapshot(), r) == TimeDomainRead(old(Snapshot()), dsp)
    {
      if timeDomainStrain.Some? {
        return Ok(timeDomainStrain.value);
      }
      if frequencyDomainStrain.None? {
        return Err(ValueError(TimeDomainNotSet));
      }
      var strain :- FrequencyDomainStrain();
      var series := dsp.infft(strain, samplingFrequency);
      timeDomainStrain := Some(series);
      r := Ok(series);
    }

    /** _set_time_and_frequency_array_parameters */
    method SetTimeAndFrequencyArrayParameters(dataDuration: real, sampling: real, start: real)
      modifies this`samplingFrequency, this`duration, this`startTime, this`timeArray, this`frequencyArray
      ensures Snapshot() == Parameterised(old(Snapshot()), grid, dataDuration, sampling, start)
    {
      samplingFrequency := Some(sampling);
      duration := Some(dataDuration);
      startTime := start;
      timeArray := grid.times(dataDuration, sampling, start);
      frequencyArray := grid.frequencies(dataDuration, sampling);
    }

    method InferDependence(domain: Domain, given: Option<seq<real>>, dataDuration: Option<real>,
                           sampling: Option<real>, start: real) returns (r: Result<()>)
      modifies this`samplingFrequency, this`duration, this`startTime, this`timeArray, this`frequencyArray
      ensures var inferred := Inferred(old(Snapshot()), grid, domain, given, dataDuration, sampling, start);
        (r.Ok? <==> inferred.Ok?) &&
        (inferred.Ok? ==> Snapshot() == inferred.value) &&
        (inferred.Err? ==> r.error == inferred.error && Snapshot() == old(Snapshot()))
    {
      if sampling.Some? && dataDuration.Some? {
        if given.Some? {
          return Err(ValueError(OverDetermined));
        }
      } else if given.Some? {
        if domain == TimeDomain {
          timeArray := given.value;
        } else {
          frequencyArray := given.value;
        }
        return Ok(());
      } else {
        return Err(ValueError(BothOrNeither));
      }
      SetTimeAndFrequencyArrayParameters(dataDuration.value, sampling.value, start);
      r := Ok(());
    }

    method SetFromTimeDomainStrain(strain: seq<real>, sampling: Option<real>, dataDuration: Option<real>,
                                   start: real, times: Option<seq<real>>) returns (r: Result<()>)
      modifies this`samplingFrequency, this`duration, this`startTime, this`timeArray, this`frequencyArray,
               this`timeDomainStrain, this`frequencyDomainStrain
      ensures Outcome(Snapshot(), r) == SetTimeDomain(old(Snapshot()), grid, strain, sampling, dataDuration, start, times)
    {
      var _ :- InferDependence(TimeDomain, times, dataDuration, sampling, start);
      if |strain| == |timeArray| {
        timeDomainStrain := Some(strain);
        frequencyDomainStrain := None;
        r := Ok(());
      } else {
        r := Err(ValueError(TimesMismatch));
      }
    }

    method SetFromFrequencyDomainStrain(strain: seq<Complex>, sampling: Option<real>, dataDuration: Option<real>,
                                        start: real, frequencies: Option<seq<real>>) returns (r: Result<()>)
      modifies this`samplingFrequency, this`duration, this`startTime, this`timeArray, this`frequencyArray,
               this`frequencyDomainStrain, this`windowFactor
      ensures Outcome(Snapshot(), r) ==
        SetFrequencyDomain(old(Snapshot()), grid, strain, sampling, dataDuration, start, frequencies)
    {
      var _ :- InferDependence(FrequencyDomain, frequencies, dataDuration, sampling, start);
      if |strain| == |frequencyArray| {
        frequencyDomainStrain := Some(strain);
        windowFactor := 1.0;
        r := Ok(());
      } else {
        r := Err(ValueError(FrequenciesMismatch));
      }
    }

    method SetFromZeroNoise(sampling: real, dataDuration: real, start: real)
      modifies this`samplingFrequency, this`duration, this`startTime, this`timeArray, this`frequencyArray,
               this`frequencyDomainStrain
      ensures Snapshot() == ZeroNoise(old(Snapshot()), grid, sampling, dataDuration, start)
    {
      SetTimeAndFrequencyArrayParameters(dataDuration, sampling, start);
      frequencyDomainStrain := Some(Zeros(|frequencyArray|));
    }

    /** The frequency_domain_strain setter. */
    method SetFrequencyDomainStrain(strain: seq<Complex>) returns (r: Result<()>)
      modifies this`frequencyDomainStrain
      ensures Outcome(Snapshot(), r) == AssignFrequencyDomainStrain(old(Snapshot()), strain)
    {
      if |frequencyArray| != |strain| {
        return Err(ValueError(SetterMismatch));
      }
      frequencyDomainStrain := Some(strain);
      r := Ok(());
    }
  }
}
