/**
 * Waveform, decay and ADSR envelope construction (`core/synthesis.py`).
 * `np.linspace` is modelled exactly; `sin`, `exp` and scipy's periodic
 * waveforms are parameters, so only the sample layout is modelled for them.
 */
module Synthesis {
  import opened Numeric
  import opened Wrappers

  /** `int(sample_rate * duration)`: the number of samples every generator produces. */
  function SampleCount(sampleRate: int, duration: real): int
  {
    TruncMul(sampleRate as real, duration)
  }

  /** Point `i` of `np.linspace(start, stop, n)`. */
  function LinPoint(start: real, stop: real, n: int, i: int): real
    requires n >= 1
  {
    if n == 1 then start else start + i as real * ((stop - start) / (n - 1) as real)
  }

  /** `np.linspace(start, stop, n)`, endpoint included. */
  function Linspace(start: real, stop: real, n: nat): (r: seq<real>)
    ensures |r| == n
    ensures n >= 1 ==> r[0] == start
    ensures n >= 2 ==> r[n - 1] == stop
  {
    assert n >= 2 ==> LinPoint(start, stop, n, n - 1) == stop by {
      if n >= 2 { LinPointLast(start, stop, n); }
    }
    seq(n, i requires 0 <= i < n => LinPoint(start, stop, n, i))
  }

  lemma LinPointLast(start: real, stop: real, n: int)
    requires n >= 2
    ensures LinPoint(start, stop, n, n - 1) == stop
  {
    var step := (stop - start) / (n - 1) as real;
    assert step * (n - 1) as real == stop - start;
  }

  /** Every point of a linear ramp lies between its two ends. */
  lemma LinPointBetween(start: real, stop: real, n: int, i: int)
    requires n >= 1 && 0 <= i < n
    ensures start <= stop ==> start <= LinPoint(start, stop, n, i) <= stop
    ensures stop <= start ==> stop <= LinPoint(start, stop, n, i) <= start
  {
    if n >= 2 {
      var m := (n - 1) as real;
      var x := i as real;
      var step := (stop - start) / m;
      assert LinPoint(start, stop, n, i) == start + x * step;
      assert step * m == stop - start;
      if step >= 0.0 {
        MulMonotone(step, 0.0, x);
        MulMonotone(step, x, m);
        assert 0.0 <= step * x <= stop - start;
      } else {
        MulMonotone(-step, 0.0, x);
        MulMonotone(-step, x, m);
        assert stop - start <= step * x <= 0.0;
      }
    }
  }

  /** A rising ramp never goes down. */
  lemma LinPointMonotone(start: real, stop: real, n: int, i: int, j: int)
    requires n >= 1 && 0 <= i <= j < n && start <= stop
    ensures LinPoint(start, stop, n, i) <= LinPoint(start, stop, n, j)
  {
    if n >= 2 {
      var step := (stop - start) / (n - 1) as real;
      DivNonneg(stop - start, (n - 1) as real);
      MulMonotone(step, i as real, j as real);
    }
  }

  /** numpy's failures while building an array. */
  datatype ArrayError =
    | NegativeLength     // `np.zeros` or `np.linspace` with a negative count
    | BroadcastMismatch  // a ramp does not fit the slice it is written to

  /**
   * `np.linspace(0, duration, int(sample_rate * duration))`: the sample
   * times, from 0 up to the duration, or numpy's error for a negative count.
   */
  function TimeAxis(duration: real, sampleRate: int): (r: Result<seq<real>, ArrayError>)
    ensures r.Failure? <==> SampleCount(sampleRate, duration) < 0
    ensures r.Failure? ==> r.error == NegativeLength
    ensures r.Success? ==> |r.value| == SampleCount(sampleRate, duration)
    ensures r.Success? && |r.value| >= 1 ==> r.value[0] == 0.0
    ensures r.Success? && |r.value| >= 2 ==> r.value[|r.value| - 1] == duration
  {
    var n := SampleCount(sampleRate, duration);
    if n < 0 then Failure(NegativeLength) else Success(Linspace(0.0, duration, n))
  }

  /**
   * `sine`, `sawtooth`, `square`, `triangle`: a periodic function of the phase,
   * counted in cycles, at every sample time. The oscillator is a parameter.
   */
  function Waveform(osc: real -> real, frequency: real, duration: real, sampleRate: int): (r: Result<seq<real>, ArrayError>)
    ensures r.Failure? <==> SampleCount(sampleRate, duration) < 0
    ensures r.Success? ==> |r.value| == SampleCount(sampleRate, duration)
    ensures r.Success? && |r.value| >= 1 ==> r.value[0] == osc(0.0)
    ensures r.Success? && (forall p :: -1.0 <= osc(p) <= 1.0) ==> forall i :: 0 <= i < |r.value| ==> -1.0 <= r.value[i] <= 1.0
  {
    match TimeAxis(duration, sampleRate)
    case Failure(e) => Failure(e)
    case Success(t) => Success(seq(|t|, i requires 0 <= i < |t| => osc(frequency * t[i])))
  }

  /** `exponential_decay`: `exp(-decay_rate * t)`, with the exponential a parameter. */
  function ExponentialDecay(expFn: real -> real, duration: real, decayRate: real, sampleRate: int): (r: Result<seq<real>, ArrayError>)
    ensures r.Failure? <==> SampleCount(sampleRate, duration) < 0
    ensures r.Success? ==> |r.value| == SampleCount(sampleRate, duration)
    ensures r.Success? && |r.value| >= 1 ==> r.value[0] == expFn(0.0)
  {
    match TimeAxis(duration, sampleRate)
    case Failure(e) => Failure(e)
    case Success(t) => Success(seq(|t|, i requires 0 <= i < |t| => expFn(-decayRate * t[i])))
  }

  /**
   * With a rising exponential, a non-negative rate and a non-negative
   * duration, the decay never goes up.
   */
  lemma DecayFalls(expFn: real -> real, duration: real, decayRate: real, sampleRate: int, i: int, j: int)
    requires forall a: real, b: real :: a <= b ==> expFn(a) <= expFn(b)
    requires 0.0 <= duration && 0.0 <= decayRate
    requires ExponentialDecay(expFn, duration, decayRate, sampleRate).Success?
    requires 0 <= i <= j < |ExponentialDecay(expFn, duration, decayRate, sampleRate).value|
    ensures ExponentialDecay(expFn, duration, decayRate, sampleRate).value[j] <=
            ExponentialDecay(expFn, duration, decayRate, sampleRate).value[i]
  {
    var n := SampleCount(sampleRate, duration);
    var t := TimeAxis(duration, sampleRate).value;
    assert t[i] == LinPoint(0.0, duration, n, i) && t[j] == LinPoint(0.0, duration, n, j);
    LinPointMonotone(0.0, duration, n, i, j);
    MulMonotone(decayRate, t[i], t[j]);
    assert -decayRate * t[j] <= -decayRate * t[i];
  }

  // ---------------------------------------------------------------------
  // ADSR
  // ---------------------------------------------------------------------

  /** The four phase lengths, each truncated independently. */
  datatype Phases = Phases(total: int, attack: int, decay: int, release: int)

  function PhasesOf(attack: real, decay: real, release: real, duration: real, sampleRate: int): Phases
  {
    Phases(SampleCount(sampleRate, duration), SampleCount(sampleRate, attack),
           SampleCount(sampleRate, decay), SampleCount(sampleRate, release))
  }

  /**
   * The checks numpy performs, in the order the phases are written. A slice
   * reaching past the buffer is cut at its end, and a ramp fits it when it is
   * exactly as long or has a single point, which broadcasts into any slice,
   * an empty one included.
   */
  function PhasesCheck(p: Phases): (r: Option<ArrayError>)
    ensures r.None? <==> 0 <= p.total && 0 <= p.attack && 0 <= p.decay && 0 <= p.release &&
                          (p.attack <= p.total || p.attack == 1) &&
                          (p.attack + p.decay <= p.total || p.decay <= 1) &&
                          (p.release <= p.total || p.release == 1)
  {
    if p.total < 0 then Some(NegativeLength)
    else if p.attack < 0 then Some(NegativeLength)
    else if p.attack > p.total && p.attack != 1 then Some(BroadcastMismatch)
    else if p.decay < 0 then Some(NegativeLength)
    else if p.attack + p.decay > p.total && p.decay != 0 && p.decay != 1 then Some(BroadcastMismatch)
    else if p.release < 0 then Some(NegativeLength)
    else if p.release > p.total && p.release != 1 then Some(BroadcastMismatch)
    else None
  }

  predicate Fits(p: Phases)
  {
    PhasesCheck(p).None?
  }

  /** Python's reading of a slice bound: a negative one counts from the end, and stops at 0. */
  function SliceBound(i: int, len: nat): (b: int)
    ensures i >= 0 ==> b == i
    ensures i < 0 ==> b == Max(0, i + len)
  {
    if i < 0 then Max(0, i + len) else i
  }

  /** Where the release ramp starts: `total - release`. */
  function ReleaseStart(p: Phases): int
  {
    p.total - p.release
  }

  /** Value at `k` before the release ramp is written. */
  function BeforeRelease(p: Phases, sustainLevel: real, k: int): real
    requires Fits(p) && 0 <= k
  {
    if k < p.attack then LinPoint(0.0, 1.0, p.attack, k)
    else if k < p.attack + p.decay then LinPoint(1.0, sustainLevel, p.decay, k - p.attack)
    else if k < ReleaseStart(p) then sustainLevel
    else 0.0
  }

  /** Value at `k` of the finished envelope: the release ramp overwrites whatever was there. */
  function EnvelopeValue(p: Phases, sustainLevel: real, k: int): real
    requires Fits(p) && 0 <= k < p.total
  {
    if ReleaseStart(p) <= k then LinPoint(sustainLevel, 0.0, p.release, k - ReleaseStart(p))
    else BeforeRelease(p, sustainLevel, k)
  }

  function Envelope(p: Phases, sustainLevel: real): (e: seq<real>)
    requires Fits(p)
    ensures |e| == p.total
  {
    seq(p.total, k requires 0 <= k < p.total => EnvelopeValue(p, sustainLevel, k))
  }

  /** What `adsr` returns for the given parameters, or the numpy error it raises. */
  function AdsrResult(attack: real, decay: real, sustainLevel: real, release: real, duration: real,
                      sampleRate: int): Result<seq<real>, ArrayError>
  {
    var p := PhasesOf(attack, decay, release, duration, sampleRate);
    if PhasesCheck(p).Some? then Failure(PhasesCheck(p).value) else Success(Envelope(p, sustainLevel))
  }

  /** `env[from:from + n] = np.linspace(start, stop, n)`, the slice cut at the end of the buffer. */
  method FillRamp(env: array<real>, from: int, n: int, start: real, stop: real)
    requires 0 <= from && 0 <= n
    modifies env
    ensures forall j :: from <= j < from + n && j < env.Length ==> env[j] == LinPoint(start, stop, n, j - from)
    ensures forall j :: 0 <= j < env.Length && !(from <= j < from + n) ==> env[j] == old(env[j])
  {
    var k := from;
    while k < Min(from + n, env.Length)
      invariant from <= k <= Max(from, Min(from + n, env.Length))
      invariant forall j :: from <= j < k && j < from + n && j < env.Length ==> env[j] == LinPoint(start, stop, n, j - from)
      invariant forall j :: 0 <= j < env.Length && !(from <= j < k) ==> env[j] == old(env[j])
    {
      env[k] := LinPoint(start, stop, n, k - from);
      k := k + 1;
    }
  }

  /** `env[from:to] = level`, the slice cut at the end of the buffer; nothing is written when `to <= from`. */
  method FillLevel(env: array<real>, from: int, to: int, level: real)
    requires 0 <= from && 0 <= to
    modifies env
    ensures forall j :: from <= j < to && j < env.Length ==> env[j] == level
    ensures forall j :: 0 <= j < env.Length && !(from <= j < to) ==> env[j] == old(env[j])
  {
    var k := from;
    while k < Min(to, env.Length)
      invariant from <= k <= Max(from, Min(to, env.Length))
      invariant forall j :: from <= j < k && j < to && j < env.Length ==> env[j] == level
      invariant forall j :: 0 <= j < env.Length && !(from <= j < k) ==> env[j] == old(env[j])
    {
      env[k] := level;
      k := k + 1;
    }
  }

  /**
   * `EnvelopeGenerator.adsr`: allocate a zeroed buffer and overwrite it phase
   * by phase, attack, decay, sustain, then release.
   */
  method Adsr(attack: real, decay: real, sustainLevel: real, release: real, duration: real, sampleRate: int)
    returns (r: Result<seq<real>, ArrayError>)
    ensures r == AdsrResult(attack, decay, sustainLevel, release, duration, sampleRate)
  {
    var p := PhasesOf(attack, decay, release, duration, sampleRate);
    if PhasesCheck(p).Some? {
      return Failure(PhasesCheck(p).value);
    }
    var total, a, d, rel := p.total, p.attack, p.decay, p.release;
    var sustain := total - a - d - rel;
    var env := new real[total](_ => 0.0);
    FillRamp(env, 0, a, 0.0, 1.0);                  // attack, 0 -> 1
    FillRamp(env, a, d, 1.0, sustainLevel);         // decay, 1 -> sustain level
    FillLevel(env, a + d, SliceBound(a + d + sustain, total), sustainLevel);  // sustain, empty when phases overlap
    assert forall j :: 0 <= j < total ==> env[j] == BeforeRelease(p, sustainLevel, j);
    FillRamp(env, SliceBound(total - rel, total), rel, sustainLevel, 0.0);    // release, overwriting the tail
    assert forall j :: 0 <= j < total ==> env[j] == EnvelopeValue(p, sustainLevel, j);
    assert env[..] == Envelope(p, sustainLevel);
    return Success(env[..]);
  }

  /**
   * A zero-length envelope whose attack rounds to one sample: the one-point
   * ramp broadcasts into the empty slice and `adsr` returns an empty envelope.
   */
  lemma OnePointAttackOnEmptyBuffer()
    ensures AdsrResult(1.0 / 44100.0, 0.0, 0.5, 0.0, 0.0, 44100) == Success([])
  {
    assert 44100.0 * (1.0 / 44100.0) == 1 as real;
    TruncOfInt(1);
    TruncOfInt(0);
    assert 44100.0 * 0.0 == 0 as real;
  }

  // ---------------------------------------------------------------------
  // Properties of the envelope
  // ---------------------------------------------------------------------

  /** Phases that do not overlap: attack, decay and release fit in the total. */
  predicate Disjoint(p: Phases)
  {
    Fits(p) && p.attack + p.decay + p.release <= p.total
  }

  /** Sustain is whatever the three ramps leave over. */
  lemma SustainIsRemainder(p: Phases, sustainLevel: real, k: int)
    requires Disjoint(p) && p.attack + p.decay <= k < p.total - p.release
    ensures Envelope(p, sustainLevel)[k] == sustainLevel
  {
  }

  /** The attack ends at full level. */
  lemma AttackReachesOne(p: Phases, sustainLevel: real)
    requires Disjoint(p) && p.attack >= 2
    ensures Envelope(p, sustainLevel)[p.attack - 1] == 1.0
  {
    LinPointLast(0.0, 1.0, p.attack);
  }

  /** The attack never goes down. */
  lemma AttackRises(p: Phases, sustainLevel: real, i: int, j: int)
    requires Disjoint(p) && 0 <= i <= j < p.attack
    ensures Envelope(p, sustainLevel)[i] <= Envelope(p, sustainLevel)[j]
  {
    LinPointMonotone(0.0, 1.0, p.attack, i, j);
  }

  /** The decay starts at full level and ends at the sustain level. */
  lemma DecayEnds(p: Phases, sustainLevel: real)
    requires Disjoint(p) && p.decay >= 2
    ensures Envelope(p, sustainLevel)[p.attack] == 1.0
    ensures Envelope(p, sustainLevel)[p.attack + p.decay - 1] == sustainLevel
  {
    LinPointLast(1.0, sustainLevel, p.decay);
  }

  /** The release starts at the sustain level and the envelope ends at zero. */
  lemma ReleaseEnds(p: Phases, sustainLevel: real)
    requires Fits(p) && p.release >= 2
    ensures Envelope(p, sustainLevel)[p.total - p.release] == sustainLevel
    ensures Envelope(p, sustainLevel)[p.total - 1] == 0.0
  {
    LinPointLast(sustainLevel, 0.0, p.release);
  }

  /** With the sustain level in [0, 1], so is every value, overlapping phases included. */
  lemma EnvelopeInUnitRange(p: Phases, sustainLevel: real, k: int)
    requires Fits(p) && 0.0 <= sustainLevel <= 1.0 && 0 <= k < p.total
    ensures 0.0 <= Envelope(p, sustainLevel)[k] <= 1.0
  {
    if ReleaseStart(p) <= k {
      LinPointBetween(sustainLevel, 0.0, p.release, k - ReleaseStart(p));
    } else if k < p.attack {
      LinPointBetween(0.0, 1.0, p.attack, k);
    } else if k < p.attack + p.decay {
      LinPointBetween(1.0, sustainLevel, p.decay, k - p.attack);
    }
  }

  /** The test's parameters at 44100 Hz: 4410, 8820 and 13230 samples fit in 44100. */
  lemma AdsrExampleFits()
    ensures PhasesOf(0.1, 0.2, 0.3, 1.0, 44100) == Phases(44100, 4410, 8820, 13230)
    ensures Disjoint(PhasesOf(0.1, 0.2, 0.3, 1.0, 44100))
  {
    TruncOfInt(44100);
    TruncOfInt(4410);
    TruncOfInt(8820);
    TruncOfInt(13230);
  }
}
