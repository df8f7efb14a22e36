/**
 * `SpatialProcessor` of `src/techno/processing/spatial.py`: the tapped echo
 * delay and the stereo widener. Samples are the int16 values of the
 * segment read as exact reals; the widener is shared with the older copy
 * of the processor (see the LegacySpatial module).
 */
module Spatial {
  import opened Numeric
  import opened Pcm

  /** `feedback ** k` for a whole exponent. */
  function Power(f: real, k: nat): real
  {
    if k == 0 then 1.0 else f * Power(f, k - 1)
  }

  /** `int((delay_ms / 1000) * sample_rate)`: the delay in samples, truncated toward zero. */
  function DelaySamples(delayMs: real, frameRate: int): (r: int)
    ensures delayMs / 1000.0 * frameRate as real >= 0.0 ==>
      r as real <= delayMs / 1000.0 * frameRate as real < r as real + 1.0
    ensures delayMs / 1000.0 * frameRate as real < 0.0 ==>
      r as real - 1.0 < delayMs / 1000.0 * frameRate as real <= r as real
  {
    TruncMul(delayMs / 1000.0, frameRate as real)
  }

  lemma DelaySamplesNonneg(delayMs: real, frameRate: int)
    requires 0.0 <= delayMs && 0 <= frameRate
    ensures DelaySamples(delayMs, frameRate) >= 0
  {
    TruncMulNonneg(delayMs / 1000.0, frameRate as real);
  }

  /** A shift numpy accepts for `w[d:] += x[:-d]`: a positive one, or nothing to shift. */
  predicate ShiftOk(d: int, n: nat)
  {
    d > 0 || (d == 0 && n == 0)
  }

  /**
   * The delay runs to completion. Without feedback the single echo needs a
   * usable shift (`samples[:-0]` is empty and numpy refuses to add it to the
   * whole buffer). With feedback a zero shift adds every tap onto the dry
   * sample itself, and the loop ends only once the taps fade, which needs a
   * feedback below 1.
   */
  predicate DelayShiftOk(f: real, d: int, n: nat)
  {
    ShiftOk(d, n) || (d == 0 && f != 0.0 && f < 1.0)
  }

  /** A number of taps after which `f^k` is below 1e-4, for 0 < f < 1. */
  function QuietBound(f: real): nat
    requires 0.0 < f < 1.0
  {
    var x := 10000.0 * f / (1.0 - f);
    DivNonneg(10000.0 * f, 1.0 - f);
    TruncShrinks(x);
    Trunc(x) + 1
  }

  /** `f + k (1 - f)`: `f` times the Bernoulli lower bound `1 + k (1/f - 1)` on `(1/f)^k`. */
  function DecayWeight(f: real, k: nat): real
  {
    f + k as real * (1.0 - f)
  }

  /** `f^k (f + k (1 - f)) <= f`: powers of a fraction fall at least as fast as `1 / (1 + k (1/f - 1))`. */
  lemma {:induction false} PowerDecayBound(f: real, k: nat)
    requires 0.0 < f < 1.0
    ensures 0.0 <= Power(f, k) <= 1.0
    ensures Power(f, k) * DecayWeight(f, k) <= f
  {
    if k > 0 {
      PowerDecayBound(f, k - 1);
      WeightStep(f, k);
      DecayStep(f, Power(f, k - 1), Power(f, k), DecayWeight(f, k - 1), DecayWeight(f, k));
    }
  }

  /** Equal factors give equal products. */
  lemma MulCongruent(a: real, b: real, x: real, y: real)
    requires a == b && x == y
    ensures a * x == b * y
  {
  }

  /** Each tap adds `1 - f` to the weight. */
  lemma WeightStep(f: real, k: nat)
    requires k >= 1
    ensures DecayWeight(f, k) == DecayWeight(f, k - 1) + (1.0 - f)
  {
    assert k as real == (k - 1) as real + 1.0;
    assert k as real * (1.0 - f) == (k - 1) as real * (1.0 - f) + (1.0 - f);
  }

  /**
   * One more factor of `f` keeps the bound of `PowerDecayBound`: for `p1 = f p0` and
   * `w1 = w0 + 1 - f`, `p0 w0 <= f` gives `p1 w1 <= f`.
   */
  lemma DecayStep(f: real, p0: real, p1: real, w0: real, w1: real)
    requires 0.0 < f < 1.0 && 0.0 <= p0 <= 1.0 && p0 * w0 <= f
    requires p1 == f * p0 && w1 == w0 + (1.0 - f)
    ensures 0.0 <= p1 <= 1.0
    ensures p1 * w1 <= f
  {
    MulMonotone(f, 0.0, p0);
    MulMonotone(f, p0, 1.0);
    MulCongruent(p1, f * p0, w1, w0 + (1.0 - f));
    Expand(f, p0, w0, 1.0 - f);
    DecayCombine(f, 1.0 - f, p0 * w0, f * p0);
  }

  /** `(x y)(z + c) = x (y z) + c (x y)`. */
  lemma Expand(x: real, y: real, z: real, c: real)
    ensures (x * y) * (z + c) == x * (y * z) + c * (x * y)
  {
  }

  /** With `a, b <= f` and weights `f` and `c = 1 - f`, the mix `f a + c b` stays at most `f`. */
  lemma DecayCombine(f: real, c: real, a: real, b: real)
    requires 0.0 < f < 1.0 && c == 1.0 - f && a <= f && b <= f
    ensures f * a + c * b <= f
  {
    MulMonotone(f, a, f);
    MulMonotone(c, b, f);
    AddMonotone(f * a, c * b, f * f, c * f);
    assert f * f + c * f == (f + c) * f;
    assert f + c == 1.0;
  }

  lemma AddMonotone(a: real, b: real, c: real, d: real)
    requires a <= c && b <= d
    ensures a + b <= c + d
  {
  }

  /** From `QuietBound(f)` taps on, a fraction's power is below the loop's 1e-4 threshold. */
  lemma QuietAfterBound(f: real, k: nat)
    requires 0.0 < f < 1.0 && k >= QuietBound(f)
    ensures Power(f, k) < 0.0001
  {
    QuietWeight(f, k);
    PowerDecayBound(f, k);
    SmallPower(f, Power(f, k), DecayWeight(f, k));
  }

  /** Past `QuietBound(f)` the weight `f + k (1 - f)` exceeds `10001 f`. */
  lemma QuietWeight(f: real, k: nat)
    requires 0.0 < f < 1.0 && k >= QuietBound(f)
    ensures DecayWeight(f, k) > 10001.0 * f
  {
    assert (10000.0 * f / (1.0 - f)) * (1.0 - f) == 10000.0 * f;
    assert k as real > 10000.0 * f / (1.0 - f);
    MulSign(k as real - 10000.0 * f / (1.0 - f), 1.0 - f);
  }

  /** A power whose product with a weight above `10001 f` is at most `f` is below 1e-4. */
  lemma SmallPower(f: real, p: real, w: real)
    requires 0.0 < f && 0.0 <= p && p * w <= f && w > 10001.0 * f
    ensures p < 0.0001
  {
    if p >= 0.0001 {
      MulMonotone(p, 10001.0 * f, w);
      MulMonotone(10001.0 * f, 0.0001, p);
      assert false;
    }
  }

  // ---------------------------------------------------------------------
  // Shifted copies
  // ---------------------------------------------------------------------

  /** Element `i` of `w[shift:] += x[:len - shift] * gain`. */
  function ShiftedSample(w: seq<real>, x: seq<real>, shift: nat, gain: real, i: int): real
    requires |w| == |x| && 0 <= i < |w|
  {
    if i >= shift then w[i] + x[i - shift] * gain else w[i]
  }

  /** `w[shift:] += x[:len - shift] * gain`; a shift past the end adds nothing. */
  function AddShifted(w: seq<real>, x: seq<real>, shift: nat, gain: real): (r: seq<real>)
    requires |w| == |x|
    ensures |r| == |w|
    ensures forall i :: 0 <= i < |w| ==> r[i] == ShiftedSample(w, x, shift, gain, i)
  {
    seq(|w|, i requires 0 <= i < |w| => ShiftedSample(w, x, shift, gain, i))
  }

  /** Adds the copy of `x` shifted by `shift` and scaled by `gain` into `wet`, in place. */
  method AddTap(wet: array<real>, x: seq<real>, shift: nat, gain: real)
    requires wet.Length == |x|
    modifies wet
    ensures wet[..] == AddShifted(old(wet[..]), x, shift, gain)
  {
    ghost var w := wet[..];
    var i := shift;
    while i < wet.Length
      invariant shift <= i
      invariant forall j :: 0 <= j < wet.Length ==>
        wet[j] == if shift <= j < i then ShiftedSample(w, x, shift, gain, j) else w[j]
    {
      wet[i] := wet[i] + x[i - shift] * gain;
      i := i + 1;
    }
  }

  // ---------------------------------------------------------------------
  // Delay
  // ---------------------------------------------------------------------

  /** The tap loop stops at tap `n`: it would start past the end, or it is quieter than 1e-4. */
  predicate Stops(f: real, d: nat, n: nat, len: nat)
    requires n >= 1
  {
    n * d >= len || Power(f, n - 1) < 0.0001
  }

  /**
   * A bound on the taps still to come at tap `n`: the room left for a
   * positive shift; with a zero shift, one more tap after a positive power
   * of a negative feedback, or the taps until a fraction fades.
   */
  function TapsLeft(f: real, d: nat, len: nat, n: nat): int
    requires n >= 1
  {
    if d > 0 then len - n * d
    else if f < 0.0 then (if Power(f, n - 1) > 0.0 then 1 else 0)
    else if 0.0 < f < 1.0 then QuietBound(f) - (n - 1)
    else 0
  }

  /** A tap at which the loop does not stop leaves fewer taps to come. */
  lemma TapsLeftDecreases(f: real, d: nat, len: nat, n: nat)
    requires n >= 1 && DelayShiftOk(f, d, len) && !Stops(f, d, n, len)
    ensures 0 <= TapsLeft(f, d, len, n) && TapsLeft(f, d, len, n + 1) < TapsLeft(f, d, len, n)
  {
    if d > 0 {
      assert (n + 1) * d == n * d + d;
    } else if f < 0.0 {
      NegativePowerStep(f, n - 1);
    } else {
      assert 0.0 < f < 1.0;
      if n - 1 >= QuietBound(f) {
        QuietAfterBound(f, n - 1);
      }
    }
  }

  /** After a positive power of a negative feedback comes a negative one. */
  lemma NegativePowerStep(f: real, k: nat)
    requires f < 0.0 && Power(f, k) > 0.0
    ensures Power(f, k + 1) < 0.0
  {
    MulSign(f, Power(f, k));
  }

  /** The first tap, counting from `n`, at which the loop stops. */
  function FirstStop(f: real, d: nat, len: nat, n: nat): (stop: nat)
    requires n >= 1 && DelayShiftOk(f, d, len)
    ensures n <= stop && Stops(f, d, stop, len)
    ensures forall m :: n <= m < stop ==> !Stops(f, d, m, len)
    decreases TapsLeft(f, d, len, n)
  {
    if Stops(f, d, n, len) then n
    else
      TapsLeftDecreases(f, d, len, n);
      FirstStop(f, d, len, n + 1)
  }

  /** The dry signal with taps `1 .. n - 1` added: tap `m` is `x` shifted by `m * d`, scaled by `f^(m-1)`. */
  function Taps(x: seq<real>, f: real, d: nat, n: nat): (w: seq<real>)
    ensures |w| == |x|
  {
    if n <= 1 then x
    else AddShifted(Taps(x, f, d, n - 1), x, (n - 1) * d, Power(f, n - 2))
  }

  /** What tap `m` contributes to sample `i`. */
  function TapAt(x: seq<real>, f: real, d: nat, m: nat, i: int): real
    requires 1 <= m && 0 <= i < |x|
  {
    if i >= m * d then Power(f, m - 1) * x[i - m * d] else 0.0
  }

  /** The echoes of taps `1 .. n - 1` at sample `i`. */
  function EchoSum(x: seq<real>, f: real, d: nat, n: nat, i: int): real
    requires 0 <= i < |x|
  {
    if n <= 1 then 0.0 else EchoSum(x, f, d, n - 1, i) + TapAt(x, f, d, n - 1, i)
  }

  /** Sample `i` of the tapped signal is the dry sample plus every echo that reaches it. */
  lemma {:induction false} TapsClosedForm(x: seq<real>, f: real, d: nat, n: nat, i: int)
    requires 0 <= i < |x|
    ensures Taps(x, f, d, n)[i] == x[i] + EchoSum(x, f, d, n, i)
  {
    if n > 1 {
      TapsClosedForm(x, f, d, n - 1, i);
      assert Taps(x, f, d, n)[i] == ShiftedSample(Taps(x, f, d, n - 1), x, (n - 1) * d, Power(f, n - 2), i);
    }
  }

  /**
   * The wet signal: with no feedback one full-strength echo `d` samples
   * late; otherwise the taps up to the first stop.
   */
  function Wet(x: seq<real>, f: real, d: nat): (w: seq<real>)
    requires DelayShiftOk(f, d, |x|)
    ensures |w| == |x|
    ensures f == 0.0 ==> forall i :: 0 <= i < |x| ==> w[i] == if i >= d then x[i] + x[i - d] else x[i]
  {
    if f == 0.0 then
      if d < |x| then AddShifted(x, x, d, 1.0) else x
    else Taps(x, f, d, FirstStop(f, d, |x|, 1))
  }

  /** `x * (1 - mix) + w * mix` for one sample. */
  function MixSample(x: real, w: real, mix: real): real
  {
    x * (1.0 - mix) + w * mix
  }

  /** The dry/wet blend. */
  function Mixed(x: seq<real>, w: seq<real>, mix: real): (r: seq<real>)
    requires |w| == |x|
    ensures |r| == |x|
    ensures forall i :: 0 <= i < |x| ==> r[i] == MixSample(x[i], w[i], mix)
  {
    seq(|x|, i requires 0 <= i < |x| => MixSample(x[i], w[i], mix))
  }

  /** `np.clip(v, -32768, 32767).astype(np.int16)` over a buffer. */
  function ClipAll(v: seq<real>): (r: seq<int>)
    ensures |r| == |v| && AllInt16(r)
    ensures forall i :: 0 <= i < |v| ==> r[i] == ClipToInt16(v[i])
  {
    seq(|v|, i requires 0 <= i < |v| => ClipToInt16(v[i]))
  }

  /** The delay is defined: a usable shift, and a signal to normalise unless the clipped branch is taken. */
  predicate DelayDefined(x: seq<real>, f: real, d: nat, mix: real)
  {
    DelayShiftOk(f, d, |x|) && (!(f == 0.0 && mix == 1.0) ==> HasSignal(Mixed(x, Wet(x, f, d), mix)))
  }

  /**
   * What `delay` returns for samples `x`: with no feedback and a fully wet
   * mix the dry signal plus one echo, clipped; otherwise the blend
   * peak-normalised to 32767.
   */
  function DelayOutput(x: seq<real>, f: real, d: nat, mix: real): (r: seq<int>)
    requires DelayDefined(x, f, d, mix)
    ensures |r| == |x|
  {
    if f == 0.0 && mix == 1.0 then ClipAll(Wet(x, f, d))
    else NormaliseToInt16(Mixed(x, Wet(x, f, d), mix))
  }

  /** The tap loop of `delay`: adds decaying taps into `wet` until the first stop. */
  method AddEchoes(wet: array<real>, x: seq<real>, f: real, d: nat)
    requires wet.Length == |x| && wet[..] == x && DelayShiftOk(f, d, |x|)
    modifies wet
    ensures wet[..] == Taps(x, f, d, FirstStop(f, d, |x|, 1))
  {
    var n := 1;
    while true
      invariant 1 <= n && wet[..] == Taps(x, f, d, n)
      invariant FirstStop(f, d, |x|, 1) == FirstStop(f, d, |x|, n)
      decreases TapsLeft(f, d, |x|, n)
    {
      var shift := n * d;
      if shift >= |x| {
        break;
      }
      var attenuation := Power(f, n - 1);
      if attenuation < 0.0001 {
        break;
      }
      AddTap(wet, x, shift, attenuation);
      TapsLeftDecreases(f, d, |x|, n);
      n := n + 1;
    }
  }

  /** Builds the wet buffer: one echo without feedback, decaying taps with it. */
  method BuildWet(x: seq<real>, f: real, d: nat) returns (wet: array<real>)
    requires DelayShiftOk(f, d, |x|)
    ensures wet[..] == Wet(x, f, d)
  {
    wet := new real[|x|](i => if 0 <= i < |x| then x[i] else 0.0);
    assert wet[..] == x;
    if f == 0.0 {
      if d < |x| {
        AddTap(wet, x, d, 1.0);
      }
    } else {
      AddEchoes(wet, x, f, d);
    }
  }

  /** `SpatialProcessor.delay`, mono at the input frame rate. */
  method Delay(audio: Pcm, delayMs: real, feedback: real, mix: real) returns (r: Pcm)
    requires 0.0 <= delayMs && 0 <= audio.frameRate
    requires DelaySamples(delayMs, audio.frameRate) >= 0
    requires DelayDefined(ToReals(audio.samples), feedback, DelaySamples(delayMs, audio.frameRate), mix)
    ensures r == Pcm(DelayOutput(ToReals(audio.samples), feedback, DelaySamples(delayMs, audio.frameRate), mix),
                     audio.frameRate, 1)
  {
    var samples := ToReals(audio.samples);
    var d: nat := DelaySamples(delayMs, audio.frameRate);
    var wet := BuildWet(samples, feedback, d);
    var result: seq<int>;
    if feedback == 0.0 && mix == 1.0 {
      var combined := BuildWet(samples, 0.0, d);
      result := ClipAll(combined[..]);
    } else {
      result := NormaliseToInt16(Mixed(samples, wet[..], mix));
    }
    return Pcm(result, audio.frameRate, 1);
  }

  /** The first echo is always at full strength, so with a delay shorter than the buffer there are at least two taps. */
  lemma FirstEchoAlwaysAdded(f: real, d: nat, len: nat)
    requires DelayShiftOk(f, d, len) && d < len
    ensures FirstStop(f, d, len, 1) >= 2
  {
    assert !Stops(f, d, 1, len);
  }

  /** `1 + f + ... + f^(j-1)`. */
  function Geometric(f: real, j: nat): real
  {
    if j == 0 then 0.0 else Geometric(f, j - 1) + Power(f, j - 1)
  }

  /** With a zero shift every tap lands on the dry sample itself: the echoes are `x[i]` times a geometric sum. */
  lemma {:induction false} ZeroShiftEchoSum(x: seq<real>, f: real, n: nat, i: int)
    requires n >= 1 && 0 <= i < |x|
    ensures EchoSum(x, f, 0, n, i) == Geometric(f, n - 1) * x[i]
  {
    if n > 1 {
      ZeroShiftEchoSum(x, f, n - 1, i);
      assert TapAt(x, f, 0, n - 1, i) == Power(f, n - 2) * x[i];
    }
  }

  /** With a zero shift, `n` taps scale each dry sample by `1 + f + ... + f^(n-2)` plus the sample itself. */
  lemma ZeroShiftTaps(x: seq<real>, f: real, n: nat, i: int)
    requires n >= 1 && 0 <= i < |x|
    ensures Taps(x, f, 0, n)[i] == x[i] + Geometric(f, n - 1) * x[i]
  {
    TapsClosedForm(x, f, 0, n, i);
    ZeroShiftEchoSum(x, f, n, i);
  }

  /** With no delay and a feedback below 1 the wet signal is the taps up to the first stop. */
  lemma WetOfZeroShift(x: seq<real>, f: real)
    requires f != 0.0 && f < 1.0
    ensures Wet(x, f, 0) == Taps(x, f, 0, FirstStop(f, 0, |x|, 1))
  {
  }

  /**
   * With no delay and a feedback below 1, every wet sample is the dry one
   * plus `1 + f + ... + f^(n-2)` times itself: one term per tap the loop
   * adds before the first stop `n`.
   */
  lemma ZeroShiftWet(x: seq<real>, f: real, n: nat, i: int)
    requires f != 0.0 && f < 1.0 && 0 <= i < |x|
    requires n == FirstStop(f, 0, |x|, 1)
    ensures Wet(x, f, 0)[i] == x[i] + Geometric(f, n - 1) * x[i]
  {
    WetOfZeroShift(x, f);
    ZeroShiftTaps(x, f, n, i);
  }

  /** With a fully wet mix the blend is the wet signal itself. */
  lemma FullyWetMixIsWet(x: seq<real>, w: seq<real>)
    requires |w| == |x|
    ensures Mixed(x, w, 1.0) == w
  {
  }

  /** With no feedback and a fully wet mix the output is the unnormalised blend, clipped. */
  lemma UnnormalisedBranch(x: seq<real>, d: nat)
    requires ShiftOk(d, |x|)
    ensures DelayOutput(x, 0.0, d, 1.0) == ClipAll(Mixed(x, Wet(x, 0.0, d), 1.0))
  {
    FullyWetMixIsWet(x, Wet(x, 0.0, d));
  }

  // ---------------------------------------------------------------------
  // Stereo width
  // ---------------------------------------------------------------------

  /** `int(0.015 * frame_rate)`: the Haas delay of 15 ms. */
  function HaasDelay(frameRate: int): int
  {
    TruncMul(0.015, frameRate as real)
  }

  /** `right[d:] = samples[:-d] * 0.8`, zeros before. */
  function HaasRight(x: seq<real>, d: nat): (r: seq<real>)
    ensures |r| == |x|
    ensures forall i :: 0 <= i < |x| ==> r[i] == if i >= d then x[i - d] * 0.8 else 0.0
  {
    seq(|x|, i requires 0 <= i < |x| => if i >= d then x[i - d] * 0.8 else 0.0)
  }

  /** Fills the right channel by the slice assignment of `stereo_width`. */
  method DelayedRight(x: seq<real>, d: nat) returns (right: array<real>)
    ensures right[..] == HaasRight(x, d)
  {
    right := new real[|x|](i => 0.0);
    var i := d;
    while i < |x|
      invariant d <= i
      invariant forall j :: 0 <= j < |x| ==> right[j] == if d <= j < i then x[j - d] * 0.8 else 0.0
    {
      right[i] := x[i - d] * 0.8;
      i := i + 1;
    }
  }

  /** `a * (1 - c) + b * c` for one sample. */
  function Blend(a: real, b: real, c: real): real
  {
    a * (1.0 - c) + b * c
  }

  /** `np.column_stack((left, right)).flatten()`. */
  function Interleave(left: seq<real>, right: seq<real>): (s: seq<real>)
    requires |left| == |right|
    ensures |s| == 2 * |left|
    ensures forall i :: 0 <= i < |left| ==> s[2 * i] == left[i] && s[2 * i + 1] == right[i]
  {
    if |left| == 0 then []
    else [left[0], right[0]] + Interleave(left[1..], right[1..])
  }

  /** The pseudo-stereo pair of a mono buffer before interleaving. */
  function MonoPair(x: seq<real>, d: nat, width: real): (lr: (seq<real>, seq<real>))
    ensures |lr.0| == |x| && |lr.1| == |x|
  {
    var right := HaasRight(x, d);
    if width != 1.0 then
      var c := (width - 1.0) * 0.3;
      (seq(|x|, i requires 0 <= i < |x| => Blend(x[i], right[i], c)),
       seq(|x|, i requires 0 <= i < |x| => Blend(right[i], x[i], c)))
    else (x, right)
  }

  /** Left and right channels of an interleaved stereo buffer. */
  function Channel(s: seq<real>, c: nat): (r: seq<real>)
    requires |s| % 2 == 0 && c < 2
    ensures |r| == |s| / 2
    ensures forall i :: 0 <= i < |s| / 2 ==> r[i] == s[2 * i + c]
  {
    seq(|s| / 2, i requires 0 <= i < |s| / 2 => s[2 * i + c])
  }

  /** Mid/side widening: `mid +- side * width` with `mid = (l + r) / 2`, `side = (l - r) / 2`. */
  function MidSide(l: real, r: real, width: real, c: nat): real
  {
    var mid := (l + r) / 2.0;
    var side := (l - r) / 2.0 * width;
    if c == 0 then mid + side else mid - side
  }

  /** The widened stereo pair of an interleaved stereo buffer before interleaving. */
  function StereoPair(s: seq<real>, width: real): (lr: (seq<real>, seq<real>))
    requires |s| % 2 == 0
    ensures |lr.0| == |s| / 2 && |lr.1| == |s| / 2
  {
    var l := Channel(s, 0);
    var r := Channel(s, 1);
    (seq(|l|, i requires 0 <= i < |l| => MidSide(l[i], r[i], width, 0)),
     seq(|l|, i requires 0 <= i < |l| => MidSide(l[i], r[i], width, 1)))
  }

  /** The shapes `stereo_width` accepts: a usable Haas delay for mono, whole frames for stereo. */
  predicate WidthShapeOk(audio: Pcm)
  {
    if audio.channels == 1 then HaasDelay(audio.frameRate) >= 0 && ShiftOk(HaasDelay(audio.frameRate), |audio.samples|)
    else |audio.samples| % 2 == 0
  }

  /** The interleaved stereo buffer before normalisation. */
  function Widened(audio: Pcm, width: real): (s: seq<real>)
    requires WidthShapeOk(audio)
  {
    var x := ToReals(audio.samples);
    if audio.channels == 1 then
      var lr := MonoPair(x, HaasDelay(audio.frameRate), width);
      Interleave(lr.0, lr.1)
    else
      var lr := StereoPair(x, width);
      Interleave(lr.0, lr.1)
  }

  /** The mono branch of `stereo_width`: the Haas right channel, the cross-mix when the width is not 1, interleaved. */
  method MonoStereo(x: seq<real>, d: nat, width: real) returns (stereo: seq<real>)
    ensures stereo == Interleave(MonoPair(x, d, width).0, MonoPair(x, d, width).1)
  {
    var right := DelayedRight(x, d);
    var left := x;
    var rightNow := right[..];
    if width != 1.0 {
      var crossMix := (width - 1.0) * 0.3;
      var leftNew := seq(|x|, i requires 0 <= i < |x| => Blend(left[i], rightNow[i], crossMix));
      var rightNew := seq(|x|, i requires 0 <= i < |x| => Blend(rightNow[i], left[i], crossMix));
      assert leftNew == MonoPair(x, d, width).0;
      assert rightNew == MonoPair(x, d, width).1;
      left, rightNow := leftNew, rightNew;
    }
    stereo := Interleave(left, rightNow);
  }

  /** `SpatialProcessor.stereo_width`: always two channels, peak-normalised to 32767. */
  method StereoWidth(audio: Pcm, width: real) returns (r: Pcm)
    requires WidthShapeOk(audio) && HasSignal(Widened(audio, width))
    ensures r == Pcm(NormaliseToInt16(Widened(audio, width)), audio.frameRate, 2)
  {
    var x := ToReals(audio.samples);
    var stereo: seq<real>;
    if audio.channels == 1 {
      stereo := MonoStereo(x, HaasDelay(audio.frameRate), width);
    } else {
      var pair := StereoPair(x, width);
      stereo := Interleave(pair.0, pair.1);
    }
    return Pcm(NormaliseToInt16(stereo), audio.frameRate, 2);
  }

  /** Mono input becomes `2n` interleaved samples: left is the dry signal at width 1, right the Haas echo at 0.8. */
  lemma MonoWidthLayout(audio: Pcm, i: int)
    requires audio.channels == 1 && WidthShapeOk(audio) && 0 <= i < |audio.samples|
    ensures |Widened(audio, 1.0)| == 2 * |audio.samples|
    ensures Widened(audio, 1.0)[2 * i] == audio.samples[i] as real
    ensures Widened(audio, 1.0)[2 * i + 1] ==
      if i >= HaasDelay(audio.frameRate) then audio.samples[i - HaasDelay(audio.frameRate)] as real * 0.8 else 0.0
  {
  }

  /** At width 1 the mid/side round trip gives back both channels exactly. */
  lemma MidSideUnitWidth(l: real, r: real)
    ensures MidSide(l, r, 1.0, 0) == l && MidSide(l, r, 1.0, 1) == r
  {
  }

  /** At width 1 a stereo buffer comes back unchanged before normalisation. */
  lemma StereoUnitWidthIsIdentity(audio: Pcm)
    requires audio.channels != 1 && |audio.samples| % 2 == 0
    ensures Widened(audio, 1.0) == ToReals(audio.samples)
  {
    var x := ToReals(audio.samples);
    var lr := StereoPair(x, 1.0);
    var s := Interleave(lr.0, lr.1);
    forall k | 0 <= k < |x|
      ensures s[k] == x[k]
    {
      var i := k / 2;
      MidSideUnitWidth(Channel(x, 0)[i], Channel(x, 1)[i]);
      assert lr.0[i] == x[2 * i] && lr.1[i] == x[2 * i + 1];
      assert s[2 * i] == lr.0[i] && s[2 * i + 1] == lr.1[i];
      if k % 2 == 0 {
        assert k == 2 * i;
      } else {
        assert k == 2 * i + 1;
      }
    }
  }

  /** At width 1 a mono buffer with signal keeps it, so the normalisation is defined. */
  lemma MonoUnitWidthHasSignal(audio: Pcm)
    requires audio.channels == 1 && WidthShapeOk(audio) && HasSignal(ToReals(audio.samples))
    ensures HasSignal(Widened(audio, 1.0))
  {
    var x := ToReals(audio.samples);
    var i :| 0 <= i < |x| && x[i] != 0.0;
    MonoWidthLayout(audio, i);
  }
}
