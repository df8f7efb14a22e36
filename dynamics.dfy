/**
 * `src/techno/processing/dynamics.py`: the per-sample peak compressor and the
 * hard limiter. Thresholds and ceilings arrive already converted from dB to
 * linear gain (`10 ** (db / 20)` is not modelled).
 */
module Dynamics {
  import opened Numeric
  import opened Wrappers
  import opened Pcm

  datatype DynamicsError =
    | ZeroRatio  // `1 / ratio` with ratio = 0, reached once a sample is over the threshold

  /** `samples / 32768.0`: int16 samples mapped into [-1, 1). */
  function Unscaled(s: seq<int>): (x: seq<real>)
    ensures |x| == |s|
    ensures forall i :: 0 <= i < |s| ==> x[i] == s[i] as real / FullScale
  {
    seq(|s|, i requires 0 <= i < |s| => s[i] as real / FullScale)
  }

  /** Some sample is louder than the threshold. */
  predicate HasLoudSample(x: seq<real>, threshold: real)
  {
    exists i :: 0 <= i < |x| && Abs(x[i]) > threshold
  }

  /** The compressor's transfer curve for one normalised sample. */
  function CompressSample(x: real, threshold: real, ratio: real): real
    requires Abs(x) > threshold ==> ratio != 0.0
  {
    if Abs(x) > threshold then
      var excess := Abs(x) - threshold;
      var reduction := excess * (1.0 - 1.0 / ratio);
      (if x >= 0.0 then 1.0 else -1.0) * (threshold + excess - reduction)
    else x
  }

  /** `np.clip(compressed * 32768.0, -32768, 32767).astype(np.int16)`. */
  function Rescaled(y: seq<real>): (s: seq<int>)
    ensures |s| == |y| && AllInt16(s)
    ensures forall i :: 0 <= i < |y| ==> s[i] == ClipToInt16(y[i] * FullScale)
  {
    seq(|y|, i requires 0 <= i < |y| => ClipToInt16(y[i] * FullScale))
  }

  /** Every sample through the transfer curve. */
  function CompressAll(x: seq<real>, threshold: real, ratio: real): (y: seq<real>)
    requires ratio != 0.0 || !HasLoudSample(x, threshold)
    ensures |y| == |x|
    ensures forall i :: 0 <= i < |x| ==> y[i] == CompressSample(x[i], threshold, ratio)
  {
    seq(|x|, i requires 0 <= i < |x| => CompressSample(x[i], threshold, ratio))
  }

  /** What `compress` returns: the error `1 / 0` raises, or the compressed mono segment. */
  function CompressResult(audio: Pcm, threshold: real, ratio: real): Result<Pcm, DynamicsError>
  {
    var x := Unscaled(audio.samples);
    if ratio == 0.0 && HasLoudSample(x, threshold) then Failure(ZeroRatio)
    else Success(Pcm(Rescaled(CompressAll(x, threshold, ratio)), audio.frameRate, 1))
  }

  /**
   * `DynamicsProcessor.compress`: copy the normalised samples, overwrite each
   * one over the threshold, then convert back. Attack and release are
   * accepted and ignored, as in the source.
   */
  method Compress(audio: Pcm, threshold: real, ratio: real, attackMs: real, releaseMs: real)
    returns (r: Result<Pcm, DynamicsError>)
    ensures r == CompressResult(audio, threshold, ratio)
  {
    var samples := Unscaled(audio.samples);
    var compressed := new real[|samples|](i => if 0 <= i < |samples| then samples[i] else 0.0);
    assert compressed[..] == samples;
    var ok := CompressInPlace(compressed, threshold, ratio);
    if !ok {
      return Failure(ZeroRatio);
    }
    return Success(Pcm(Rescaled(compressed[..]), audio.frameRate, 1));
  }

  /**
   * The loop of `compress`: each sample over the threshold is replaced by its
   * compressed value; the division by the ratio fails on the first loud
   * sample when the ratio is 0, and `ok` is false exactly then.
   */
  method CompressInPlace(a: array<real>, threshold: real, ratio: real) returns (ok: bool)
    modifies a
    ensures ok <==> ratio != 0.0 || !HasLoudSample(old(a[..]), threshold)
    ensures ok ==> a[..] == CompressAll(old(a[..]), threshold, ratio)
  {
    ghost var x := a[..];
    var i := 0;
    while i < a.Length
      invariant 0 <= i <= a.Length
      invariant ratio == 0.0 ==> forall j :: 0 <= j < i ==> Abs(x[j]) <= threshold
      invariant forall j :: 0 <= j < i ==> a[j] == CompressSample(x[j], threshold, ratio)
      invariant forall j :: i <= j < a.Length ==> a[j] == x[j]
    {
      var sample := a[i];
      var level := Abs(sample);
      if level > threshold {
        if ratio == 0.0 {
          return false;
        }
        var excess := level - threshold;
        var reduction := excess * (1.0 - 1.0 / ratio);
        var sign := if sample >= 0.0 then 1.0 else -1.0;
        a[i] := sign * (threshold + excess - reduction);
      }
      i := i + 1;
    }
    assert a[..] == CompressAll(x, threshold, ratio);
    return true;
  }

  // ---------------------------------------------------------------------
  // The transfer curve
  // ---------------------------------------------------------------------

  /** `excess - excess * (1 - 1 / ratio)` is the excess divided by the ratio. */
  lemma ReducedExcess(excess: real, ratio: real)
    requires ratio != 0.0
    ensures excess - excess * (1.0 - 1.0 / ratio) == excess / ratio
  {
    var q := 1.0 / ratio;
    assert excess * q == excess / ratio;
  }

  /** Over the threshold the level becomes `T + (|x| - T) / ratio`, on the same side of zero. */
  lemma CompressedLevel(x: real, threshold: real, ratio: real)
    requires 0.0 <= threshold < Abs(x) && 0.0 < ratio
    ensures Abs(CompressSample(x, threshold, ratio)) == threshold + (Abs(x) - threshold) / ratio
    ensures (CompressSample(x, threshold, ratio) > 0.0 <==> x > 0.0)
    ensures (CompressSample(x, threshold, ratio) < 0.0 <==> x < 0.0)
  {
    var excess := Abs(x) - threshold;
    ReducedExcess(excess, ratio);
    DivNonneg(excess, ratio);
  }

  /** With a ratio of at least 1 no sample gets louder. */
  lemma CompressNeverLouderSample(x: real, threshold: real, ratio: real)
    requires 0.0 <= threshold && 1.0 <= ratio
    ensures Abs(CompressSample(x, threshold, ratio)) <= Abs(x)
  {
    if Abs(x) > threshold {
      CompressedLevel(x, threshold, ratio);
      DivAntitone(Abs(x) - threshold, 1.0, ratio);
    }
  }

  /** A ratio of 1 leaves every sample as it was. */
  lemma UnitRatioSample(x: real, threshold: real)
    ensures CompressSample(x, threshold, 1.0) == x
  {
  }

  // ---------------------------------------------------------------------
  // The compressor on int16 audio
  // ---------------------------------------------------------------------

  /** A sample at or under the threshold comes back unchanged. */
  lemma QuietSampleUnchanged(audio: Pcm, threshold: real, ratio: real, i: int)
    requires AllInt16(audio.samples) && 0 <= i < |audio.samples|
    requires Abs(audio.samples[i] as real / FullScale) <= threshold
    requires CompressResult(audio, threshold, ratio).Success?
    ensures CompressResult(audio, threshold, ratio).value.samples[i] == audio.samples[i]
  {
    ClipToInt16OfInt(audio.samples[i]);
  }

  /** With a ratio of 1 the compressor returns its int16 samples unchanged. */
  lemma UnitRatioIsIdentity(audio: Pcm, threshold: real)
    requires AllInt16(audio.samples)
    ensures CompressResult(audio, threshold, 1.0) == Success(Pcm(audio.samples, audio.frameRate, 1))
  {
    var x := Unscaled(audio.samples);
    var y := CompressAll(x, threshold, 1.0);
    forall i | 0 <= i < |y|
      ensures y[i] * FullScale == audio.samples[i] as real
    {
      UnitRatioSample(x[i], threshold);
    }
    forall i | 0 <= i < |y|
      ensures ClipToInt16(y[i] * FullScale) == audio.samples[i]
    {
      ClipToInt16OfInt(audio.samples[i]);
    }
    assert Rescaled(y) == audio.samples;
  }

  /** The compressor fails exactly when the ratio is 0 and some sample is over the threshold. */
  lemma CompressFailsIff(audio: Pcm, threshold: real, ratio: real)
    ensures CompressResult(audio, threshold, ratio).Failure? <==>
      ratio == 0.0 && exists i :: 0 <= i < |audio.samples| && Abs(audio.samples[i] as real / FullScale) > threshold
  {
    var x := Unscaled(audio.samples);
    if ratio == 0.0 && HasLoudSample(x, threshold) {
      var i :| 0 <= i < |x| && Abs(x[i]) > threshold;
      assert Abs(audio.samples[i] as real / FullScale) > threshold;
    }
  }

  /** For a ratio of at least 1 no output sample is louder than its input: the range cannot grow. */
  lemma CompressNeverLouder(audio: Pcm, threshold: real, ratio: real, i: int)
    requires AllInt16(audio.samples) && 0.0 <= threshold && 1.0 <= ratio && 0 <= i < |audio.samples|
    ensures IntAbs(CompressResult(audio, threshold, ratio).value.samples[i]) <= IntAbs(audio.samples[i])
  {
    var s := audio.samples[i];
    var x := s as real / FullScale;
    var y := CompressSample(x, threshold, ratio);
    CompressNeverLouderSample(x, threshold, ratio);
    var v := y * FullScale;
    assert Abs(v) <= Abs(s as real) by {
      assert Abs(v) == Abs(y) * FullScale;
      assert Abs(x) * FullScale == Abs(s as real);
      MulMonotone(FullScale, Abs(y), Abs(x));
    }
    BoundedTrunc(v, s);
  }

  /** Clipping and truncating a value no larger than an int16 sample gives no larger a sample. */
  lemma BoundedTrunc(v: real, s: int)
    requires IsInt16(s) && Abs(v) <= Abs(s as real)
    ensures IntAbs(ClipToInt16(v)) <= IntAbs(s)
  {
    if v <= Int16Max as real {
      TruncWithin(v, s);
    }
  }

  /** The compressor keeps the number of samples and the frame rate and emits mono. */
  lemma CompressShape(audio: Pcm, threshold: real, ratio: real)
    requires CompressResult(audio, threshold, ratio).Success?
    ensures |CompressResult(audio, threshold, ratio).value.samples| == |audio.samples|
    ensures CompressResult(audio, threshold, ratio).value.frameRate == audio.frameRate
    ensures CompressResult(audio, threshold, ratio).value.channels == 1
    ensures AllInt16(CompressResult(audio, threshold, ratio).value.samples)
  {
  }

  // ---------------------------------------------------------------------
  // Limiter
  // ---------------------------------------------------------------------

  /** One sample of `(np.clip(s / 32768, -c, c) * 32768).astype(np.int16)`. */
  function LimitSample(s: int, ceiling: real): (r: int)
    requires 0.0 < ceiling
    ensures Abs(r as real) <= ceiling * FullScale
    ensures IntAbs(r) <= IntAbs(s)
  {
    var y := Clip(s as real / FullScale, -ceiling, ceiling) * FullScale;
    assert Abs(y) <= ceiling * FullScale by {
      MulMonotone(FullScale, Abs(Clip(s as real / FullScale, -ceiling, ceiling)), ceiling);
    }
    assert Abs(y) <= Abs(s as real) by {
      var c := Clip(s as real / FullScale, -ceiling, ceiling);
      assert Abs(c) <= Abs(s as real / FullScale);
      MulMonotone(FullScale, Abs(c), Abs(s as real / FullScale));
    }
    TruncShrinks(y);
    TruncWithin(y, s);
    Trunc(y)
  }

  /** Truncation toward zero never moves a value past an integer of larger magnitude. */
  lemma TruncWithin(y: real, s: int)
    requires Abs(y) <= Abs(s as real)
    ensures IntAbs(Trunc(y)) <= IntAbs(s)
  {
    var m: int := IntAbs(s);
    if y >= 0.0 {
      TruncMonotone(y, m as real);
    } else {
      TruncMonotone(-m as real, y);
    }
    TruncOfInt(m);
    TruncOfInt(-m);
  }

  /**
   * `DynamicsProcessor.limit` with the ceiling as linear gain: every sample is
   * held within +-ceiling of full scale, mono at the input's frame rate.
   */
  function Limit(audio: Pcm, ceiling: real): (r: Pcm)
    requires 0.0 < ceiling
    ensures |r.samples| == |audio.samples| && r.frameRate == audio.frameRate && r.channels == 1
    ensures forall i :: 0 <= i < |r.samples| ==> Abs(r.samples[i] as real) <= ceiling * FullScale
    ensures AllInt16(audio.samples) ==> AllInt16(r.samples)
  {
    Pcm(seq(|audio.samples|, i requires 0 <= i < |audio.samples| => LimitSample(audio.samples[i], ceiling)),
        audio.frameRate, 1)
  }

  /** Samples already within the ceiling pass the limiter unchanged. */
  lemma LimitKeepsQuietSamples(audio: Pcm, ceiling: real, i: int)
    requires 0.0 < ceiling && 0 <= i < |audio.samples|
    requires Abs(audio.samples[i] as real) <= ceiling * FullScale
    ensures Limit(audio, ceiling).samples[i] == audio.samples[i]
  {
    var s := audio.samples[i];
    var x := s as real / FullScale;
    assert x * FullScale == s as real;
    assert -ceiling <= x <= ceiling by {
      if x > ceiling {
        MulSign(x - ceiling, FullScale);
      }
      if x < -ceiling {
        MulSign(-ceiling - x, FullScale);
      }
    }
    TruncOfInt(s);
  }
}
