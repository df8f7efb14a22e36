/**
 * 16-bit PCM buffers as the effects see them: `audio.get_array_of_samples()`
 * gives the samples, `frame_rate` and `channels` travel alongside. Stereo
 * buffers are interleaved L, R, L, R, ...
 */
module Pcm {
  import opened Numeric

  const Int16Min: int := -32768
  const Int16Max: int := 32767
  /** The divisor the effects use to map int16 samples into [-1, 1]. */
  const FullScale: real := 32768.0
  /** The target peak of every peak normalisation in the code base. */
  const NormalisedPeak: real := 32767.0

  datatype Pcm = Pcm(samples: seq<int>, frameRate: int, channels: int)

  predicate IsInt16(v: int)
  {
    Int16Min <= v <= Int16Max
  }

  predicate AllInt16(s: seq<int>)
  {
    forall i :: 0 <= i < |s| ==> IsInt16(s[i])
  }

  /** Truncation is the identity on int16 values, so clipping and casting them changes nothing. */
  lemma ClipToInt16OfInt(v: int)
    requires IsInt16(v)
    ensures ClipToInt16(v as real) == v
  {
    TruncOfInt(v);
  }

  /** `np.array(samples).astype(np.float32)` in exact arithmetic. */
  function ToReals(s: seq<int>): (r: seq<real>)
    ensures |r| == |s|
    ensures forall i :: 0 <= i < |s| ==> r[i] == s[i] as real
  {
    seq(|s|, i requires 0 <= i < |s| => s[i] as real)
  }

  /** One sample of `np.clip(samples, -32768, 32767).astype(np.int16)`. */
  function ClipToInt16(v: real): (r: int)
    ensures IsInt16(r)
    ensures -32768.0 <= v <= 32767.0 ==> r == Trunc(v)
    ensures v < -32768.0 ==> r == Int16Min
    ensures v > 32767.0 ==> r == Int16Max
  {
    var c := Clip(v, -32768.0, 32767.0);
    TruncMonotone(c, 32767.0);
    TruncMonotone(-32768.0, c);
    Trunc(c)
  }

  /** At least one sample is not zero. */
  predicate HasSignal(x: seq<real>)
  {
    exists i :: 0 <= i < |x| && x[i] != 0.0
  }

  /** `np.max(np.abs(x))`, taken as 0 for an empty buffer. */
  function Peak(x: seq<real>): (p: real)
    ensures 0.0 <= p
    ensures forall i :: 0 <= i < |x| ==> Abs(x[i]) <= p
    ensures |x| > 0 ==> exists i :: 0 <= i < |x| && Abs(x[i]) == p
    ensures |x| == 0 ==> p == 0.0
  {
    if |x| == 0 then 0.0
    else
      var rest := Peak(x[..|x| - 1]);
      var last := Abs(x[|x| - 1]);
      assert forall i :: 0 <= i < |x| - 1 ==> x[..|x| - 1][i] == x[i];
      if last < rest then rest else last
  }

  /** The peak is positive exactly when some sample is non-zero. */
  lemma PeakPositiveIffSignal(x: seq<real>)
    ensures Peak(x) > 0.0 <==> HasSignal(x)
  {
    if HasSignal(x) {
      var i :| 0 <= i < |x| && x[i] != 0.0;
      assert Abs(x[i]) <= Peak(x);
    }
  }

  /** `x / np.max(np.abs(x))`: every sample divided by the peak, so the loudest becomes +-1. */
  function PeakNormalise(x: seq<real>): (y: seq<real>)
    requires HasSignal(x)
    ensures |y| == |x|
    ensures forall i :: 0 <= i < |x| ==> -1.0 <= y[i] <= 1.0
    ensures exists i :: 0 <= i < |x| && Abs(y[i]) == 1.0
    ensures forall i :: 0 <= i < |x| ==> (y[i] > 0.0 <==> x[i] > 0.0) && (y[i] < 0.0 <==> x[i] < 0.0)
  {
    PeakPositiveIffSignal(x);
    var p := Peak(x);
    var y := seq(|x|, i requires 0 <= i < |x| => OverPeak(x[i], p));
    var k :| 0 <= k < |x| && Abs(x[k]) == p;
    assert Abs(y[k]) == 1.0;
    y
  }

  /** One sample divided by the peak. */
  function OverPeak(v: real, p: real): (u: real)
    requires p > 0.0 && Abs(v) <= p
    ensures -1.0 <= u <= 1.0
    ensures Abs(v) == p ==> Abs(u) == 1.0
    ensures (u > 0.0 <==> v > 0.0) && (u < 0.0 <==> v < 0.0)
  {
    UnitQuotient(v, p);
    v / p
  }

  lemma UnitQuotient(v: real, p: real)
    requires p > 0.0 && Abs(v) <= p
    ensures -1.0 <= v / p <= 1.0
    ensures Abs(v) == p ==> Abs(v / p) == 1.0
    ensures (v / p > 0.0 <==> v > 0.0) && (v / p < 0.0 <==> v < 0.0)
  {
    var q := v / p;
    assert q * p == v;
    MulSign(q - 1.0, p);
    MulSign(q + 1.0, p);
    MulSign(q, p);
  }

  /** One sample scaled against the peak `p` and truncated. */
  function ScaleToPeak(v: real, p: real): (r: int)
    requires p > 0.0 && Abs(v) <= p
    ensures -32767 <= r <= 32767
    ensures Abs(v) == p ==> IntAbs(r) == 32767
    ensures (r > 0 ==> v > 0.0) && (r < 0 ==> v < 0.0)
  {
    ScaledWithin(v, p);
    ScaledPeak(v, p);
    Trunc(v / p * NormalisedPeak)
  }

  /**
   * `(x / np.max(np.abs(x)) * 32767).astype(np.int16)`: scale so that the
   * loudest sample becomes +-32767, then truncate toward zero. The source
   * divides by the peak, so a silent buffer is outside its domain.
   */
  function NormaliseToInt16(x: seq<real>): (r: seq<int>)
    requires HasSignal(x)
    ensures |r| == |x|
    ensures forall i :: 0 <= i < |x| ==> -32767 <= r[i] <= 32767
    ensures exists i :: 0 <= i < |x| && IntAbs(r[i]) == 32767
    ensures forall i :: 0 <= i < |x| ==> (r[i] > 0 ==> x[i] > 0.0) && (r[i] < 0 ==> x[i] < 0.0)
  {
    PeakPositiveIffSignal(x);
    var p := Peak(x);
    var r := seq(|x|, i requires 0 <= i < |x| => ScaleToPeak(x[i], p));
    var k :| 0 <= k < |x| && Abs(x[k]) == p;
    assert IntAbs(r[k]) == 32767;
    r
  }

  lemma ScaledWithin(v: real, p: real)
    requires p > 0.0 && Abs(v) <= p
    ensures -32767 <= Trunc(v / p * NormalisedPeak) <= 32767
  {
    var q := v / p;
    assert -1.0 <= q <= 1.0 by {
      if v >= 0.0 { assert v / p <= p / p; } else { assert -v / p <= p / p; }
    }
    TruncMonotone(q * NormalisedPeak, NormalisedPeak);
    TruncMonotone(-NormalisedPeak, q * NormalisedPeak);
  }

  lemma ScaledPeak(v: real, p: real)
    requires p > 0.0 && Abs(v) <= p
    ensures Abs(v) == p ==> IntAbs(Trunc(v / p * NormalisedPeak)) == 32767
  {
    if Abs(v) != p {
    } else {
      UnitQuotient(v, p);
    }
  }
}
