/**
 * `Distortion` (`src/techno/processing/distortion.py`, and its byte-identical
 * copy `processing/distortion.py`): waveshaping and bit crushing, both
 * elementwise on the int16 samples, producing mono at the input frame rate.
 */
module Distortion {
  import opened Numeric
  import opened Pcm

  // ---------------------------------------------------------------------
  // Waveshaper
  // ---------------------------------------------------------------------

  /** The pre-gain `1 + drive * 10`. */
  function PreGain(drive: real): real
  {
    1.0 + drive * 10.0
  }

  /**
   * One normalised sample through the drive and the named curve: `"soft"`
   * is `tanh` (a parameter here), `"hard"` clips at +-0.8, any other name
   * applies the drive alone.
   */
  function Shape(x: real, drive: real, curve: string, tanh: real -> real): real
  {
    var driven := x * PreGain(drive);
    if curve == "soft" then tanh(driven)
    else if curve == "hard" then Clip(driven, -0.8, 0.8)
    else driven
  }

  /** A sample shaped and scaled back by 32768, before the clip and cast. */
  function Shaped(s: int, drive: real, curve: string, tanh: real -> real): real
  {
    Shape(s as real / FullScale, drive, curve, tanh) * FullScale
  }

  function WaveshapeSample(s: int, drive: real, curve: string, tanh: real -> real): int
  {
    ClipToInt16(Shaped(s, drive, curve, tanh))
  }

  /** `Distortion.waveshaper`. */
  function Waveshaper(audio: Pcm, drive: real, curve: string, tanh: real -> real): (r: Pcm)
    ensures |r.samples| == |audio.samples| && r.frameRate == audio.frameRate && r.channels == 1
    ensures AllInt16(r.samples)
    ensures forall i :: 0 <= i < |r.samples| ==> r.samples[i] == WaveshapeSample(audio.samples[i], drive, curve, tanh)
  {
    Pcm(seq(|audio.samples|, i requires 0 <= i < |audio.samples| => WaveshapeSample(audio.samples[i], drive, curve, tanh)),
        audio.frameRate, 1)
  }

  /** The hard curve keeps the scaled value within +-0.8 of full scale. */
  lemma HardShapedRange(s: int, drive: real, tanh: real -> real)
    ensures -26214.4 <= Shaped(s, drive, "hard", tanh) <= 26214.4
  {
    var c := Shape(s as real / FullScale, drive, "hard", tanh);
    MulMonotone(FullScale, c, 0.8);
    MulMonotone(FullScale, -0.8, c);
  }

  /** The hard curve never leaves +-0.8 of full scale: at most 26214 in magnitude. */
  lemma HardCurveBound(s: int, drive: real, tanh: real -> real)
    ensures IntAbs(WaveshapeSample(s, drive, "hard", tanh)) <= 26214
  {
    var v := Shaped(s, drive, "hard", tanh);
    HardShapedRange(s, drive, tanh);
    TruncMonotone(v, 26214.4);
    TruncMonotone(-26214.4, v);
    TruncBetween(26214.4, 26214);
    assert Trunc(-26214.4) == -26214;
  }

  /** Under a non-negative drive a sample of at least 1 stays at least 1 after the hard clip. */
  lemma HardShapedPositive(s: int, drive: real, tanh: real -> real)
    requires 1 <= s && 0.0 <= drive
    ensures Shaped(s, drive, "hard", tanh) >= 1.0
  {
    var x := s as real / FullScale;
    var g := PreGain(drive);
    var y := x * g;
    MulMonotone(x, 1.0, g);
    if y < 0.8 {
      assert x * FullScale == s as real;
      MulMonotone(FullScale, x, y);
    }
  }

  /** The hard curve is odd: negating the sample negates the scaled value. */
  lemma HardShapedOdd(s: int, drive: real, tanh: real -> real)
    ensures Shaped(-s, drive, "hard", tanh) == -Shaped(s, drive, "hard", tanh)
  {
    var x := s as real / FullScale;
    var g := PreGain(drive);
    assert (-s) as real / FullScale * g == -(x * g);
  }

  /** With a non-negative drive the hard curve keeps every sample on its side of zero. */
  lemma HardCurveKeepsSign(s: int, drive: real, tanh: real -> real)
    requires 0.0 <= drive
    ensures WaveshapeSample(s, drive, "hard", tanh) > 0 <==> s > 0
    ensures WaveshapeSample(s, drive, "hard", tanh) < 0 <==> s < 0
  {
    var v := Shaped(s, drive, "hard", tanh);
    HardShapedRange(s, drive, tanh);
    if s > 0 {
      HardShapedPositive(s, drive, tanh);
      TruncAtLeast(v, 1);
    } else if s < 0 {
      HardShapedPositive(-s, drive, tanh);
      HardShapedOdd(-s, drive, tanh);
      TruncMonotone(v, -1.0);
      TruncOfInt(-1);
    } else {
      assert v == 0.0;
      TruncOfInt(0);
    }
  }

  /** An unrecognised curve name with no drive changes no int16 sample. */
  lemma UnknownCurveNoDriveIsIdentity(audio: Pcm, curve: string, tanh: real -> real)
    requires curve != "soft" && curve != "hard" && AllInt16(audio.samples)
    ensures Waveshaper(audio, 0.0, curve, tanh).samples == audio.samples
  {
    var r := Waveshaper(audio, 0.0, curve, tanh).samples;
    forall i | 0 <= i < |r|
      ensures r[i] == audio.samples[i]
    {
      assert Shaped(audio.samples[i], 0.0, curve, tanh) == audio.samples[i] as real;
      ClipToInt16OfInt(audio.samples[i]);
    }
  }

  // ---------------------------------------------------------------------
  // Bit crusher
  // ---------------------------------------------------------------------

  /** `2 ** bit_depth`. */
  function Levels(bitDepth: nat): (l: int)
    ensures l >= 1
  {
    Pow2(bitDepth)
  }

  /** `samples / 32768 * levels`, before rounding. */
  function Quantise(s: int, bitDepth: nat): real
  {
    s as real / FullScale * Levels(bitDepth) as real
  }

  /** `np.round(samples / 32768 * levels)`: the quantisation step index of a sample. */
  function CrushStep(s: int, bitDepth: nat): int
  {
    RoundHalfEven(Quantise(s, bitDepth))
  }

  /** `q / levels * 32768`: step index `q` back on the int16 scale. */
  function Rescale(q: int, bitDepth: nat): real
  {
    q as real / Levels(bitDepth) as real * FullScale
  }

  /** The rescaled step, clipped to int16 and cast. */
  function CrushLevel(q: int, bitDepth: nat): int
  {
    ClipToInt16(Rescale(q, bitDepth))
  }

  /** `Distortion.bit_crush`. */
  function BitCrush(audio: Pcm, bitDepth: nat): (r: Pcm)
    ensures |r.samples| == |audio.samples| && r.frameRate == audio.frameRate && r.channels == 1
    ensures AllInt16(r.samples)
    ensures forall i :: 0 <= i < |r.samples| ==>
      r.samples[i] == CrushLevel(CrushStep(audio.samples[i], bitDepth), bitDepth)
  {
    Pcm(seq(|audio.samples|, i requires 0 <= i < |audio.samples| =>
          CrushLevel(CrushStep(audio.samples[i], bitDepth), bitDepth)),
        audio.frameRate, 1)
  }

  /** An int16 sample scales to within +-levels. */
  lemma QuantiseRange(s: int, bitDepth: nat)
    requires IsInt16(s)
    ensures -(Levels(bitDepth) as real) <= Quantise(s, bitDepth) <= Levels(bitDepth) as real
  {
    var l := Levels(bitDepth) as real;
    var x := s as real / FullScale;
    MulMonotone(l, -1.0, x);
    MulMonotone(l, x, 1.0);
  }

  /** An int16 sample quantises to a step index in [-levels, levels]. */
  lemma CrushStepRange(s: int, bitDepth: nat)
    requires IsInt16(s)
    ensures -Levels(bitDepth) <= CrushStep(s, bitDepth) <= Levels(bitDepth)
  {
    QuantiseRange(s, bitDepth);
    RoundWithin(Quantise(s, bitDepth), -Levels(bitDepth), Levels(bitDepth));
  }

  lemma CastMul(a: int, b: int)
    ensures (a * b) as real == a as real * b as real
  {
  }

  /** With at most 15 bits, `2^b` levels of `2^(15 - b)` each span full scale. */
  lemma GridSpansFullScale(bitDepth: nat)
    requires bitDepth <= 15
    ensures Levels(bitDepth) * Pow2(15 - bitDepth) == 32768
  {
    Pow2Add(bitDepth, 15 - bitDepth);
    assert Pow2(15) == 32768;
  }

  /** With `l * step == 32768`, `q / l * 32768` is `q * step`. */
  lemma StepPosition(q: int, l: int, step: int)
    requires l >= 1 && l * step == 32768
    ensures q as real / l as real * FullScale == (q * step) as real
  {
    CastMul(l, step);
    CastMul(q, step);
    var t := q as real / l as real;
    assert t * l as real == q as real;
    assert t * (l as real * step as real) == (t * l as real) * step as real;
  }

  /** With at most 15 bits, rescaling step `q` lands on `q * 2^(15 - b)`. */
  lemma RescaleOnGrid(q: int, bitDepth: nat)
    requires bitDepth <= 15
    ensures Rescale(q, bitDepth) == (q * Pow2(15 - bitDepth)) as real
  {
    GridSpansFullScale(bitDepth);
    StepPosition(q, Levels(bitDepth), Pow2(15 - bitDepth));
  }

  /** Steps `-l .. l - 1` of a grid of `l` steps spanning 32768 stay within int16. */
  lemma GridWithinInt16(q: int, l: int, step: int)
    requires 1 <= l && 1 <= step && l * step == 32768 && -l <= q < l
    ensures IsInt16(q * step)
  {
    assert q * step <= (l - 1) * step;
    assert -l * step <= q * step;
  }

  /** With at most 15 bits, step `q` of the range lands on `q * 2^(15 - b)`, or 32767 at the top. */
  lemma CrushLevelValue(q: int, bitDepth: nat)
    requires bitDepth <= 15 && -Levels(bitDepth) <= q <= Levels(bitDepth)
    ensures q < Levels(bitDepth) ==> CrushLevel(q, bitDepth) == q * Pow2(15 - bitDepth)
    ensures q == Levels(bitDepth) ==> CrushLevel(q, bitDepth) == Int16Max
  {
    var step := Pow2(15 - bitDepth);
    GridSpansFullScale(bitDepth);
    RescaleOnGrid(q, bitDepth);
    if q < Levels(bitDepth) {
      GridWithinInt16(q, Levels(bitDepth), step);
      ClipToInt16OfInt(q * step);
    } else {
      assert q * step == 32768;
    }
  }

  /**
   * With at most 15 bits every crushed sample is its step index times the
   * grid spacing `2^(15 - b)` (a multiple of `32768 / 2^b`), except the
   * clipped top value 32767.
   */
  lemma CrushedOnGrid(audio: Pcm, bitDepth: nat, i: int)
    requires bitDepth <= 15 && AllInt16(audio.samples) && 0 <= i < |audio.samples|
    ensures -Levels(bitDepth) <= CrushStep(audio.samples[i], bitDepth) <= Levels(bitDepth)
    ensures CrushStep(audio.samples[i], bitDepth) < Levels(bitDepth) ==>
      BitCrush(audio, bitDepth).samples[i] == CrushStep(audio.samples[i], bitDepth) * Pow2(15 - bitDepth)
    ensures CrushStep(audio.samples[i], bitDepth) == Levels(bitDepth) ==>
      BitCrush(audio, bitDepth).samples[i] == Int16Max
  {
    CrushStepRange(audio.samples[i], bitDepth);
    CrushLevelValue(CrushStep(audio.samples[i], bitDepth), bitDepth);
  }

  /** The levels of step indices `-levels .. -levels + k - 1`. */
  function LevelsUpTo(bitDepth: nat, k: nat): (r: set<int>)
    ensures |r| <= k
  {
    if k == 0 then {}
    else
      var rest := LevelsUpTo(bitDepth, k - 1);
      var top := CrushLevel(k - 1 - Levels(bitDepth), bitDepth);
      assert |rest + {top}| <= |rest| + 1;
      rest + {top}
  }

  lemma {:induction false} LevelInLevels(bitDepth: nat, q: int, k: nat)
    requires -Levels(bitDepth) <= q < k - Levels(bitDepth)
    ensures CrushLevel(q, bitDepth) in LevelsUpTo(bitDepth, k)
  {
    if q < k - 1 - Levels(bitDepth) {
      LevelInLevels(bitDepth, q, k - 1);
    }
  }

  lemma {:induction false} SubsetSize<T>(a: set<T>, b: set<T>)
    requires a <= b
    ensures |a| <= |b|
    decreases b
  {
    if a != {} {
      var x :| x in a;
      SubsetSize(a - {x}, b - {x});
    }
  }

  /** The crushed buffer takes at most `2 * 2^b + 1` distinct values (33 for 4 bits). */
  lemma CrushedDistinctValues(audio: Pcm, bitDepth: nat)
    requires AllInt16(audio.samples)
    ensures |set i | 0 <= i < |audio.samples| :: BitCrush(audio, bitDepth).samples[i]|
      <= 2 * Levels(bitDepth) + 1
  {
    var r := BitCrush(audio, bitDepth).samples;
    var all := LevelsUpTo(bitDepth, 2 * Levels(bitDepth) + 1);
    var used := set i | 0 <= i < |audio.samples| :: r[i];
    forall v | v in used
      ensures v in all
    {
      var i :| 0 <= i < |audio.samples| && r[i] == v;
      CrushStepRange(audio.samples[i], bitDepth);
      LevelInLevels(bitDepth, CrushStep(audio.samples[i], bitDepth), 2 * Levels(bitDepth) + 1);
    }
    SubsetSize(used, all);
  }

  /** From 15 bits up the levels are `32768 * 2^(b - 15)`. */
  lemma DeepLevels(bitDepth: nat)
    requires 15 <= bitDepth
    ensures Levels(bitDepth) == 32768 * Pow2(bitDepth - 15)
  {
    Pow2Add(15, bitDepth - 15);
    assert Pow2(15) == 32768;
  }

  /** From 15 bits up a sample scales to a whole number of steps. */
  lemma QuantiseDeep(s: int, bitDepth: nat)
    requires 15 <= bitDepth
    ensures Quantise(s, bitDepth) == (s * Pow2(bitDepth - 15)) as real
  {
    var e := Pow2(bitDepth - 15);
    DeepLevels(bitDepth);
    CastMul(32768, e);
    CastMul(s, e);
    var x := s as real / FullScale;
    assert x * FullScale == s as real;
    assert x * (FullScale * e as real) == (x * FullScale) * e as real;
  }

  /** From 15 bits up, rescaling `s * 2^(b - 15)` steps gives `s` back. */
  lemma RescaleDeep(s: int, bitDepth: nat)
    requires 15 <= bitDepth
    ensures Rescale(s * Pow2(bitDepth - 15), bitDepth) == s as real
  {
    var e := Pow2(bitDepth - 15);
    DeepLevels(bitDepth);
    CastMul(32768, e);
    CastMul(s, e);
    var t := (s as real * e as real) / (FullScale * e as real);
    assert t * (FullScale * e as real) == s as real * e as real;
    assert (t * FullScale - s as real) * e as real == 0.0;
    MulSign(t * FullScale - s as real, e as real);
  }

  lemma CrushSampleIdentity(s: int, bitDepth: nat)
    requires 15 <= bitDepth && IsInt16(s)
    ensures CrushLevel(CrushStep(s, bitDepth), bitDepth) == s
  {
    QuantiseDeep(s, bitDepth);
    RoundOfInt(s * Pow2(bitDepth - 15));
    RescaleDeep(s, bitDepth);
    ClipToInt16OfInt(s);
  }

  /** From 15 bits up the crusher is the identity on int16 samples. */
  lemma DeepCrushIsIdentity(audio: Pcm, bitDepth: nat)
    requires 15 <= bitDepth && AllInt16(audio.samples)
    ensures BitCrush(audio, bitDepth).samples == audio.samples
  {
    var r := BitCrush(audio, bitDepth).samples;
    forall i | 0 <= i < |r|
      ensures r[i] == audio.samples[i]
    {
      CrushSampleIdentity(audio.samples[i], bitDepth);
    }
  }
}
