/**
 * The synthesis primitives of `src/techno/core/primitives.py`: the shared
 * tempo bookkeeping of `TechnoPrimitive`, the int16 conversion, the bass note
 * and hi-hat parameter checks with their sample counts, and the 303 step
 * walker. Oscillators, noise and scipy filters are not modelled: a generator
 * receives the shaped signal it would normalise as a parameter (sample level)
 * or renders a symbolic voice of the right length (millisecond level).
 */
module Primitives {
  import opened Numeric
  import opened Wrappers
  import opened Pcm
  import opened Audio

  /** The sample rate every primitive uses unless told otherwise. */
  const DefaultSampleRate: int := 44100

  datatype PrimitiveError =
    | ZeroTempo                // `60 / bpm` with bpm = 0
    | BassFrequencyOutOfRange  // bass note below 20 Hz or above 2000 Hz
    | NoNotes                  // `i % len(notes)` with no notes
    | ClosednessOutOfRange     // hi-hat closedness outside [0, 1]

  /** `TechnoPrimitive` after `__init__`; its fields never change. */
  datatype Primitive = Primitive(bpm: int, sampleRate: int, samplesPerBeat: int)

  /** `TechnoPrimitive.__init__`: `samples_per_beat = int((60 / bpm) * sample_rate)`. */
  function NewPrimitive(bpm: int, sampleRate: int): (r: Result<Primitive, PrimitiveError>)
    ensures r.Failure? <==> bpm == 0
    ensures r.Failure? ==> r.error == ZeroTempo
    ensures r.Success? ==> r.value.bpm == bpm && r.value.sampleRate == sampleRate
    ensures r.Success? && 0 < bpm && 0 <= sampleRate ==>
      0 <= r.value.samplesPerBeat &&
      r.value.samplesPerBeat as real <= 60.0 / bpm as real * sampleRate as real < r.value.samplesPerBeat as real + 1.0
  {
    if bpm == 0 then Failure(ZeroTempo)
    else
      var spb := TruncMul(60.0 / bpm as real, sampleRate as real);
      assert 0 < bpm && 0 <= sampleRate ==> 0 <= spb by {
        if 0 < bpm && 0 <= sampleRate {
          TruncMulNonneg(60.0 / bpm as real, sampleRate as real);
        }
      }
      Success(Primitive(bpm, sampleRate, spb))
  }

  /** A primitive built with a positive tempo and sample rate. */
  predicate Valid(p: Primitive)
  {
    0 < p.bpm && 0 < p.sampleRate && NewPrimitive(p.bpm, p.sampleRate) == Success(p)
  }

  /** At 120 bpm and 44100 Hz a beat lasts 22050 samples. */
  lemma SamplesPerBeatAt120()
    ensures NewPrimitive(120, DefaultSampleRate) == Success(Primitive(120, 44100, 22050))
  {
    assert 60.0 / 120.0 * 44100.0 == 22050.0;
    TruncOfInt(22050);
  }

  // ---------------------------------------------------------------------
  // int16 conversion
  // ---------------------------------------------------------------------

  /** `(s * 32767).astype(np.int16)` for one sample in [-1, 1]. */
  function ToInt16(v: real): (r: int)
    requires -1.0 <= v <= 1.0
    ensures -32767 <= r <= 32767
    ensures (r > 0 ==> v > 0.0) && (r < 0 ==> v < 0.0)
    ensures Abs(r as real - v * NormalisedPeak) < 1.0
  {
    TruncMonotone(v * NormalisedPeak, NormalisedPeak);
    TruncMonotone(-NormalisedPeak, v * NormalisedPeak);
    Trunc(v * NormalisedPeak)
  }

  /**
   * `to_audio_segment`: samples in [-1, 1] become int16 by scaling with 32767
   * and truncating toward zero; the segment is mono at the primitive's rate.
   */
  function ToAudioSegment(p: Primitive, s: seq<real>): (r: Pcm)
    requires forall i :: 0 <= i < |s| ==> -1.0 <= s[i] <= 1.0
    ensures |r.samples| == |s| && r.channels == 1 && r.frameRate == p.sampleRate
    ensures AllInt16(r.samples)
    ensures forall i :: 0 <= i < |s| ==>
      -32767 <= r.samples[i] <= 32767 && Abs(r.samples[i] as real - s[i] * NormalisedPeak) < 1.0
  {
    Pcm(seq(|s|, i requires 0 <= i < |s| => ToInt16(s[i])), p.sampleRate, 1)
  }

  /**
   * Normalising by the peak and then converting is the one-step
   * normalisation to int16: the loudest sample lands on +-32767.
   */
  lemma NormalisedSegment(p: Primitive, x: seq<real>)
    requires HasSignal(x)
    ensures ToAudioSegment(p, PeakNormalise(x)).samples == NormaliseToInt16(x)
    ensures exists i :: 0 <= i < |x| && IntAbs(ToAudioSegment(p, PeakNormalise(x)).samples[i]) == 32767
  {
    var a := ToAudioSegment(p, PeakNormalise(x)).samples;
    var b := NormaliseToInt16(x);
    assert forall i :: 0 <= i < |x| ==> a[i] == b[i];
  }

  // ---------------------------------------------------------------------
  // Bass
  // ---------------------------------------------------------------------

  /** The range `generate_note` accepts. */
  predicate BassFrequencyOk(frequency: real)
  {
    20.0 <= frequency <= 2000.0
  }

  /**
   * A MIDI note whose frequency `440 * 2 ** ((n - 69) / 12)` passes the bass
   * range check: 16 (20.6 Hz) up to 95 (1975.5 Hz); 15 gives 19.4 Hz and 96
   * gives 2093 Hz.
   */
  predicate MidiInBassRange(midi: int)
  {
    16 <= midi <= 95
  }

  /** `int(duration_bars * 4 * samples_per_beat)`. */
  function NoteSampleCount(p: Primitive, durationBars: real): int
  {
    TruncMul(durationBars * 4.0, p.samplesPerBeat as real)
  }

  /** A quarter of a bar is exactly one beat, and an eighth of a bar half a beat rounded down. */
  lemma NoteLengths(p: Primitive)
    requires 0 <= p.samplesPerBeat
    ensures NoteSampleCount(p, 0.25) == p.samplesPerBeat
    ensures NoteSampleCount(p, 0.125) == p.samplesPerBeat / 2
  {
    TruncOfInt(p.samplesPerBeat);
    var h := p.samplesPerBeat / 2;
    assert 0.125 * 4.0 * p.samplesPerBeat as real == p.samplesPerBeat as real / 2.0;
    TruncBetween(p.samplesPerBeat as real / 2.0, h);
  }

  /**
   * `Bass.generate_note`: the frequency is checked first; then `shaped`, the
   * filtered and enveloped oscillator output with one value per sample, is
   * normalised by its peak and converted to int16.
   */
  function GenerateNote(p: Primitive, frequency: real, durationBars: real, shaped: seq<real>)
    : (r: Result<Pcm, PrimitiveError>)
    requires BassFrequencyOk(frequency) ==> |shaped| == NoteSampleCount(p, durationBars) && HasSignal(shaped)
    ensures r.Failure? <==> !BassFrequencyOk(frequency)
    ensures r.Failure? ==> r.error == BassFrequencyOutOfRange
    ensures r.Success? ==> |r.value.samples| == NoteSampleCount(p, durationBars)
    ensures r.Success? ==> r.value.channels == 1 && r.value.frameRate == p.sampleRate
    ensures r.Success? ==> AllInt16(r.value.samples)
    ensures r.Success? ==> exists i :: 0 <= i < |r.value.samples| && IntAbs(r.value.samples[i]) == 32767
  {
    if frequency < 20.0 || frequency > 2000.0 then Failure(BassFrequencyOutOfRange)
    else
      NormalisedSegment(p, shaped);
      Success(ToAudioSegment(p, PeakNormalise(shaped)))
  }

  // ---------------------------------------------------------------------
  // Hi-hat
  // ---------------------------------------------------------------------

  /** `50 * closedness + 10 * (1 - closedness)`: open hats ring longer. */
  function DecayRate(closedness: real): real
  {
    50.0 * closedness + 10.0 * (1.0 - closedness)
  }

  /** The decay rate moves from 10 (open) to 50 (closed) and stays between them. */
  lemma DecayRateRange(c: real)
    requires 0.0 <= c <= 1.0
    ensures 10.0 <= DecayRate(c) <= 50.0
    ensures c == 0.0 ==> DecayRate(c) == 10.0
    ensures c == 1.0 ==> DecayRate(c) == 50.0
  {
  }

  /** A more closed hat decays faster. */
  lemma DecayRateMonotone(c1: real, c2: real)
    requires c1 <= c2
    ensures DecayRate(c1) <= DecayRate(c2)
  {
  }

  /** `int((duration_ms / 1000) * sample_rate)`. */
  function HatSampleCount(p: Primitive, durationMs: real): int
  {
    TruncMul(durationMs / 1000.0, p.sampleRate as real)
  }

  /**
   * `HiHat.generate`: closedness is checked first; then the filtered noise
   * under its decay envelope (`shaped`) is normalised by its peak.
   */
  function GenerateHat(p: Primitive, durationMs: real, closedness: real, shaped: seq<real>)
    : (r: Result<Pcm, PrimitiveError>)
    requires 0.0 <= closedness <= 1.0 ==> |shaped| == HatSampleCount(p, durationMs) && HasSignal(shaped)
    ensures r.Failure? <==> !(0.0 <= closedness <= 1.0)
    ensures r.Failure? ==> r.error == ClosednessOutOfRange
    ensures r.Success? ==> |r.value.samples| == HatSampleCount(p, durationMs)
    ensures r.Success? ==> r.value.channels == 1 && r.value.frameRate == p.sampleRate
    ensures r.Success? ==> AllInt16(r.value.samples)
    ensures r.Success? ==> exists i :: 0 <= i < |r.value.samples| && IntAbs(r.value.samples[i]) == 32767
  {
    if !(0.0 <= closedness <= 1.0) then Failure(ClosednessOutOfRange)
    else
      NormalisedSegment(p, shaped);
      Success(ToAudioSegment(p, PeakNormalise(shaped)))
  }

  // ---------------------------------------------------------------------
  // Rendered lengths in milliseconds
  // ---------------------------------------------------------------------

  /** The `decay_ms` of each kick preset. */
  function KickDecayMs(preset: KickPreset): real
  {
    match preset
    case MinimalKick => 150.0
    case IndustrialKick => 250.0
    case DefaultKick => 200.0
  }

  /** `int((decay_ms / 1000) * sample_rate)`: the kick's sample count. */
  function KickSampleCount(p: Primitive, preset: KickPreset): int
  {
    TruncMul(KickDecayMs(preset) / 1000.0, p.sampleRate as real)
  }

  /** A kick as the arrangement code sees it; the industrial waveshaper keeps the length. */
  function KickAudio(p: Primitive, preset: KickPreset): (a: Audio)
    requires Valid(p)
    ensures |a| == SegmentMs(KickSampleCount(p, preset), p.sampleRate)
  {
    TruncMulNonneg(KickDecayMs(preset) / 1000.0, p.sampleRate as real);
    Render(KickSound(preset), SegmentMs(KickSampleCount(p, preset), p.sampleRate))
  }

  /** A bass note as the arrangement code sees it, for a note that passes the range check. */
  function NoteAudio(p: Primitive, midi: int, durationBars: real, cutoffHz: int): (a: Audio)
    requires Valid(p) && 0.0 <= durationBars
    ensures |a| == SegmentMs(NoteSampleCount(p, durationBars), p.sampleRate)
  {
    TruncMulNonneg(durationBars * 4.0, p.samplesPerBeat as real);
    Render(BassNote(midi, durationBars, cutoffHz), SegmentMs(NoteSampleCount(p, durationBars), p.sampleRate))
  }

  /** A hi-hat of the default 50 ms as the arrangement code sees it. */
  function HatAudio(p: Primitive, closedness: real): (a: Audio)
    requires Valid(p)
    ensures |a| == SegmentMs(HatSampleCount(p, 50.0), p.sampleRate)
  {
    TruncMulNonneg(50.0 / 1000.0, p.sampleRate as real);
    Render(HatSound(closedness), SegmentMs(HatSampleCount(p, 50.0), p.sampleRate))
  }

  /** `Kick(bpm)`, `Bass(bpm)` and `HiHat(bpm)` as the arrangement code makes them: at the default sample rate. */
  function AtDefaultRate(bpm: int): (p: Primitive)
    requires bpm > 0
    ensures Valid(p) && p.bpm == bpm && p.sampleRate == DefaultSampleRate
  {
    NewPrimitive(bpm, DefaultSampleRate).value
  }

  /** At 44100 Hz a kick lasts exactly its decay time: 150, 250 or 200 ms. */
  lemma KickLength(p: Primitive, preset: KickPreset)
    requires Valid(p) && p.sampleRate == DefaultSampleRate
    ensures |KickAudio(p, preset)| as real == KickDecayMs(preset)
  {
    match preset
    case MinimalKick =>
      assert 150.0 / 1000.0 * 44100.0 == 6615.0;
      TruncOfInt(6615);
      assert 1000.0 * 6615.0 / 44100.0 == 150.0;
      RoundOfInt(150);
    case IndustrialKick =>
      assert 250.0 / 1000.0 * 44100.0 == 11025.0;
      TruncOfInt(11025);
      assert 1000.0 * 11025.0 / 44100.0 == 250.0;
      RoundOfInt(250);
    case DefaultKick =>
      assert 200.0 / 1000.0 * 44100.0 == 8820.0;
      TruncOfInt(8820);
      assert 1000.0 * 8820.0 / 44100.0 == 200.0;
      RoundOfInt(200);
  }

  /** At 44100 Hz the default hi-hat lasts 50 ms. */
  lemma HatLength(p: Primitive, closedness: real)
    requires Valid(p) && p.sampleRate == DefaultSampleRate
    ensures |HatAudio(p, closedness)| == 50
  {
    assert 50.0 / 1000.0 * 44100.0 == 2205.0;
    TruncOfInt(2205);
    assert 1000.0 * 2205.0 / 44100.0 == 50.0;
    RoundOfInt(50);
  }

  // ---------------------------------------------------------------------
  // The 303 step walker
  // ---------------------------------------------------------------------

  /** 'x' plays a note, '.' plays an accented note; every other character rests. */
  predicate IsNoteStep(c: char)
  {
    c == 'x' || c == '.'
  }

  /** `int(800 * accent)` with accent 1.0 for '.' and 0.7 otherwise. */
  function StepCutoff(c: char): (hz: int)
    ensures c == '.' ==> hz == 800
    ensures c != '.' ==> hz == 560
  {
    Trunc(800.0 * (if c == '.' then 1.0 else 0.7))
  }

  /** The gain in dB added to a note step: 3 for an accent, 0 otherwise. */
  function StepGainDb(c: char): real
  {
    if c == '.' then 3.0 else 0.0
  }

  /** `int(0.25 * 4 * samples_per_beat / sample_rate * 1000)`: one beat of rest in ms. */
  function RestMs(p: Primitive): int
    requires Valid(p)
  {
    Trunc(0.25 * 4.0 * p.samplesPerBeat as real / p.sampleRate as real * 1000.0)
  }

  /** The segment step `i` of the pattern adds, or the error raised at that step. */
  function Step(p: Primitive, notes: seq<int>, pattern: string, i: nat): (r: Result<Audio, PrimitiveError>)
    requires Valid(p) && i < |pattern|
    ensures r.Failure? <==> IsNoteStep(pattern[i]) && (|notes| == 0 || !MidiInBassRange(notes[i % |notes|]))
  {
    var c := pattern[i];
    if IsNoteStep(c) then
      if |notes| == 0 then Failure(NoNotes)
      else if !MidiInBassRange(notes[i % |notes|]) then Failure(BassFrequencyOutOfRange)
      else Success(Gain(NoteAudio(p, notes[i % |notes|], 0.25, StepCutoff(c)), StepGainDb(c)))
    else Success(Silent(RestMs(p)))
  }

  /** The walk over the first `n` steps: the steps' segments in order, or the first error. */
  function Walk(p: Primitive, notes: seq<int>, pattern: string, n: nat): Result<Audio, PrimitiveError>
    requires Valid(p) && n <= |pattern|
  {
    if n == 0 then Success([])
    else
      var prev := Walk(p, notes, pattern, n - 1);
      if prev.Failure? then prev
      else
        var s := Step(p, notes, pattern, n - 1);
        if s.Failure? then Failure(s.error) else Success(prev.value + s.value)
  }

  /** `Bass.generate_303_pattern`: append one segment per character of the pattern. */
  method Generate303Pattern(p: Primitive, notes: seq<int>, pattern: string) returns (r: Result<Audio, PrimitiveError>)
    requires Valid(p)
    ensures r == Walk(p, notes, pattern, |pattern|)
  {
    var result: Audio := Silent(0);
    var i := 0;
    while i < |pattern|
      invariant 0 <= i <= |pattern|
      invariant Walk(p, notes, pattern, i) == Success(result)
    {
      var step := Step(p, notes, pattern, i);
      if step.Failure? {
        FailureSticks(p, notes, pattern, i + 1, |pattern|);
        return Failure(step.error);
      }
      result := result + step.value;
      i := i + 1;
    }
    return Success(result);
  }

  /** Once a step has failed, every longer walk reports that failure. */
  lemma {:induction false} FailureSticks(p: Primitive, notes: seq<int>, pattern: string, m: nat, n: nat)
    requires Valid(p) && m <= n <= |pattern| && Walk(p, notes, pattern, m).Failure?
    ensures Walk(p, notes, pattern, n) == Walk(p, notes, pattern, m)
    decreases n - m
  {
    if m < n {
      FailureSticks(p, notes, pattern, m, n - 1);
    }
  }

  /** The walk succeeds exactly when every note step finds a note in the bass range. */
  lemma {:induction false} WalkSucceeds(p: Primitive, notes: seq<int>, pattern: string, n: nat)
    requires Valid(p) && n <= |pattern|
    ensures Walk(p, notes, pattern, n).Success? <==>
      forall i :: 0 <= i < n && IsNoteStep(pattern[i]) ==> |notes| > 0 && MidiInBassRange(notes[i % |notes|])
  {
    if n > 0 {
      WalkSucceeds(p, notes, pattern, n - 1);
    }
  }

  /** Length of the segment step `i` adds on success. */
  function StepMs(p: Primitive, pattern: string, i: nat): (ms: nat)
    requires Valid(p) && i < |pattern|
  {
    if IsNoteStep(pattern[i]) then
      (TruncMulNonneg(0.25 * 4.0, p.samplesPerBeat as real);
       SegmentMs(NoteSampleCount(p, 0.25), p.sampleRate))
    else Max(0, RestMs(p))
  }

  /** Where step `n` starts in the output: the lengths of the steps before it. */
  function Offset(p: Primitive, pattern: string, n: nat): nat
    requires Valid(p) && n <= |pattern|
  {
    if n == 0 then 0 else Offset(p, pattern, n - 1) + StepMs(p, pattern, n - 1)
  }

  /** Step offsets never decrease. */
  lemma {:induction false} OffsetMonotone(p: Primitive, pattern: string, m: nat, n: nat)
    requires Valid(p) && m <= n <= |pattern|
    ensures Offset(p, pattern, m) <= Offset(p, pattern, n)
    decreases n
  {
    if m < n {
      OffsetMonotone(p, pattern, m, n - 1);
    }
  }

  /** A step that succeeds adds `StepMs` milliseconds, whichever note it plays. */
  lemma StepLength(p: Primitive, notes: seq<int>, pattern: string, i: nat)
    requires Valid(p) && i < |pattern| && Step(p, notes, pattern, i).Success?
    ensures |Step(p, notes, pattern, i).value| == StepMs(p, pattern, i)
  {
  }

  /** On success the output is as long as all the steps together. */
  lemma {:induction false} WalkLength(p: Primitive, notes: seq<int>, pattern: string, n: nat)
    requires Valid(p) && n <= |pattern| && Walk(p, notes, pattern, n).Success?
    ensures |Walk(p, notes, pattern, n).value| == Offset(p, pattern, n)
  {
    if n > 0 {
      WalkLength(p, notes, pattern, n - 1);
      StepLength(p, notes, pattern, n - 1);
    }
  }

  /**
   * On success the output is the steps laid end to end: step `i` occupies
   * `[Offset(i), Offset(i + 1))` and holds exactly that step's segment.
   */
  lemma {:induction false} WalkLayout(p: Primitive, notes: seq<int>, pattern: string, n: nat, i: nat)
    requires Valid(p) && i < n <= |pattern| && Walk(p, notes, pattern, n).Success?
    ensures Step(p, notes, pattern, i).Success?
    ensures Offset(p, pattern, i) <= Offset(p, pattern, i + 1) <= |Walk(p, notes, pattern, n).value|
    ensures Walk(p, notes, pattern, n).value[Offset(p, pattern, i)..Offset(p, pattern, i + 1)] ==
            Step(p, notes, pattern, i).value
  {
    var prev := Walk(p, notes, pattern, n - 1);
    var s := Step(p, notes, pattern, n - 1);
    assert Walk(p, notes, pattern, n).value == prev.value + s.value;
    WalkLength(p, notes, pattern, n - 1);
    StepLength(p, notes, pattern, n - 1);
    var lo, hi := Offset(p, pattern, i), Offset(p, pattern, i + 1);
    if i == n - 1 {
      assert (prev.value + s.value)[lo..hi] == s.value;
    } else {
      WalkLayout(p, notes, pattern, n - 1, i);
      assert hi <= |prev.value|;
      assert (prev.value + s.value)[lo..hi] == prev.value[lo..hi];
    }
  }

  /** A note step plays the note the step index selects, cycling through the notes. */
  lemma NoteStepPlays(p: Primitive, notes: seq<int>, pattern: string, i: nat)
    requires Valid(p) && i < |pattern| && IsNoteStep(pattern[i]) && Step(p, notes, pattern, i).Success?
    ensures |notes| > 0
    ensures Step(p, notes, pattern, i).value ==
      Gain(NoteAudio(p, notes[i % |notes|], 0.25, StepCutoff(pattern[i])), StepGainDb(pattern[i]))
    ensures forall k :: 0 <= k < |Step(p, notes, pattern, i).value| ==>
      Step(p, notes, pattern, i).value[k] ==
      Boost(Sound(BassNote(notes[i % |notes|], 0.25, StepCutoff(pattern[i])), k), StepGainDb(pattern[i]))
  {
  }

  /** A rest step is one beat of silence. */
  lemma RestStepIsSilent(p: Primitive, notes: seq<int>, pattern: string, i: nat)
    requires Valid(p) && i < |pattern| && !IsNoteStep(pattern[i])
    ensures Step(p, notes, pattern, i) == Success(Silent(RestMs(p)))
    ensures forall k :: 0 <= k < |Step(p, notes, pattern, i).value| ==> Step(p, notes, pattern, i).value[k] == Quiet
  {
  }

  /** At 120 bpm and 44100 Hz a rest lasts 500 ms. */
  lemma RestAt120()
    ensures Valid(Primitive(120, 44100, 22050))
    ensures RestMs(Primitive(120, 44100, 22050)) == 500
  {
    SamplesPerBeatAt120();
    assert 0.25 * 4.0 * 22050.0 / 44100.0 * 1000.0 == 500.0;
    TruncOfInt(500);
  }
}
