# techno: a verified model of the audio core

This project models the core of the `techno` Python package in Dafny. `techno`
builds techno tracks from code. It synthesises kicks, bass notes and hi-hats;
it lays them out on a bar and beat grid; it arranges phrases into sections and
sections into a track; and it processes the result with dynamics, distortion,
filters and stereo effects.

The model works at two levels.

* **Sample level** (`pcm.dfy`, `dynamics.dfy`, `distortion.dfy`,
  `spatial.dfy`, `legacy_spatial.dfy`, part of `primitives.dfy` and
  `filters.dfy`): a buffer is the int16 samples that `get_array_of_samples()`
  returns, with its frame rate and channel count. The effects' numpy
  arithmetic is written out over exact reals. Clipping, truncation toward zero
  (`astype(np.int16)`, `int()`) and Python's round-half-to-even are explicit.
* **Millisecond level** (`audio.dfy` and the arrangement modules): a pydub
  `AudioSegment` is a sequence of one-millisecond ticks. A tick records
  symbolically what produced it: silence, a rendered voice at an offset, a
  mix, a gain, or a whole-segment effect. Slicing, looping, appending and
  overlaying are exact over ticks; a rendered segment's length is pydub's
  rounded length, and appending adds those whole-millisecond lengths (see
  "Left out"). What the ticks sound like is not modelled.

Modules follow the package:
* `timing.dfy`: `core/timing.py`.
* `synthesis.dfy`: `core/synthesis.py`.
* `primitives.dfy`: `core/primitives.py`.
* `frequency.dfy`: `core/frequency.py`.
* `dynamics.dfy`, `distortion.dfy`, `filters.dfy`, `spatial.dfy` and
  `legacy_spatial.dfy`: the `processing` files.
* `phrase.dfy` and `section.dfy`: `composition/phrase.py` and
  `composition/section.py`.
* `structure.dfy`: `composition/structure.py`.
* `synth_generator.dfy`: `generators/synth_generator.py`.

`numeric.dfy`, `wrappers.dfy`, `pcm.dfy` and `audio.dfy` hold the shared
arithmetic, result types and the two audio representations.

The model has two kinds of operations:
* pure computations, written as functions;
* loops and in-place buffer updates, written as methods. Each method is proved
  to return exactly what a specification function describes; that covers the
  303 walker, the ADSR fill, the compressor, the delays, the phrase, section
  and track builders, and the stem generators.

These errors the source raises are a `Failure` in the model:
* a non-positive tempo;
* a bass frequency out of range;
* a closedness out of range (for both, scipy's own refusals are inside the filter parameter, see Left out);
* a bad compressor ratio;
* numpy's negative array length in the time axis, the waveforms and the decay;
* numpy shape errors in the envelope;
* scipy's refusals in the three filters: a bad Butterworth or peak design,
  and a buffer too short for `filtfilt`.

The remaining error paths (a zero peak before normalising, a zero delay
that numpy refuses or that never ends the tap loop, a negative delay, a
tempo that makes a loop endless) are excluded by a `requires`; each is
listed under "Left out".

## Model

| member | source | states |
|---|---|---|
| Numeric.Trunc | src/techno/core/timing.py:55 | Python's `int()` of a float: the integer next to x on the side of zero, less than 1 away |
| Numeric.TruncOfInt | src/techno/core/timing.py:55 | `int()` of a whole number gives it back |
| Numeric.RoundHalfEven | src/techno/core/timing.py:63 | Python's `round()`: within one half of x, and even on a tie |
| Numeric.RoundUnique | src/techno/core/timing.py:63 | an integer closer than one half to x is its rounding |
| Numeric.RoundOfInt | src/techno/core/timing.py:63 | rounding a whole number gives it back |
| Numeric.Clip | src/techno/processing/filters.py:139 | `np.clip` stays within its bounds, keeps values inside them and sends others to the nearer bound |
| Timing.NewMusicalTime | src/techno/core/timing.py:18-25 | succeeds exactly for bars >= 0, beats 0..3 and sixteenths 0..4; otherwise it reports the first failed check, in the source's order |
| Timing.FourSixteenthsIsNextBeat | src/techno/core/timing.py:24-29 | four sixteenths are accepted, so `(b, k, 4)` and `(b, k+1, 0)` are both valid and name the same beat |
| Timing.ToBeatsExample | tests/test_timing.py:13-16 | two bars, one beat and four sixteenths are a valid position of ten beats |
| Timing.ToBeats | src/techno/core/timing.py:27-29 | a valid position's beat count lies between its whole bars' beats and the next bar's |
| Timing.ToMs | src/techno/core/timing.py:31-35 | fails exactly on a zero tempo (division by zero) |
| Timing.ToMsWholeBars | src/techno/core/timing.py:27-35 | `to_ms` of a whole-bar position equals the 4/4 calculator's `bars_to_ms` |
| Timing.NewCalculator | src/techno/core/timing.py:41-51 | fails exactly when bpm <= 0; otherwise a beat is 60000/bpm ms, a bar is beats_per_bar beats and a sixteenth is a quarter beat |
| Timing.Calculator.MsPerBeat | src/techno/core/timing.py:49 | a beat is positive and beat length times tempo is 60000 ms |
| Timing.Calculator.MsPerBar | src/techno/core/timing.py:50 | bar length times tempo is 60000 ms per beat of the bar, and positive when the bar has beats |
| Timing.Calculator.MsPer16th | src/techno/core/timing.py:51 | a sixteenth is positive and its length times tempo is 15000 ms |
| Timing.Calculator.BarsToMs | src/techno/core/timing.py:53-55 | the result is `bars * ms_per_bar` truncated toward zero: no larger in magnitude and less than 1 ms short; never negative for non-negative bars |
| Timing.Calculator.MsToBars | src/techno/core/timing.py:57-59 | fails exactly for a zero-beat bar; otherwise the result times the bar length is the input |
| Timing.Calculator.NearestBar | src/techno/core/timing.py:61-64 | fails exactly for a zero-beat bar; otherwise the snapped time lies within half a bar (plus 1 ms of truncation) of the input |
| Timing.Calculator.NearestBeat | src/techno/core/timing.py:66-69 | the snapped time lies within half a beat (plus 1 ms of truncation) of the input |
| Timing.SnapNear | src/techno/core/timing.py:61-69 | rounding to a whole number of positive units and truncating lands within half a unit plus 1 ms of the input |
| Timing.Calculator.CreateGrid | src/techno/core/timing.py:71-85 | fails exactly for subdivision 0; otherwise it has max(0, bars*subdivision) points and starts at 0 |
| Timing.BeatMsTempo | src/techno/core/timing.py:49 | a faster tempo never gives a longer beat |
| Timing.At120Bpm | tests/test_timing.py:18-52 | at 120 bpm one bar is 2000 ms by `to_ms` and `bars_to_ms`, eight bars are 16000 ms, and `ms_to_bars` maps both back to 1 and 8 |
| Timing.BarsToMsMonotone | src/techno/core/timing.py:53-55 | more bars never take fewer milliseconds |
| Timing.BarsToMsTempo | src/techno/core/timing.py:49-55 | a faster tempo never makes a span of bars longer |
| Timing.FasterIsShorterExample | tests/test_timing.py:75-84 | a bar at 140 bpm is shorter than a bar at 100 bpm |
| Timing.BarsToMsAdditive | src/techno/core/timing.py:53-55 | splitting a span of bars in two loses at most one millisecond to truncation |
| Timing.BarsToMsRepeat | src/techno/core/timing.py:53-55 | k copies of n bars are never longer than k*n bars |
| Timing.MsToBarsRoundTrip | src/techno/core/timing.py:53-59 | `ms_to_bars(bars_to_ms(b))` lies within one millisecond's worth of bars below b |
| Timing.SnapIdempotent | src/techno/core/timing.py:61-69 | snapping to a unit of at least 2 ms is idempotent |
| Timing.NearestBarIdempotent | src/techno/core/timing.py:61-64 | `nearest_bar` is idempotent when a bar is at least 2 ms long |
| Timing.NearestBeatIdempotent | src/techno/core/timing.py:66-69 | `nearest_beat` is idempotent when a beat is at least 2 ms long |
| Timing.NearestBarExample | tests/test_timing.py:54-64 | at 120 bpm, 1900 ms and 2100 ms both snap to 2000 ms |
| Timing.GridMonotone | src/techno/core/timing.py:82-85 | grid points never go backwards |
| Timing.GridBarLines | src/techno/core/timing.py:82-85 | grid point k*subdivision equals `bars_to_ms(k)` |
| Timing.BeatMsPositive | src/techno/core/timing.py:49 | a beat at a positive tempo is positive, and beat length times tempo is 60000 |
| Timing.BarLengthTempo | src/techno/core/timing.py:49-50 | at a faster tempo a bar is no longer |
| Synthesis.Linspace | core/synthesis.py:16 | `np.linspace` has n points, starts at start and, from two points on, ends at stop |
| Synthesis.LinPointBetween | core/synthesis.py:70 | every point of a ramp lies between its two ends |
| Synthesis.LinPointMonotone | core/synthesis.py:70 | a rising ramp never goes down |
| Synthesis.TimeAxis | core/synthesis.py:16 | fails with numpy's negative-length error exactly when `int(sample_rate * duration)` is negative; otherwise has that many points, from 0 up to the duration |
| Synthesis.Waveform | core/synthesis.py:13-35 | fails exactly when the sample count is negative; otherwise one sample per time point, starting at the oscillator's value at 0, within [-1, 1] when the oscillator is |
| Synthesis.ExponentialDecay | core/synthesis.py:88-92 | fails exactly when the sample count is negative; otherwise one value per time point, starting at exp(0) |
| Synthesis.DecayFalls | core/synthesis.py:88-92 | with a rising exponential, a non-negative rate and duration, the decay never goes up |
| Synthesis.Envelope | core/synthesis.py:58-86 | the envelope has one value per sample |
| Synthesis.PhasesCheck | core/synthesis.py:58-84 | numpy raises no error exactly when every phase count is non-negative and each ramp fits its clamped slice or has a single point, which broadcasts (a decay of 0 or 1 points always fits) |
| Synthesis.SliceBound | core/synthesis.py:78-84 | a non-negative slice start is kept; a negative one counts from the end and stops at 0 |
| Synthesis.FillRamp | core/synthesis.py:70 | writes the ramp into the slice and leaves every other sample unchanged |
| Synthesis.FillLevel | core/synthesis.py:80 | writes the level into the slice, writes nothing for an empty slice, and leaves every other sample unchanged |
| Synthesis.Adsr | core/synthesis.py:42-86 | the zeroed buffer, overwritten phase by phase, is exactly the specified envelope, or numpy's error |
| Synthesis.SustainIsRemainder | core/synthesis.py:77-80 | with non-overlapping phases, every sample between decay and release is at the sustain level |
| Synthesis.AttackReachesOne | tests/test_synthesis.py:98-100 | the last attack sample is exactly 1 |
| Synthesis.AttackRises | core/synthesis.py:69-70 | the attack never goes down |
| Synthesis.DecayEnds | core/synthesis.py:72-75 | the decay starts at 1 and ends at the sustain level |
| Synthesis.ReleaseEnds | core/synthesis.py:82-84 | the release starts at the sustain level and the envelope ends at 0 |
| Synthesis.EnvelopeInUnitRange | tests/test_synthesis.py:93-95 | with a sustain level in [0, 1] every value is in [0, 1], overlapping phases included |
| Synthesis.OnePointAttackOnEmptyBuffer | core/synthesis.py:58-86 | a zero-length envelope with a one-sample attack broadcasts the one-point ramp into the empty slice and returns an empty envelope |
| Synthesis.AdsrExampleFits | tests/test_synthesis.py:80-91 | the test's parameters give 44100 samples with 4410/8820/13230-sample phases that do not overlap |
| Pcm.ClipToInt16 | src/techno/processing/dynamics.py:52 | the result is an int16; in-range values are truncated and out-of-range values go to the nearer bound |
| Pcm.ClipToInt16OfInt | src/techno/processing/filters.py:139-140 | clipping and casting an int16 value gives it back |
| Pcm.ToReals | src/techno/processing/dynamics.py:29 | same length and the same values as reals |
| Pcm.Peak | src/techno/core/primitives.py:70 | at least every sample's magnitude and equal to one of them (0 for an empty buffer) |
| Pcm.PeakPositiveIffSignal | src/techno/core/primitives.py:70 | the peak is positive exactly when some sample is non-zero |
| Pcm.PeakNormalise | src/techno/core/primitives.py:70 | same length, all values in [-1, 1], one value at +-1, and every sample keeps its sign |
| Pcm.ScaleToPeak | src/techno/processing/spatial.py:68-69 | a sample scaled against the peak stays within +-32767, reaches it at the peak and keeps its sign |
| Pcm.NormaliseToInt16 | src/techno/processing/spatial.py:68-69 | same length, within +-32767, one sample at +-32767, and no sample changes sign |
| Audio.Silent | composition/section.py:29 | `silent(d)` has max(0, d) quiet ticks |
| Audio.Render | src/techno/core/primitives.py:19-26 | a rendered voice of ms ticks plays the voice at every offset |
| Audio.Slice | composition/section.py:191 | `a[s:e]` has the clamped length and holds `a[s + k]` at k |
| Audio.Take | generators/synth_generator.py:54 | `a[:n]` is the first min(n, len) ticks |
| Audio.PyTake | generators/synth_generator.py:54 | a non-negative stop keeps the first min(n, len) ticks; a stop n in [-len, 0) keeps len + n ticks; a stop below -len wraps a second time, as pydub's byte slice does, and keeps max(0, 2·len + n) ticks |
| Audio.Overlay | composition/phrase.py:46 | keeps the base length; inside the layer's span every tick mixes base and layer, elsewhere the base is unchanged |
| Audio.Gain | composition/phrase.py:126 | keeps the length and boosts every tick by the gain |
| Audio.Apply | src/techno/composition/structure.py:146 | a whole-segment effect keeps the length |
| Audio.Loop | composition/section.py:169-175 | the loop of p to n has n ticks, starts with p, and is a prefix of p when n is short |
| Audio.Looped | composition/section.py:165-175 | appending p until target is reached, then cutting, leaves max(0, target) ticks |
| Audio.LoopAt | composition/section.py:165-175 | tick k of a loop is tick k mod len(p) of p |
| Audio.RepeatedToTarget | generators/synth_generator.py:47-54 | appending copies until the target is reached and cutting at it gives the loop of p |
| Audio.TakeRepeat | generators/synth_generator.py:54 | cutting any number of copies at n gives the loop of length n |
| Audio.SegmentMs | src/techno/core/primitives.py:26 | the length of a segment of non-negative frames is non-negative |
| Audio.OverlayHearsLayer | composition/phrase.py:46 | the overlaid layer is carried by every tick it covers |
| Audio.OverlayKeepsHeard | composition/phrase.py:46 | an overlay keeps whatever was already carried |
| Audio.Layered | composition/phrase.py:111-130 | repeated overlays keep the base length |
| Audio.LayeredSnoc | composition/phrase.py:128 | one more layer is one more overlay |
| Audio.LayeredHearsEach | composition/phrase.py:111-130 | every layer overlaid in turn is still carried at the end, whatever came after it |
| Audio.ConcatSnoc | src/techno/composition/structure.py:130 | `+=` appends one more segment |
| Audio.ConcatPrefix | src/techno/composition/structure.py:87-130 | the segments appended first are a prefix of the whole |
| Audio.ConcatInPlace | src/techno/composition/structure.py:87-130 | segment j sits, whole, right after the segments before it |
| Audio.ConcatUniformLength | generators/synth_generator.py:64-72 | n segments of equal length append to n times that length |
| Audio.ConcatUniformAt | generators/synth_generator.py:64-72 | with equal-length segments, segment i starts at i times the length |
| Primitives.NewPrimitive | src/techno/core/primitives.py:14-17 | fails exactly on a zero tempo; otherwise samples_per_beat is `(60/bpm)*rate` truncated |
| Primitives.SamplesPerBeatAt120 | src/techno/core/primitives.py:14-17 | 22050 samples per beat at 120 bpm and 44100 Hz |
| Primitives.ToInt16 | src/techno/core/primitives.py:22 | a sample in [-1, 1] becomes an integer within +-32767, of the same sign, less than 1 from s*32767 |
| Primitives.ToAudioSegment | src/techno/core/primitives.py:19-26 | a mono int16 segment at the primitive's rate, one sample per input sample |
| Primitives.NormalisedSegment | src/techno/core/primitives.py:144-146 | normalising by the peak and then converting puts the loudest sample at +-32767 |
| Primitives.NoteLengths | src/techno/core/primitives.py:118 | a quarter-bar note is one beat of samples, and an eighth-bar note half a beat rounded down |
| Primitives.GenerateNote | src/techno/core/primitives.py:102-146 | fails exactly outside 20..2000 Hz (scipy's own refusals are inside the filter parameter, see Left out); otherwise a mono int16 note of `int(bars*4*samples_per_beat)` samples peaking at +-32767 |
| Primitives.DecayRateRange | src/techno/core/primitives.py:219 | the hat decay rate goes from 10 (open) to 50 (closed) |
| Primitives.DecayRateMonotone | src/techno/core/primitives.py:219 | a more closed hat decays faster |
| Primitives.GenerateHat | src/techno/core/primitives.py:188-227 | fails exactly for closedness outside [0, 1] (scipy's own refusals are inside the filter parameter, see Left out); otherwise a mono int16 hat of `int(ms/1000*rate)` samples peaking at +-32767 |
| Primitives.KickAudio | src/techno/core/primitives.py:48 | a kick lasts the segment length of `int(decay_ms/1000*rate)` samples |
| Primitives.KickLength | src/techno/core/primitives.py:74-92 | at 44100 Hz the minimal, industrial and default kicks last 150, 250 and 200 ms |
| Primitives.NoteAudio | src/techno/core/primitives.py:118 | a note lasts the segment length of its sample count |
| Primitives.HatAudio | src/techno/core/primitives.py:200 | a hat lasts the segment length of its sample count |
| Primitives.HatLength | src/techno/core/primitives.py:191-200 | at 44100 Hz the default hat lasts 50 ms |
| Primitives.AtDefaultRate | src/techno/core/primitives.py:14-17 | the arrangement's primitives are valid, at the given tempo and 44100 Hz |
| Primitives.StepCutoff | src/techno/core/primitives.py:164-169 | the cutoff is 800 Hz for an accent and 560 Hz otherwise |
| Primitives.Step | src/techno/core/primitives.py:158-180 | a step fails exactly when it is a note step with no notes or with a note outside the bass range |
| Primitives.Generate303Pattern | src/techno/core/primitives.py:148-182 | the loop returns the steps' segments in order, or the first step's error |
| Primitives.FailureSticks | src/techno/core/primitives.py:158-176 | once a step fails, every longer walk reports that failure |
| Primitives.WalkSucceeds | src/techno/core/primitives.py:158-176 | the walk succeeds exactly when every note step finds a note in the bass range |
| Primitives.StepLength | src/techno/core/primitives.py:164-180 | a successful step's length depends only on its kind, not on the note |
| Primitives.WalkLength | src/techno/core/primitives.py:156-182 | the output is as long as all the steps together |
| Primitives.WalkLayout | src/techno/core/primitives.py:156-182 | step i occupies the span between its offset and the next one and holds exactly its segment |
| Primitives.NoteStepPlays | src/techno/core/primitives.py:159-176 | a note step plays note `i mod len(notes)` at its cutoff, with 3 dB more for an accent |
| Primitives.RestStepIsSilent | src/techno/core/primitives.py:177-180 | a rest step is one beat of silence |
| Primitives.RestAt120 | src/techno/core/primitives.py:179 | at 120 bpm and 44100 Hz a rest lasts 500 ms |
| Filters.RunStages | src/techno/processing/filters.py:36-47 | the stages succeed exactly when no stage's design or length check fails; then the buffer length is kept; otherwise the error is the first failing stage's |
| Filters.LowPassStages | src/techno/processing/filters.py:32-47 | a Butterworth low pass at `cutoff / nyquist`, followed exactly when resonance > 0 by the peak at the same frequency with Q = 10 * resonance |
| Filters.ArrayToAudio | src/techno/processing/filters.py:135-147 | a mono int16 segment at the reference's rate whose sample i is sample i clipped and truncated |
| Filters.ArrayToAudioRoundTrip | src/techno/processing/filters.py:135-147 | converting int16 samples to floats and back gives the same samples |
| Filters.LowPassFilter | src/techno/processing/filters.py:16-49 | succeeds exactly for order >= 0, cutoff strictly inside (0, nyquist) and more than 3 (order + 1) samples (and more than 9 with the peak); fails with the design error first, then the length error; on success keeps the length, gives int16 mono at the input's rate |
| Filters.HighPassFilter | src/techno/processing/filters.py:51-70 | succeeds exactly for order >= 0, cutoff strictly inside (0, nyquist) and more than 3 (order + 1) samples; fails with the design error first, then the length error; on success keeps the length, gives int16 mono at the input's rate |
| Filters.BandPassFilter | src/techno/processing/filters.py:72-91 | succeeds exactly for edges ascending strictly inside (0, nyquist) and more than 27 samples; fails with the design error first, then the length error; on success keeps the length, gives int16 mono at the input's rate |
| Filters.LowPassOfTransparentStages | src/techno/processing/filters.py:16-49 | if the filter stages change nothing, a low pass that succeeds returns an int16 input unchanged |
| Filters.SweepDuration | src/techno/processing/filters.py:105 | a missing or zero sweep length falls back to the audio length |
| Filters.Progress | src/techno/processing/filters.py:115 | the progress of a chunk lies in [0, 1) |
| Filters.SweepChunks | src/techno/processing/filters.py:113-125 | one filtered chunk per chunk index, in order |
| Filters.FilterSweep | src/techno/processing/filters.py:93-133 | the loop, the remainder step and the join return exactly the specified sweep |
| Filters.FilterChunks | src/techno/processing/filters.py:111-131 | the chunk loop plus the remainder step build exactly the specified list of parts |
| Filters.Join | src/techno/processing/filters.py:133 | summing the parts onto empty silence joins them back to back |
| Filters.ConcatAppend | src/techno/processing/filters.py:133 | joining two lists of parts joins their results |
| Filters.ChunksLength | src/techno/processing/filters.py:113-125 | chunks that lie inside the audio are 500 ms each |
| Filters.SweepKeepsLength | src/techno/processing/filters.py:105-133 | a sweep over the whole audio returns as many milliseconds as it was given |
| Filters.ConcatOfChunks | src/techno/processing/filters.py:133 | joined 500 ms parts put part i at [500 i, 500 i + 500) |
| Filters.SweepChunkPlacement | src/techno/processing/filters.py:113-125 | output span [500 i, 500 i + 500) is input span [500 i, 500 i + 500) low-passed at chunk i's cutoff |
| Filters.FirstChunkAtStart | src/techno/processing/filters.py:115-116 | the first chunk is filtered at the start frequency |
| Filters.ProgressMonotone | src/techno/processing/filters.py:115 | later chunks have no less progress |
| Filters.RisingCutoffsMonotone | src/techno/processing/filters.py:115-116 | a rising sweep's cutoffs never go down |
| Filters.RisingCutoffBelowEnd | src/techno/processing/filters.py:115-116 | a strictly rising sweep stays in [start, end) over the chunks |
| Filters.TailOnlyForRemainder | src/techno/processing/filters.py:127-131 | the remainder is filtered at the end frequency exactly when the length is not a multiple of 500 |
| Filters.ShortSweepDropsRest | src/techno/processing/filters.py:105-131 | as written, a 500 ms sweep over 1000 ms of audio returns only 500 ms |
| Filters.IntendedSweepKeepsLength | src/techno/processing/filters.py:105-133 | with the remainder taken from wherever the chunks stop, any sweep no longer than the audio keeps its full length |
| Filters.IntendedAgreesOnFullSweep | src/techno/processing/filters.py:105-133 | over the whole audio the corrected sweep equals the sweep as written |
| Dynamics.Unscaled | src/techno/processing/dynamics.py:29-30 | sample i becomes sample i / 32768 |
| Dynamics.Rescaled | src/techno/processing/dynamics.py:51-52 | sample i becomes value i times 32768, clipped and truncated to int16 |
| Dynamics.CompressAll | src/techno/processing/dynamics.py:38-48 | every sample goes through the transfer curve, in place |
| Dynamics.Compress | src/techno/processing/dynamics.py:13-59 | the loop over the copied buffer returns exactly the specified result: the `1 / ratio` error, or the compressed mono segment |
| Dynamics.CompressInPlace | src/techno/processing/dynamics.py:36-48 | succeeds exactly when the ratio is non-zero or no sample is over the threshold, and then the buffer holds every sample through the curve |
| Dynamics.ReducedExcess | src/techno/processing/dynamics.py:43-48 | the excess minus its reduction is the excess divided by the ratio |
| Dynamics.CompressedLevel | src/techno/processing/dynamics.py:41-48 | over the threshold the level becomes threshold + excess / ratio, with the sign kept |
| Dynamics.CompressNeverLouderSample | src/techno/processing/dynamics.py:38-48 | with a ratio of at least 1 no sample gets louder |
| Dynamics.UnitRatioSample | src/techno/processing/dynamics.py:38-48 | a ratio of 1 leaves every sample as it was |
| Dynamics.QuietSampleUnchanged | src/techno/processing/dynamics.py:41 | a sample at or under the threshold comes back unchanged |
| Dynamics.UnitRatioIsIdentity | src/techno/processing/dynamics.py:13-59 | with a ratio of 1 the compressor returns its int16 samples unchanged, as mono |
| Dynamics.CompressFailsIff | src/techno/processing/dynamics.py:44 | the compressor fails exactly when the ratio is 0 and some sample is over the threshold |
| Dynamics.CompressNeverLouder | src/techno/processing/dynamics.py:13-59 | with a ratio of at least 1 no output sample is louder than its input |
| Dynamics.CompressShape | src/techno/processing/dynamics.py:54-59 | the output keeps the sample count and frame rate, is mono and int16 |
| Dynamics.LimitSample | src/techno/processing/dynamics.py:76-80 | a limited sample is within the ceiling and never louder than its input |
| Dynamics.Limit | src/techno/processing/dynamics.py:61-87 | keeps the sample count and rate, emits mono, and every sample lies within the ceiling |
| Dynamics.LimitKeepsQuietSamples | src/techno/processing/dynamics.py:76 | samples already within the ceiling pass unchanged |
| Distortion.Waveshaper | src/techno/processing/distortion.py:13-48 | keeps the sample count and rate, emits mono int16, and shapes every sample on its own |
| Distortion.HardShapedRange | src/techno/processing/distortion.py:33-40 | the hard curve keeps the scaled value within +-0.8 of full scale |
| Distortion.HardCurveBound | src/techno/processing/distortion.py:33-41 | a hard-clipped sample is at most 26214 in magnitude |
| Distortion.HardShapedPositive | src/techno/processing/distortion.py:27-40 | under a non-negative drive a sample of at least 1 stays at least 1 after the hard clip |
| Distortion.HardShapedOdd | src/techno/processing/distortion.py:27-40 | the hard curve is odd: negating the sample negates the result |
| Distortion.HardCurveKeepsSign | src/techno/processing/distortion.py:27-41 | with a non-negative drive the hard curve keeps every sample on its side of zero |
| Distortion.UnknownCurveNoDriveIsIdentity | src/techno/processing/distortion.py:36-41 | an unrecognised curve name with zero drive changes no int16 sample |
| Distortion.Levels | src/techno/processing/distortion.py:62 | there is at least one level |
| Distortion.BitCrush | src/techno/processing/distortion.py:50-74 | keeps the sample count and rate, emits mono int16, and quantises every sample on its own |
| Distortion.QuantiseRange | src/techno/processing/distortion.py:66 | an int16 sample scales to within +-levels |
| Distortion.CrushStepRange | src/techno/processing/distortion.py:66 | an int16 sample rounds to a step index in [-levels, levels] |
| Distortion.GridSpansFullScale | src/techno/processing/distortion.py:62-66 | with at most 15 bits, 2^b levels of 2^(15-b) each span full scale |
| Distortion.StepPosition | src/techno/processing/distortion.py:66 | on a grid whose steps span 32768, q / levels * 32768 is q times the step |
| Distortion.RescaleOnGrid | src/techno/processing/distortion.py:66 | with at most 15 bits, step q rescales to q * 2^(15-b) |
| Distortion.GridWithinInt16 | src/techno/processing/distortion.py:66-67 | the grid's steps below the top one are int16 values |
| Distortion.CrushLevelValue | src/techno/processing/distortion.py:66-67 | with at most 15 bits, step q lands on q * 2^(15-b), or on 32767 at the top step |
| Distortion.CrushedOnGrid | src/techno/processing/distortion.py:66-67 | with at most 15 bits every crushed sample sits on the 2^(15-b) grid or at 32767 |
| Distortion.LevelsUpTo | src/techno/processing/distortion.py:66-67 | the first k step levels are at most k values |
| Distortion.LevelInLevels | src/techno/processing/distortion.py:66-67 | every step index in range has its level in the level set |
| Distortion.CrushedDistinctValues | src/techno/processing/distortion.py:50-74 | the crushed buffer takes at most 2 * 2^b + 1 distinct values |
| Distortion.DeepLevels | src/techno/processing/distortion.py:62 | from 15 bits up the levels are 32768 * 2^(b-15) |
| Distortion.QuantiseDeep | src/techno/processing/distortion.py:66 | from 15 bits up a sample scales to a whole number of steps |
| Distortion.RescaleDeep | src/techno/processing/distortion.py:66 | from 15 bits up, rescaling s * 2^(b-15) steps gives s back |
| Distortion.CrushSampleIdentity | src/techno/processing/distortion.py:66-67 | from 15 bits up an int16 sample comes back unchanged |
| Distortion.DeepCrushIsIdentity | src/techno/processing/distortion.py:50-74 | from 15 bits up the crusher is the identity on int16 samples |
| Spatial.DelaySamples | src/techno/processing/spatial.py:32 | `int(delay_ms / 1000 * rate)`: the product truncated toward zero, less than one sample away from it |
| Spatial.DelaySamplesNonneg | src/techno/processing/spatial.py:32 | a non-negative delay at a non-negative rate is a non-negative number of samples |
| Spatial.AddShifted | src/techno/processing/spatial.py:40 | `w[shift:] += x[:len - shift] * gain` keeps the length and adds the shifted, scaled sample where it reaches |
| Spatial.AddTap | src/techno/processing/spatial.py:52 | the in-place slice addition leaves the buffer equal to the specified shifted sum |
| Spatial.FirstStop | src/techno/processing/spatial.py:43-53 | the tap loop stops at the first tap that starts past the end or is quieter than 1e-4, and at none before; it ends for every positive shift, and for a zero shift with a feedback below 1 |
| Spatial.TapsLeftDecreases | src/techno/processing/spatial.py:44-53 | every tap at which the loop does not stop leaves fewer taps to come, so the loop ends |
| Spatial.QuietAfterBound | src/techno/processing/spatial.py:48-50 | with a feedback in (0, 1) the attenuation falls below 1e-4 after a bounded number of taps |
| Spatial.PowerDecayBound | src/techno/processing/spatial.py:48 | for a feedback in (0, 1), f^k stays in [0, 1] and f^k (f + k (1 - f)) <= f, the bound the termination argument needs |
| Spatial.DecayStep | src/techno/processing/spatial.py:48 | one more tap keeps the attenuation in [0, 1] and keeps the bound of PowerDecayBound |
| Spatial.NegativePowerStep | src/techno/processing/spatial.py:48-50 | after a positive power of a negative feedback comes a negative one, below 1e-4, so the loop stops |
| Spatial.Taps | src/techno/processing/spatial.py:43-53 | adding taps keeps the buffer length |
| Spatial.TapsClosedForm | src/techno/processing/spatial.py:43-53 | sample i of the tapped signal is the dry sample plus every tap's echo that reaches it |
| Spatial.Wet | src/techno/processing/spatial.py:34-53 | without feedback the wet signal is the dry signal plus one full-strength echo, where the echo reaches |
| Spatial.Mixed | src/techno/processing/spatial.py:56 | sample i of the blend is `x * (1 - mix) + w * mix` |
| Spatial.ClipAll | src/techno/processing/spatial.py:65 | every value clipped and truncated to int16 |
| Spatial.DelayOutput | src/techno/processing/spatial.py:55-69 | the output keeps the sample count |
| Spatial.AddEchoes | src/techno/processing/spatial.py:42-53 | the while loop adds exactly the taps before the first stop |
| Spatial.BuildWet | src/techno/processing/spatial.py:34-53 | builds exactly the specified wet signal, one echo without feedback and decaying taps with it |
| Spatial.Delay | src/techno/processing/spatial.py:13-73 | returns exactly the specified output, mono at the input's rate, for every non-negative delay the source completes, including a zero delay with a non-zero feedback below 1 |
| Spatial.FirstEchoAlwaysAdded | src/techno/processing/spatial.py:42-53 | the first echo is always at full strength, so a delay shorter than the buffer adds at least one tap |
| Spatial.ZeroShiftEchoSum | src/techno/processing/spatial.py:44-53 | with a zero shift, the echoes of n taps at a sample add up to 1 + f + ... + f^(n-2) times it |
| Spatial.ZeroShiftTaps | src/techno/processing/spatial.py:44-53 | with a zero shift, n taps make every sample its dry value plus that geometric sum of itself |
| Spatial.WetOfZeroShift | src/techno/processing/spatial.py:34-53 | with feedback and a zero shift, the wet signal is the taps up to the loop's first stop |
| Spatial.ZeroShiftWet | src/techno/processing/spatial.py:34-53 | with a zero delay and a feedback below 1, every wet sample is the dry one plus 1 + f + ... + f^(n-2) times itself, n being the loop's first stop |
| Spatial.FullyWetMixIsWet | src/techno/processing/spatial.py:56 | with a fully wet mix the blend is the wet signal |
| Spatial.UnnormalisedBranch | src/techno/processing/spatial.py:59-65 | without feedback and fully wet, the output is the blend clipped, not normalised |
| Spatial.HaasRight | src/techno/processing/spatial.py:94-95 | the right channel is the input delayed by d at 0.8, and zero before d |
| Spatial.DelayedRight | src/techno/processing/spatial.py:94-95 | the zeroed buffer with the slice assignment is exactly the Haas right channel |
| Spatial.Interleave | src/techno/processing/spatial.py:106 | `column_stack(...).flatten()` puts left i at 2i and right i at 2i + 1 |
| Spatial.MonoPair | src/techno/processing/spatial.py:90-103 | both channels keep the input length |
| Spatial.Channel | src/techno/processing/spatial.py:110 | `reshape(-1, 2)` column c holds the samples at 2i + c |
| Spatial.StereoPair | src/techno/processing/spatial.py:108-121 | both channels have one sample per frame |
| Spatial.MonoStereo | src/techno/processing/spatial.py:83-106 | the mono branch returns exactly the interleaved pseudo-stereo pair |
| Spatial.StereoWidth | src/techno/processing/spatial.py:75-135 | the output is the widened buffer normalised to 32767, two channels at the input's rate |
| Spatial.MonoWidthLayout | src/techno/processing/spatial.py:83-106 | at width 1 mono input becomes 2n samples: left is the dry sample, right the 0.8 Haas echo |
| Spatial.MidSideUnitWidth | src/techno/processing/spatial.py:113-121 | at width 1 the mid/side round trip gives both channels back exactly |
| Spatial.StereoUnitWidthIsIdentity | src/techno/processing/spatial.py:107-124 | at width 1 a stereo buffer comes back unchanged before normalisation |
| Spatial.MonoUnitWidthHasSignal | src/techno/processing/spatial.py:83-127 | at width 1 a mono buffer with signal keeps it, so the normalisation is defined |
| LegacySpatial.CombAll | processing/spatial.py:35-39 | sample i of the delay buffer is its feedback-comb value |
| LegacySpatial.CombInPlace | processing/spatial.py:38-39 | the in-place loop, in increasing index order, leaves exactly the comb-filtered buffer |
| LegacySpatial.Delay | processing/spatial.py:13-50 | the blend of dry and comb-filtered signal, normalised to 32767, mono at the input's rate |
| LegacySpatial.LagIsProduct | processing/spatial.py:38-39 | k blocks of d samples lie k * d back |
| LegacySpatial.Distribute | processing/spatial.py:39 | multiplying a sum by the feedback scales each term |
| LegacySpatial.EchoTotalPeel | processing/spatial.py:38-39 | the echo sum at i is x[i] plus the feedback times the echo sum at i - d |
| LegacySpatial.CombClosedForm | processing/spatial.py:38-39 | a sample in block k is the sum over j of f^j * x[i - j d] |
| LegacySpatial.CombClosedFormAt | processing/spatial.py:38-39 | every sample is covered by the closed form of its own block i / d |
| LegacySpatial.HeadIsDry | processing/spatial.py:38 | the first d samples are the dry input |
| LegacySpatial.NoFeedbackIsDry | processing/spatial.py:39 | with no feedback the delay buffer is the dry input |
| Frequency.BandsContiguous | core/frequency.py:28-34 | the seven bands tile 20 Hz to 20 kHz, each ending where the next begins, none empty |
| Frequency.SevenBandNames | core/frequency.py:67-86 | the analysis reports exactly the seven band names, all distinct |
| Frequency.GetAllocation | core/frequency.py:36-46 | an element has bands exactly when it is one of the five known elements; every band is a standard band; only the kick gets the sub band; the kick gets exactly sub bass, bass and high mids, the bass exactly bass and low mids |
| Frequency.TotalEnergy | core/frequency.py:77 | the total energy is never negative |
| Frequency.BandEnergy | core/frequency.py:81-82 | a band's energy lies between 0 and the total |
| Frequency.Percentage | core/frequency.py:85 | a share lies in [0, 100], and is 0 for a silent spectrum |
| Frequency.UnitQuotient | core/frequency.py:85 | a part over a positive whole lies in [0, 1] |
| Frequency.AnalyzeFrequencyContent | core/frequency.py:49-88 | the loop reports one entry per band name, holding that band's share, each within [0, 100] |
| Frequency.SharedEdgeCountsTwice | core/frequency.py:81 | a bin exactly on a shared edge counts toward both neighbouring bands |
| Frequency.SilenceReportsZero | core/frequency.py:85 | a silent spectrum reports 0 for every band |
| Frequency.AllBinsInBand | core/frequency.py:81-82 | when every bin lies in one band, that band holds all the energy |
| Frequency.CarveFrequencySpace | core/frequency.py:91-122 | the loop keeps exactly the input's stem names, each with its own carved stem |
| Frequency.CarvingOnlyTouchesBass | core/frequency.py:103-120 | carving keeps every length, changes only an allocated stem named "bass", and high-passes that one at 80 Hz |
| Phrase.KickEvents | composition/phrase.py:39-46 | four kicks to the bar for eight bars: 32 events |
| Phrase.BassEvents | composition/phrase.py:62-75 | eight notes to the bar for eight bars: 64 events |
| Phrase.HatEvents | composition/phrase.py:87-97 | sixteen hats to the bar for eight bars: 128 events |
| Phrase.KickPattern | composition/phrase.py:26-48 | every style gives exactly eight bars, `bars_to_ms(8)` ms |
| Phrase.BassPattern | composition/phrase.py:50-77 | every rhythm gives exactly eight bars |
| Phrase.HatPattern | composition/phrase.py:79-99 | every density gives exactly eight bars |
| Phrase.CreateKickPattern | composition/phrase.py:26-48 | the overlay loop returns exactly the specified kick pattern |
| Phrase.CreateBassPattern | composition/phrase.py:50-77 | the overlay loop returns exactly the specified bassline |
| Phrase.CreateHatPattern | composition/phrase.py:79-99 | the overlay loop returns exactly the specified hat pattern |
| Phrase.StrictGrid | composition/phrase.py:45 | with a step of at least 1 ms, truncated grid positions strictly increase |
| Phrase.PhraseMsInSteps | composition/phrase.py:19 | eight bars are 32 beats, 64 eighths or 128 sixteenths |
| Phrase.KickGridIncreasing | composition/phrase.py:44-46 | up to 60000 bpm the kicks start at strictly increasing times, all inside the phrase |
| Phrase.BassGridIncreasing | composition/phrase.py:65-75 | up to 30000 bpm the bass notes start at strictly increasing times, all inside the phrase |
| Phrase.HatGridIncreasing | composition/phrase.py:90-97 | up to 15000 bpm the hats start at strictly increasing times, all inside the phrase |
| Phrase.BeatAtLeast | src/techno/core/timing.py:49 | under a tempo limit a beat lasts at least 60000 / limit ms |
| Phrase.KickPatternHearsEveryKick | composition/phrase.py:37-46 | in four on the floor, every kick is heard from its beat on |
| Phrase.BassPatternCyclesNotes | composition/phrase.py:60-75 | bass note i is `notes[i % 4]` as an eighth-bar saw, heard from its eighth on |
| Phrase.HatPatternAlternates | composition/phrase.py:85-97 | hat i is heard from its sixteenth on, closedness 0.9 on even slots and 0.7 on odd ones |
| Phrase.ElementLayer | composition/phrase.py:115-126 | a known element's layer lasts eight bars |
| Phrase.PhraseOf | composition/phrase.py:101-130 | the phrase always lasts eight bars |
| Phrase.CreateElementLayer | composition/phrase.py:115-126 | picks the element's default pattern, at its gain when `volumes` names it |
| Phrase.PhraseLayersStep | composition/phrase.py:114-128 | one more element adds its layer when it is known, and nothing otherwise |
| Phrase.BuildPhrase | composition/phrase.py:101-130 | the loop returns exactly the specified phrase |
| Phrase.UnknownElementIgnored | composition/phrase.py:121-122 | an element name it does not know changes nothing |
| Phrase.PhraseHearsElement | composition/phrase.py:114-128 | every known element in the list is heard across the phrase, at its gain |
| Phrase.NoElementsIsSilence | composition/phrase.py:111-130 | with no known element the phrase is eight bars of silence |
| Section.MsNonneg | composition/section.py:29 | zero or more bars last zero or more milliseconds |
| Section.Fit | composition/section.py:37-59 | a phrase repeated or cut to a non-negative target has exactly the target length |
| Section.FitToTarget | composition/section.py:37-59 | the cut-or-append-until-long-enough branch returns exactly the phrase fitted to the target |
| Section.LoopToTarget | composition/section.py:63-73 | the industrial loop returns exactly the phrase fitted to `bars_to_ms(bars)` |
| Section.CreateIntro | composition/section.py:22-75 | returns exactly the specified intro of the style |
| Section.IntroLength | composition/section.py:22-75 | a minimal intro is two halves of `bars_to_ms(bars // 2)`, never longer than the bars; any other style lasts `bars_to_ms(bars)` |
| Section.IndustrialIntroRepeats | composition/section.py:63-73 | the industrial intro plays its loud kick phrase over and over |
| Section.FitRepeats | composition/section.py:37-59 | a fitted phrase is the phrase over and over |
| Section.StageMix | composition/section.py:92-103 | kick and bass are in every stage, the hats join exactly from stage 2, and every element in a stage has a gain |
| Section.StagesRise | composition/section.py:92-103 | from one stage to the next no element gets quieter, and the bass gets louder until stage 3 |
| Section.AutomatedPrefix | composition/section.py:190-197 | the first n automated ticks are n ticks |
| Section.Automated | composition/section.py:179-199 | four equal chunks, up to three trailing ticks dropped, tick k boosted by 1.5 dB times its chunk |
| Section.InChunk | composition/section.py:191 | a tick in chunk i's span has chunk index i |
| Section.AutomationStep | composition/section.py:190-197 | chunk i extends the automated prefix by one quarter |
| Section.ApplyBuildupAutomation | composition/section.py:179-199 | the chunk loop returns exactly the automated segment |
| Section.AutomationKeepsHeard | composition/section.py:179-199 | whatever a kept tick carried, it still carries after the automation |
| Section.StageEvents | composition/section.py:88-113 | one overlay per stage |
| Section.StageStep | composition/section.py:88-113 | one more stage is one more overlay |
| Section.CreateBuildup | composition/section.py:77-119 | the stage loop as written returns exactly the specified buildup |
| Section.LayeredSilence | composition/section.py:106-113 | overlaying silent layers on silence leaves silence |
| Section.BuildupIsSilent | composition/section.py:106-109 | as written the buildup holds no sound at all, whatever its bars or stages |
| Section.IntendedStageEvents | composition/section.py:88-113 | one overlay of the stage's phrase per stage |
| Section.IntendedStageStep | composition/section.py:88-113 | one more stage is one more overlay of its phrase |
| Section.CreateIntendedBuildup | composition/section.py:77-119 | the stage loop with each stage's phrase in place of the silence returns exactly the corrected buildup |
| Section.IntendedBuildupHearsStages | composition/section.py:88-113 | in the corrected buildup every stage's phrase is heard from the start of its four bars |
| Section.BuildupLength | composition/section.py:83-119 | both buildups last `bars_to_ms(bars)`, less the up to three ticks the automation drops |
| Section.CreateDrop | composition/section.py:121-143 | the append loop and the cut return exactly the specified drop |
| Section.DropLength | composition/section.py:130-141 | the drop is `bars // 8` whole phrases, never longer than the bars, and empty under eight bars |
| Section.DropRepeatsPhrase | composition/section.py:133-138 | every tick of the drop is the matching tick of the full phrase at the energy's gains |
| Section.Without | composition/section.py:157 | keeps exactly the elements not removed, in order |
| Section.CreateBreakdown | composition/section.py:145-177 | the append-until-long-enough loop returns exactly the specified breakdown |
| Section.BreakdownShape | composition/section.py:165-175 | the breakdown lasts exactly `bars_to_ms(bars)` and repeats the kept elements' phrase |
| Section.DefaultBreakdownDropsHats | composition/section.py:153-157 | by default the breakdown keeps kick and bass, in that order |
| Structure.SumBarsSnoc | src/techno/composition/structure.py:21-22 | one more section adds its bars to the total |
| Structure.MinimalTechno30s | src/techno/composition/structure.py:28-40 | named "minimal_30s", 64 bars, four sections |
| Structure.IndustrialTechno30s | src/techno/composition/structure.py:42-55 | named "industrial_30s", 64 bars, five sections |
| Structure.DubTechno30s | src/techno/composition/structure.py:57-68 | named "dub_30s", 96 bars, three sections |
| Structure.MinimalAddsUp | src/techno/composition/structure.py:33-39 | the minimal template's sections add up to its 64 bars |
| Structure.IndustrialAddsUp | src/techno/composition/structure.py:47-54 | the industrial template's sections add up to its 64 bars |
| Structure.DubAddsUp | src/techno/composition/structure.py:62-67 | the dub template's sections add up to its 96 bars |
| Structure.KindOfGeneric | src/techno/composition/structure.py:96-127 | a name falls through to a generic section exactly when it is none of the eight names the dispatch tests |
| Structure.Outro | src/techno/composition/structure.py:116-123 | the outro lasts `bars_to_ms(bars)` for non-negative bars |
| Structure.BuildSection | src/techno/composition/structure.py:90-127 | the dispatch on the section name returns exactly the specified section |
| Structure.SectionLength | src/techno/composition/structure.py:96-127 | intros, breakdowns and outros fill their bars (a minimal intro as two halves), a buildup loses at most three ticks, a drop holds whole eight-bar phrases |
| Structure.SectionWithinBars | src/techno/composition/structure.py:96-127 | no section outlasts its bars |
| Structure.BuildupSectionIsSilent | src/techno/composition/structure.py:101-104 | as the program builds it, every buildup or develop section is silent |
| Structure.OutroIsFadedBreakdown | src/techno/composition/structure.py:116-123 | the outro lasts its bars and is the hat-less breakdown faded over half its length |
| Structure.SectionParts | src/techno/composition/structure.py:89-127 | one section per definition, in order |
| Structure.FinalizeTrack | src/techno/composition/structure.py:138-153 | the track is normalised at its headroom and cut to `bars_to_ms(total_bars)` only when longer |
| Structure.Compose | src/techno/composition/structure.py:79-136 | the loop appends the sections in order and finalises, giving exactly the composed track |
| Structure.SectionInPlace | src/techno/composition/structure.py:89-130 | section j sits, whole, right after all the sections before it |
| Structure.PrefixWithinBars | src/techno/composition/structure.py:89-130 | sections within their bars add up to at most the bars of the first n sections |
| Structure.AssembledWithinBars | src/techno/composition/structure.py:89-130 | the assembled track lasts at most the sum of the sections' bars |
| Structure.FittingStructureNotTrimmed | src/techno/composition/structure.py:148-151 | a structure whose bars add up to its total is never cut, only normalised |
| Structure.TemplateHeadroom | src/techno/composition/structure.py:145 | only the minimal template asks for 1 dB of headroom; the others get 0.5 dB |
| Structure.TemplatesNotTrimmed | src/techno/composition/structure.py:148-151 | none of the three templates is cut |
| Structure.TemplateSectionKinds | src/techno/composition/structure.py:96-127 | the templates' section names select the builders their names suggest |
| Structure.ConcatOfFour | src/techno/composition/structure.py:130 | four appended sections last as long as the four together |
| Structure.MinimalAssembledLength | tests/test_composition.py:190-202 | the minimal template's sections fall at most 8 ms short of 64 bars |
| Structure.MinimalTrackLength | tests/test_composition.py:190-202 | the minimal track lasts 64 bars, less at most 8 ms |
| Structure.NoLetterNoText | src/techno/composition/structure.py:145 | a name without the first letter of "minimal" does not contain it |
| SynthGenerator.KickBeat | generators/synth_generator.py:49-52 | a kick beat is never empty |
| SynthGenerator.KickBeatFillsBeat | generators/synth_generator.py:49-52 | a kick beat lasts the beat, to the millisecond, when the kick fits in it; a longer kick is followed by no silence |
| SynthGenerator.KickStemRepeats | generators/synth_generator.py:38-54 | the kick stem lasts the duration and repeats one kick beat from its start |
| SynthGenerator.GenerateKick | generators/synth_generator.py:38-54 | the append-until-long-enough loop and the cut return exactly the kick stem |
| SynthGenerator.BassNoteParts | generators/synth_generator.py:64-70 | note i of the bassline is the phrase builder's note i |
| SynthGenerator.BassNotesUniform | generators/synth_generator.py:69-71 | every eighth-bar note lasts the same, whatever its pitch |
| SynthGenerator.BassLineCycles | generators/synth_generator.py:64-72 | note i (E, F#, A, B over and over) plays from i note lengths in |
| SynthGenerator.BassStemLength | generators/synth_generator.py:56-74 | the bass stem is the start of the 8 * bars-note line, as long as the shorter of the line and the duration |
| SynthGenerator.GenerateBass | generators/synth_generator.py:56-74 | the append loop and the cut return exactly the bass stem |
| SynthGenerator.HatIsRendered | src/techno/core/primitives.py:188-227 | a generated hat is 50 ms of the hat voice |
| SynthGenerator.HatSlots | generators/synth_generator.py:83-91 | slot i is hat i with the gap after it |
| SynthGenerator.HatSlotFillsSixteenth | generators/synth_generator.py:83-91 | a hat slot lasts at least 50 ms and, when the hat fits, a sixteenth to the millisecond; with no room for a gap it is the hat alone |
| SynthGenerator.HatSlotsUniform | generators/synth_generator.py:83-91 | every hat slot lasts the same |
| SynthGenerator.HatStemLength | generators/synth_generator.py:76-93 | the hat stem is the start of the 16 * bars-slot line, as long as the shorter of the line and the duration |
| SynthGenerator.HatLineAlternates | generators/synth_generator.py:83-87 | hat i (0.9 on even slots, 0.7 on odd ones) plays from i slot lengths in |
| SynthGenerator.GenerateHats | generators/synth_generator.py:76-93 | the append loop, with the gap only when positive, and the cut return exactly the hat stem |
| SynthGenerator.GenerateStem | generators/synth_generator.py:25-96 | dispatches on the element, returning exactly the kick, bass or hat stem or silence of the duration |
| SynthGenerator.StemWithinBars | tests/test_negative.py:102-120 | no stem outlasts its bars, kick stems and unknown elements last them exactly, and zero bars give an empty stem |
| SynthGenerator.GenerateAllStems | generators/synth_generator.py:98-106 | exactly the kick, bass and hats stems, keyed by element |

## Left out

- Oscillators, noise and scipy: `sin`, `exp`, `sawtooth`, `square`, `np.random`, Butterworth design, `filtfilt` and `iirpeak` are foreign numeric code. Waveforms and the decay take the oscillator as a function parameter. A filter stage is a length-preserving function parameter. A generated kick, note or hat is the shaped signal it would normalise, passed in as a parameter at the sample level, or a symbolic voice of the right length at the millisecond level.
- The FFT of `analyze_frequency_content` is not modelled. The analysis takes the magnitude and frequency arrays as inputs.
- The `tanh` soft curve of `waveshaper` is a function parameter, so only the hard and pass-through curves have proved properties.
- Decibel conversions `10 ** (db / 20)` are not modelled. The compressor threshold and the limiter ceiling are linear `real` parameters.
- MIDI to Hz (`440 * 2 ** ((n - 69) / 12)`) is not modelled. For whole MIDI numbers the 20..2000 Hz check is stated as the note range 16..95.
- float32 rounding is not modelled. All arithmetic is exact over `real`, with explicit truncation toward zero and round-half-even.
- pydub's rendering of sound is not modelled: `overlay` mixing, `+ dB` gain, `fade_out`, `normalize` and `low_pass` at the millisecond level are symbolic ticks. Only lengths, positions and what each tick carries are modelled, within the rounding of appended segments stated below.
- Appending segments adds their lengths in whole milliseconds, each already rounded, while pydub concatenates frames and rounds `1000 * frames / rate` of the total once. After appending segments whose frame count is not a whole number of milliseconds (the 303 steps and bass notes at most tempos, in Primitives.Walk and SynthGenerator.BassLine), lengths and positions may differ from pydub's by up to 0.5 ms per appended segment. For example, eight eighth-bar notes at 124 bpm and 44100 Hz last 1935 ms in pydub and 1936 ticks in the model.
- `apply_highpass` (core/frequency.py:125-141) casts to int16 without clipping, so it wraps on overflow. The model treats it as an opaque whole-segment effect.
- Distortion.BitCrush: the bit depth is a `nat`. A negative depth, where `2 ** b` is a fraction, is not modelled.
- Dynamics.Compress: `attack_ms` and `release_ms` are accepted and ignored, as in the source.
- Spatial.Delay: a zero-sample delay is modelled when it has a feedback below 1 other than 0, where every tap lands on the dry sample and the loop ends once the taps fade. It is excluded without feedback, where numpy refuses `wet[0:] += samples[:-0]` on a non-empty buffer, and with a feedback of 1 or more, where the tap loop never ends. The normalising branch also requires a non-zero peak, since numpy would divide by zero.
- Spatial.Delay: a negative `delay_ms` is not modelled (the model requires `delay_ms >= 0` and a non-negative frame rate). numpy would read the negative slice bounds from the end of the buffer.
- LegacySpatial.Delay: requires a non-zero peak of the blend; numpy would divide by zero.
- LegacySpatial.Delay: a negative `delay_ms` is not modelled (the model requires `delay_ms >= 0` and a non-negative frame rate). The comb loop would then index from the end of the buffer.
- Spatial.StereoWidth: requires a Haas delay of at least one sample for mono input, and a whole number of frames for stereo input. It also requires a non-zero peak. Otherwise numpy raises or divides by zero. The older `stereo_width` in processing/spatial.py differs from this one only in float32 casts, so one model serves both.
- Pcm.PeakNormalise and Pcm.NormaliseToInt16: require a non-zero sample, since numpy would divide by zero.
- Section.CreateIntro, Section.CreateBreakdown and Structure.Compose: require a positive tempo at which eight bars last at least a millisecond. A tempo of 0 or less raises in `TimingCalculator`. A tempo so fast that a phrase lasts 0 ms makes the source's append-until-long-enough loops run forever. The phrase builders, the buildup, the drop and the stem generators require only a positive tempo; a tempo of 0 or less raises in the source.
- Phrase.CreateBassPattern: models the default notes E, F#, A, B only, as every caller in the package uses them.
- Structure.Compose: builds the buildup as the program does, so its buildup and develop sections are silent (Structure.BuildupSectionIsSilent). The corrected buildup is proved separately in Section (see Findings). The keys "intensity" and "loop" of the templates are read by no builder and are left out. `fade_out` is modelled as set or unset; only a true value fades.
- Filters.FilterSweep and Filters.FilterChunks: work at the millisecond level, where sample counts and the frame rate are not visible. So scipy's refusals inside `low_pass` on a chunk (a chunk no longer than `filtfilt`'s padding, an empty remainder, a cutoff outside (0, nyquist)) are not modelled; each chunk is a symbolic low-passed effect of its length.
- Filters.FilterSweep: the sweep length is a `nat`. A negative `sweep_duration_ms` is not modelled.
- Filters.LowPassFilter, Filters.HighPassFilter and Filters.BandPassFilter: the design checks are scipy's: `butter` rejects a negative order and critical frequencies outside (0, 1), and a band pass whose edges do not ascend; `iirpeak` rejects `w0` outside [0, 1]; `filtfilt` needs more than three times the coefficient count of samples. What the filters do to the samples is a parameter that keeps the length.
- `print` calls in `compose` produce no result and are left out.
- The command-line interface, the MusicGPT generator and the mixers are outside this model.

## Findings

| source | as written | input that shows it | evidently intended | confidence | as-written member | corrected member |
|---|---|---|---|---|---|---|
| src/techno/processing/filters.py:105-131 | the remainder after the chunks is filtered only when the audio length is not a multiple of 500 | 1000 ms of audio with `sweep_duration_ms=500`: one chunk of 500 ms, no remainder, so the output is 500 ms long | the audio the chunks did not reach is filtered at `end_hz` and kept, so the output is as long as the input | not executed | Filters.ShortSweepDropsRest | Filters.IntendedSweepKeepsLength |
| composition/section.py:106-109 | each stage phrase starts as four bars of silence and `range(4 // 8)` adds nothing, so the buildup is silent | `create_buildup(bars=16)`: four stages, each overlaying silence; every tick of the result is silent | each stage overlays the first four bars of its own phrase, so the stages' elements are heard | not executed | Section.BuildupIsSilent | Section.IntendedBuildupHearsStages |
