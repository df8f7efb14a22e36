/**
 * `src/techno/processing/filters.py`: the filter pipelines, the conversion
 * back to int16 and the chunked filter sweep. The Butterworth and peak
 * designs and `filtfilt` are not modelled; a pipeline names its stages and
 * runs them through a caller-supplied stage runner that keeps the length.
 */
module Filters {
  import opened Numeric
  import opened Wrappers
  import opened Pcm
  import opened Audio

  datatype Response = LowPass | HighPass | BandPass

  /** One `filtfilt` pass: a Butterworth design or the `iirpeak` resonance boost. */
  datatype Stage =
    | Butterworth(order: int, response: Response, edges: seq<real>)
    | ResonantPeak(frequency: real, q: real)

  /** Why scipy refuses a filter: `butter` or `iirpeak` rejects the design, or `filtfilt` cannot pad the buffer. */
  datatype FilterError = BadDesign | TooShort

  /** What `filtfilt` does to a buffer with a given design; only its length is known. */
  type StageRunner = (Stage, seq<real>) -> seq<real>

  ghost predicate KeepsLength(run: StageRunner)
  {
    forall st: Stage, x: seq<real> :: |run(st, x)| == |x|
  }

  /** `cutoff_hz / nyquist` with `nyquist = sample_rate / 2`. */
  function Normalised(hz: int, frameRate: int): real
    requires frameRate > 0
  {
    hz as real / (frameRate as real / 2.0)
  }

  /**
   * `butter` takes a non-negative order and critical frequencies strictly
   * inside (0, 1): one for a low or high pass, an ascending pair for a band
   * pass; `iirpeak` takes `0 <= w0 <= 1`.
   */
  predicate DesignOk(st: Stage)
  {
    match st
    case Butterworth(order, response, edges) =>
      order >= 0 &&
      if response == BandPass then |edges| == 2 && 0.0 < edges[0] < edges[1] < 1.0
      else |edges| == 1 && 0.0 < edges[0] < 1.0
    case ResonantPeak(w0, _) => 0.0 <= w0 <= 1.0
  }

  /** The length of the design's coefficient vectors: `order + 1`, twice the order plus one for a band pass, 3 for the peak. */
  function Coefficients(st: Stage): int
  {
    match st
    case Butterworth(order, response, _) => if response == BandPass then 2 * order + 1 else order + 1
    case ResonantPeak(_, _) => 3
  }

  /** What one stage raises on a buffer of `len` samples: the design first, then `filtfilt`'s `len > 3 * ntaps`. */
  function StageError(st: Stage, len: int): Option<FilterError>
  {
    if !DesignOk(st) then Some(BadDesign)
    else if len <= 3 * Coefficients(st) then Some(TooShort)
    else None
  }

  /** The stages in turn; the first stage that raises ends the pipeline with its error. */
  function RunStages(run: StageRunner, stages: seq<Stage>, x: seq<real>): (r: Result<seq<real>, FilterError>)
    requires KeepsLength(run)
    ensures r.Success? <==> forall k :: 0 <= k < |stages| ==> StageError(stages[k], |x|) == None
    ensures r.Success? ==> |r.value| == |x|
    ensures r.Failure? ==>
      exists k :: 0 <= k < |stages| && StageError(stages[k], |x|) == Some(r.error) &&
        forall j :: 0 <= j < k ==> StageError(stages[j], |x|) == None
    decreases |stages|
  {
    if |stages| == 0 then Success(x)
    else if StageError(stages[0], |x|).Some? then Failure(StageError(stages[0], |x|).value)
    else
      var r := RunStages(run, stages[1..], run(stages[0], x));
      assert forall k :: 1 <= k < |stages| ==> stages[k] == stages[1..][k - 1];
      r
  }

  /** The stages of `low_pass`: the Butterworth low pass, then the peak only when resonance > 0. */
  function LowPassStages(cutoffHz: int, resonance: real, order: int, frameRate: int): (st: seq<Stage>)
    requires frameRate > 0
    ensures |st| == 2 <==> resonance > 0.0
    ensures |st| == 1 <==> resonance <= 0.0
    ensures st[0] == Butterworth(order, LowPass, [Normalised(cutoffHz, frameRate)])
    ensures |st| == 2 ==> st[1] == ResonantPeak(Normalised(cutoffHz, frameRate), resonance * 10.0)
  {
    var normalised := Normalised(cutoffHz, frameRate);
    [Butterworth(order, LowPass, [normalised])] +
    (if resonance > 0.0 then [ResonantPeak(normalised, resonance * 10.0)] else [])
  }

  /** `_array_to_audio`: clip, truncate to int16, and emit mono at the reference's frame rate. */
  function ArrayToAudio(x: seq<real>, reference: Pcm): (r: Pcm)
    ensures |r.samples| == |x|
    ensures AllInt16(r.samples)
    ensures r.channels == 1 && r.frameRate == reference.frameRate
    ensures forall i :: 0 <= i < |x| ==> r.samples[i] == ClipToInt16(x[i])
  {
    Pcm(seq(|x|, i requires 0 <= i < |x| => ClipToInt16(x[i])), reference.frameRate, 1)
  }

  /** Converting int16 samples to reals and back changes nothing. */
  lemma ArrayToAudioRoundTrip(s: seq<int>, reference: Pcm)
    requires AllInt16(s)
    ensures ArrayToAudio(ToReals(s), reference).samples == s
  {
    var r := ArrayToAudio(ToReals(s), reference).samples;
    forall i | 0 <= i < |s|
      ensures r[i] == s[i]
    {
      TruncOfInt(s[i]);
    }
  }

  /**
   * `low_pass`: run the low-pass stages over the samples and convert back.
   * It raises on a negative order or a cutoff outside (0, nyquist), and on
   * a buffer no longer than `filtfilt`'s padding: `3 (order + 1)` samples,
   * or 9 when the peak stage runs.
   */
  function LowPassFilter(audio: Pcm, cutoffHz: int, resonance: real, order: int, run: StageRunner): (r: Result<Pcm, FilterError>)
    requires audio.frameRate > 0 && KeepsLength(run)
    ensures r.Success? <==>
      order >= 0 && 0.0 < Normalised(cutoffHz, audio.frameRate) < 1.0 &&
      |audio.samples| > 3 * (order + 1) && (resonance > 0.0 ==> |audio.samples| > 9)
    ensures r.Failure? ==>
      r.error == if order >= 0 && 0.0 < Normalised(cutoffHz, audio.frameRate) < 1.0 then TooShort else BadDesign
    ensures r.Success? ==> |r.value.samples| == |audio.samples| && AllInt16(r.value.samples)
    ensures r.Success? ==> r.value.channels == 1 && r.value.frameRate == audio.frameRate
  {
    var st := LowPassStages(cutoffHz, resonance, order, audio.frameRate);
    var filtered := RunStages(run, st, ToReals(audio.samples));
    assert order >= 0 && 0.0 < Normalised(cutoffHz, audio.frameRate) < 1.0 ==>
      forall k :: 0 <= k < |st| ==> DesignOk(st[k]);
    if filtered.Failure? then Failure(filtered.error) else Success(ArrayToAudio(filtered.value, audio))
  }

  /** `high_pass`: one Butterworth high-pass stage; it raises as the low pass's first stage does. */
  function HighPassFilter(audio: Pcm, cutoffHz: int, order: int, run: StageRunner): (r: Result<Pcm, FilterError>)
    requires audio.frameRate > 0 && KeepsLength(run)
    ensures r.Success? <==>
      order >= 0 && 0.0 < Normalised(cutoffHz, audio.frameRate) < 1.0 && |audio.samples| > 3 * (order + 1)
    ensures r.Failure? ==>
      r.error == if order >= 0 && 0.0 < Normalised(cutoffHz, audio.frameRate) < 1.0 then TooShort else BadDesign
    ensures r.Success? ==> |r.value.samples| == |audio.samples| && AllInt16(r.value.samples)
    ensures r.Success? ==> r.value.channels == 1 && r.value.frameRate == audio.frameRate
  {
    var st := [Butterworth(order, HighPass, [Normalised(cutoffHz, audio.frameRate)])];
    var filtered := RunStages(run, st, ToReals(audio.samples));
    if filtered.Failure? then Failure(filtered.error) else Success(ArrayToAudio(filtered.value, audio))
  }

  /**
   * `band_pass`: one fourth-order Butterworth band-pass stage, whose nine
   * coefficients need more than 27 samples; the edges must ascend inside
   * (0, nyquist).
   */
  function BandPassFilter(audio: Pcm, lowHz: int, highHz: int, run: StageRunner): (r: Result<Pcm, FilterError>)
    requires audio.frameRate > 0 && KeepsLength(run)
    ensures r.Success? <==>
      0.0 < Normalised(lowHz, audio.frameRate) < Normalised(highHz, audio.frameRate) < 1.0 && |audio.samples| > 27
    ensures r.Failure? ==>
      r.error == if 0.0 < Normalised(lowHz, audio.frameRate) < Normalised(highHz, audio.frameRate) < 1.0 then TooShort else BadDesign
    ensures r.Success? ==> |r.value.samples| == |audio.samples| && AllInt16(r.value.samples)
    ensures r.Success? ==> r.value.channels == 1 && r.value.frameRate == audio.frameRate
  {
    var st := [Butterworth(4, BandPass, [Normalised(lowHz, audio.frameRate), Normalised(highHz, audio.frameRate)])];
    var filtered := RunStages(run, st, ToReals(audio.samples));
    if filtered.Failure? then Failure(filtered.error) else Success(ArrayToAudio(filtered.value, audio))
  }

  /** With a stage runner that changes nothing, a low pass that succeeds returns its int16 input unchanged. */
  lemma LowPassOfTransparentStages(audio: Pcm, cutoffHz: int, resonance: real, order: int, run: StageRunner)
    requires audio.frameRate > 0 && KeepsLength(run) && AllInt16(audio.samples)
    requires forall st: Stage, x: seq<real> :: run(st, x) == x
    requires LowPassFilter(audio, cutoffHz, resonance, order, run).Success?
    ensures LowPassFilter(audio, cutoffHz, resonance, order, run).value.samples == audio.samples
  {
    var st := LowPassStages(cutoffHz, resonance, order, audio.frameRate);
    var x := ToReals(audio.samples);
    assert RunStages(run, st, x) == Success(x) by {
      if |st| == 2 {
        assert RunStages(run, st[1..], run(st[0], x)) == RunStages(run, st[1..][1..], run(st[1], x));
      }
    }
    ArrayToAudioRoundTrip(audio.samples, audio);
  }

  // ---------------------------------------------------------------------
  // Filter sweep (millisecond level)
  // ---------------------------------------------------------------------

  const ChunkMs: int := 500

  /** `sweep_duration_ms or len(audio)`: both None and 0 fall back to the length. */
  function SweepDuration(audio: Audio, sweepMs: Option<nat>): (d: nat)
    ensures sweepMs.None? ==> d == |audio|
    ensures sweepMs.Some? ==> d == (if sweepMs.value == 0 then |audio| else sweepMs.value)
  {
    if sweepMs.None? || sweepMs.value == 0 then |audio| else sweepMs.value
  }

  /** `i / num_chunks`: how far through the sweep chunk `i` starts. */
  function Progress(i: nat, n: nat): (q: real)
    requires i < n
    ensures 0.0 <= q < 1.0
  {
    var q := i as real / n as real;
    assert q * n as real == i as real;
    MulSign(1.0 - q, n as real);
    q
  }

  /** `start_hz + (end_hz - start_hz) * progress`. */
  function SweepHz(startHz: int, endHz: int, q: real): real
  {
    startHz as real + (endHz - startHz) as real * q
  }

  /** `int(start_hz + (end_hz - start_hz) * (i / num_chunks))`. */
  function ChunkCutoff(startHz: int, endHz: int, i: nat, n: nat): int
    requires i < n
  {
    Trunc(SweepHz(startHz, endHz, Progress(i, n)))
  }

  /** Chunk `i`: `audio[500 i : 500 i + 500]` through the low pass at its cutoff. */
  function SweepChunk(audio: Audio, startHz: int, endHz: int, n: nat, i: nat): Audio
    requires i < n
  {
    Apply(LowPassed(ChunkCutoff(startHz, endHz, i, n)), Slice(audio, ChunkMs * i, ChunkMs * i + ChunkMs))
  }

  /** The remainder `audio[500 n:]` at `end_hz`, appended only when the length is not a multiple of 500. */
  function SweepTail(audio: Audio, endHz: int, n: nat): seq<Audio>
  {
    if |audio| % ChunkMs != 0 then [Apply(LowPassed(endHz), Slice(audio, ChunkMs * n, |audio|))] else []
  }

  /** `filtered_chunks` once both the chunk loop and the remainder step have run. */
  function SweepParts(audio: Audio, startHz: int, endHz: int, n: nat): (parts: seq<Audio>)
  {
    SweepChunks(audio, startHz, endHz, n) + SweepTail(audio, endHz, n)
  }

  /** The `n` filtered chunks, in order. */
  function SweepChunks(audio: Audio, startHz: int, endHz: int, n: nat): (chunks: seq<Audio>)
    ensures |chunks| == n
    ensures forall i :: 0 <= i < n ==> chunks[i] == SweepChunk(audio, startHz, endHz, n, i)
  {
    seq(n, i requires 0 <= i < n => SweepChunk(audio, startHz, endHz, n, i))
  }

  /** What `filter_sweep` returns. */
  function SweepResult(audio: Audio, startHz: int, endHz: int, sweepMs: Option<nat>): Audio
  {
    Concat(SweepParts(audio, startHz, endHz, SweepDuration(audio, sweepMs) / ChunkMs))
  }

  /** `TechnoFilters.filter_sweep`: filter each 500 ms chunk at its cutoff, then the remainder, then join. */
  method FilterSweep(audio: Audio, startHz: int, endHz: int, sweepMs: Option<nat>) returns (out: Audio)
    ensures out == SweepResult(audio, startHz, endHz, sweepMs)
  {
    var duration := SweepDuration(audio, sweepMs);
    var n := duration / ChunkMs;
    var filtered := FilterChunks(audio, startHz, endHz, n);
    out := Join(filtered);
  }

  /** The chunk loop and the remainder step of `filter_sweep`, building `filtered_chunks`. */
  method FilterChunks(audio: Audio, startHz: int, endHz: int, n: nat) returns (filtered: seq<Audio>)
    ensures filtered == SweepParts(audio, startHz, endHz, n)
  {
    filtered := [];
    ghost var chunks := SweepChunks(audio, startHz, endHz, n);
    var i := 0;
    while i < n
      invariant 0 <= i <= n
      invariant filtered == chunks[..i]
    {
      var cutoff := ChunkCutoff(startHz, endHz, i, n);
      var chunk := Slice(audio, i * ChunkMs, i * ChunkMs + ChunkMs);
      assert chunk == Slice(audio, ChunkMs * i, ChunkMs * i + ChunkMs);
      assert Apply(LowPassed(cutoff), chunk) == chunks[i];
      filtered := filtered + [Apply(LowPassed(cutoff), chunk)];
      i := i + 1;
    }
    assert chunks[..n] == chunks;
    assert n * ChunkMs == ChunkMs * n;
    if |audio| % ChunkMs != 0 {
      var remainder := Slice(audio, n * ChunkMs, |audio|);
      filtered := filtered + [Apply(LowPassed(endHz), remainder)];
    }
  }

  /** `sum(filtered_chunks, AudioSegment.silent(duration=0))`. */
  method Join(parts: seq<Audio>) returns (out: Audio)
    ensures out == Concat(parts)
  {
    out := Silent(0);
    var k := 0;
    while k < |parts|
      invariant 0 <= k <= |parts|
      invariant out == Concat(parts[..k])
    {
      assert parts[..k + 1][..k] == parts[..k];
      out := out + parts[k];
      k := k + 1;
    }
    assert parts[..|parts|] == parts;
  }

  /** Joining two lists of parts joins their results. */
  lemma {:induction false} ConcatAppend(a: seq<Audio>, b: seq<Audio>)
    ensures Concat(a + b) == Concat(a) + Concat(b)
    decreases |b|
  {
    if |b| == 0 {
      assert a + b == a;
    } else {
      ConcatAppend(a, b[..|b| - 1]);
      assert (a + b)[..|a + b| - 1] == a + b[..|b| - 1];
      assert Concat(a + b) == Concat(a + b[..|b| - 1]) + b[|b| - 1];
    }
  }

  /** Chunks that lie inside the audio are 500 ms each. */
  lemma {:induction false} ChunksLength(audio: Audio, startHz: int, endHz: int, n: nat, k: nat)
    requires k <= n && ChunkMs * n <= |audio|
    ensures |Concat(SweepParts(audio, startHz, endHz, n)[..k])| == ChunkMs * k
  {
    if k > 0 {
      ChunksLength(audio, startHz, endHz, n, k - 1);
      ConcatSnoc(SweepParts(audio, startHz, endHz, n), k - 1);
    }
  }

  /** A sweep over the whole audio returns exactly as many milliseconds as it was given. */
  lemma SweepKeepsLength(audio: Audio, startHz: int, endHz: int, sweepMs: Option<nat>)
    requires SweepDuration(audio, sweepMs) == |audio|
    ensures |SweepResult(audio, startHz, endHz, sweepMs)| == |audio|
  {
    var n := |audio| / ChunkMs;
    var parts := SweepParts(audio, startHz, endHz, n);
    ChunksLength(audio, startHz, endHz, n, n);
    assert parts == parts[..n] + SweepTail(audio, endHz, n);
    ConcatAppend(parts[..n], SweepTail(audio, endHz, n));
    if |audio| % ChunkMs != 0 {
      var t := SweepTail(audio, endHz, n);
      assert Concat(t) == [] + t[0];
    }
  }

  /** Joined parts of 500 ms each: part `i` sits at `[500 i, 500 i + 500)`. */
  lemma {:induction false} ConcatOfChunks(parts: seq<Audio>, k: nat, i: nat)
    requires i < k <= |parts| && forall j :: 0 <= j < k ==> |parts[j]| == ChunkMs
    ensures |Concat(parts[..k])| == ChunkMs * k
    ensures Concat(parts[..k])[ChunkMs * i..ChunkMs * i + ChunkMs] == parts[i]
  {
    ConcatSnoc(parts, k - 1);
    var prev := Concat(parts[..k - 1]);
    if i == k - 1 {
      if k - 1 > 0 {
        ConcatOfChunks(parts, k - 1, 0);
      } else {
        assert prev == [];
      }
      assert (prev + parts[k - 1])[ChunkMs * i..ChunkMs * i + ChunkMs] == parts[k - 1];
    } else {
      ConcatOfChunks(parts, k - 1, i);
      assert (prev + parts[k - 1])[ChunkMs * i..ChunkMs * i + ChunkMs] == prev[ChunkMs * i..ChunkMs * i + ChunkMs];
    }
  }

  /** Chunk `i` of the sweep covers `[500 i, 500 i + 500)` of the input, filtered at its cutoff. */
  lemma SweepChunkPlacement(audio: Audio, startHz: int, endHz: int, n: nat, i: nat)
    requires i < n && ChunkMs * n <= |audio|
    ensures |Concat(SweepParts(audio, startHz, endHz, n)[..n])| == ChunkMs * n
    ensures Concat(SweepParts(audio, startHz, endHz, n)[..n])[ChunkMs * i..ChunkMs * i + ChunkMs] ==
            Apply(LowPassed(ChunkCutoff(startHz, endHz, i, n)), audio[ChunkMs * i..ChunkMs * i + ChunkMs])
  {
    var parts := SweepParts(audio, startHz, endHz, n);
    assert forall j :: 0 <= j < n ==> |parts[j]| == ChunkMs;
    ConcatOfChunks(parts, n, i);
    assert Slice(audio, ChunkMs * i, ChunkMs * i + ChunkMs) == audio[ChunkMs * i..ChunkMs * i + ChunkMs];
  }

  /** The first chunk is filtered at the start frequency. */
  lemma FirstChunkAtStart(startHz: int, endHz: int, n: nat)
    requires 0 < n
    ensures ChunkCutoff(startHz, endHz, 0, n) == startHz
  {
    TruncOfInt(startHz);
  }

  /** Later chunks have no less progress. */
  lemma ProgressMonotone(i: nat, j: nat, n: nat)
    requires i <= j < n
    ensures Progress(i, n) <= Progress(j, n)
  {
    var qi := Progress(i, n);
    var qj := Progress(j, n);
    assert qi * n as real == i as real && qj * n as real == j as real;
    MulSign(qj - qi, n as real);
  }

  /** A rising sweep's cutoffs never go down. */
  lemma RisingCutoffsMonotone(startHz: int, endHz: int, i: nat, j: nat, n: nat)
    requires startHz <= endHz && i <= j < n
    ensures ChunkCutoff(startHz, endHz, i, n) <= ChunkCutoff(startHz, endHz, j, n)
  {
    ProgressMonotone(i, j, n);
    MulMonotone((endHz - startHz) as real, Progress(i, n), Progress(j, n));
    TruncMonotone(SweepHz(startHz, endHz, Progress(i, n)), SweepHz(startHz, endHz, Progress(j, n)));
  }

  /** A strictly rising sweep never reaches the end frequency inside the chunks. */
  lemma RisingCutoffBelowEnd(startHz: int, endHz: int, i: nat, n: nat)
    requires 0 <= startHz < endHz && i < n
    ensures startHz <= ChunkCutoff(startHz, endHz, i, n) < endHz
  {
    var q := Progress(i, n);
    var span := (endHz - startHz) as real;
    MulSign(1.0 - q, span);
    MulMonotone(span, 0.0, q);
    var x := SweepHz(startHz, endHz, q);
    assert startHz as real <= x < endHz as real;
    TruncMonotone(startHz as real, x);
    TruncOfInt(startHz);
    assert Trunc(x) as real <= x;
  }

  /** The remainder is filtered at the end frequency exactly when the length is not a multiple of 500. */
  lemma TailOnlyForRemainder(audio: Audio, endHz: int, n: nat)
    ensures |audio| % ChunkMs == 0 <==> SweepTail(audio, endHz, n) == []
    ensures |audio| % ChunkMs != 0 && ChunkMs * n <= |audio| ==>
      SweepTail(audio, endHz, n) == [Apply(LowPassed(endHz), audio[ChunkMs * n..])]
  {
    if |audio| % ChunkMs != 0 && ChunkMs * n <= |audio| {
      assert Slice(audio, ChunkMs * n, |audio|) == audio[ChunkMs * n..];
    }
  }

  /**
   * As written, a sweep shorter than the audio loses everything after it when
   * the audio's length is a multiple of 500 ms: one second swept over its
   * first half comes back half a second long.
   */
  lemma ShortSweepDropsRest(audio: Audio)
    requires |audio| == 1000
    ensures |SweepResult(audio, 200, 2000, Some(500))| == 500
  {
    var parts := SweepParts(audio, 200, 2000, 1);
    ChunksLength(audio, 200, 2000, 1, 1);
    assert parts == parts[..1];
  }

  /** The remainder step as intended: whatever the chunks did not reach, filtered at `end_hz`. */
  function CoveringTail(audio: Audio, endHz: int, n: nat): seq<Audio>
  {
    if ChunkMs * n < |audio| then [Apply(LowPassed(endHz), Slice(audio, ChunkMs * n, |audio|))] else []
  }

  /** `filter_sweep` with the remainder taken whenever the chunks stop short of the end. */
  function IntendedSweepResult(audio: Audio, startHz: int, endHz: int, sweepMs: Option<nat>): Audio
  {
    var n := SweepDuration(audio, sweepMs) / ChunkMs;
    Concat(SweepChunks(audio, startHz, endHz, n) + CoveringTail(audio, endHz, n))
  }

  /** Any sweep no longer than the audio returns the audio's full length. */
  lemma IntendedSweepKeepsLength(audio: Audio, startHz: int, endHz: int, sweepMs: Option<nat>)
    requires SweepDuration(audio, sweepMs) <= |audio|
    ensures |IntendedSweepResult(audio, startHz, endHz, sweepMs)| == |audio|
  {
    var n := SweepDuration(audio, sweepMs) / ChunkMs;
    var chunks := SweepChunks(audio, startHz, endHz, n);
    ChunksLength(audio, startHz, endHz, n, n);
    assert SweepParts(audio, startHz, endHz, n)[..n] == chunks;
    ConcatAppend(chunks, CoveringTail(audio, endHz, n));
    if ChunkMs * n < |audio| {
      var t := CoveringTail(audio, endHz, n);
      assert Concat(t) == [] + t[0];
    }
  }

  /** Over the whole audio, the intended and the written sweep agree. */
  lemma IntendedAgreesOnFullSweep(audio: Audio, startHz: int, endHz: int, sweepMs: Option<nat>)
    requires SweepDuration(audio, sweepMs) == |audio|
    ensures IntendedSweepResult(audio, startHz, endHz, sweepMs) == SweepResult(audio, startHz, endHz, sweepMs)
  {
  }
}
