/**
 * `composition/section.py`: the section builders. Each grows or cuts
 * 8-bar phrases to a section's length in milliseconds: the intro
 * (minimal or industrial), the staged buildup with its volume automation,
 * the drop and the breakdown.
 */
module Section {
  import opened Numeric
  import opened Timing
  import opened Audio
  import opened Phrase

  /** `bars_to_ms(bars)` at the builder's tempo. */
  function Ms(bpm: int, bars: int): int
    requires bpm > 0
  {
    FourFour(bpm).BarsToMs(bars)
  }

  /** A span of zero or more bars lasts zero or more milliseconds. */
  lemma MsNonneg(bpm: int, bars: int)
    requires bpm > 0 && bars >= 0
    ensures Ms(bpm, bars) >= 0
  {
    BarLengthSign(FourFour(bpm));
    TruncMulNonneg(bars as real, FourFour(bpm).MsPerBar());
  }

  /** `bars_to_ms(bars)` for a non-negative number of bars, as a position. */
  function StartMs(bpm: int, bars: nat): nat
    requires bpm > 0
  {
    MsNonneg(bpm, bars);
    Ms(bpm, bars)
  }

  /** The three elements a phrase can hold, in the order the builders list them. */
  const AllElements: seq<string> := ["kick", "bass", "hats"]

  // ---------------------------------------------------------------------
  // Intro
  // ---------------------------------------------------------------------

  /**
   * A phrase made to last `target` milliseconds: looped when the target is
   * longer, cut when it is shorter. A negative target cuts from the end,
   * as pydub's slice does (see `PyTake`).
   */
  function Fit(p: Audio, target: int): (r: Audio)
    requires |p| > 0
    ensures target >= 0 ==> |r| == target
  {
    if target >= 0 then Loop(p, target) else PyTake(p, target)
  }

  /**
   * One half of the minimal intro: a phrase, cut to the target when longer,
   * otherwise extended phrase by phrase until it reaches it and then cut.
   */
  method FitToTarget(bpm: int, elements: seq<string>, volumes: map<string, real>, target: int) returns (half: Audio)
    requires ValidTempo(bpm)
    ensures half == Fit(PhraseOf(bpm, elements, volumes), target)
  {
    ghost var p := PhraseOf(bpm, elements, volumes);
    half := BuildPhrase(bpm, elements, volumes);
    if |half| > target {
      half := PyTake(half, target);
    } else {
      var c: nat := 1;
      assert Repeat(p, 1) == p;
      while |half| < target
        invariant c >= 1 && half == Repeat(p, c) && |half| == c * |p|
        decreases target - |half|
      {
        var next := BuildPhrase(bpm, elements, volumes);
        RepeatSnoc(p, c);
        half := half + next;
        c := c + 1;
      }
      TakeRepeat(p, c, target);
      half := PyTake(half, target);
    }
  }

  /** The industrial intro's loop: append phrases while shorter than the target, then cut. */
  method LoopToTarget(bpm: int, elements: seq<string>, volumes: map<string, real>, target: int) returns (intro: Audio)
    requires ValidTempo(bpm)
    ensures intro == Fit(PhraseOf(bpm, elements, volumes), target)
  {
    ghost var p := PhraseOf(bpm, elements, volumes);
    intro := BuildPhrase(bpm, elements, volumes);
    var c: nat := 1;
    assert Repeat(p, 1) == p;
    while |intro| < target
      invariant c >= 1 && intro == Repeat(p, c) && |intro| == c * |p|
      invariant c > 1 ==> (c - 1) * |p| < target
      decreases target - |intro|
    {
      var next := BuildPhrase(bpm, elements, volumes);
      RepeatSnoc(p, c);
      intro := intro + next;
      c := c + 1;
    }
    if target >= 0 && |p| < target {
      TakeRepeat(p, c, target);
    } else if target >= 0 {
      assert c == 1;
    }
    intro := PyTake(intro, target);
  }

  const QuietKick: map<string, real> := map["kick" := -2.0]
  const SoftKickAndBass: map<string, real> := map["kick" := -1.0, "bass" := -4.0]
  const LoudKick: map<string, real> := map["kick" := 2.0]

  /** The intro of a style: two halves for "minimal", a looped loud kick for "industrial", silence otherwise. */
  function Intro(bpm: int, bars: int, style: string): Audio
    requires ValidTempo(bpm)
  {
    if style == "minimal" then
      var target := Ms(bpm, bars / 2);
      Fit(PhraseOf(bpm, ["kick"], QuietKick), target) + Fit(PhraseOf(bpm, ["kick", "bass"], SoftKickAndBass), target)
    else if style == "industrial" then
      Fit(PhraseOf(bpm, ["kick"], LoudKick), Ms(bpm, bars))
    else
      Silent(Ms(bpm, bars))
  }

  /** `SectionBuilder.create_intro`. */
  method CreateIntro(bpm: int, bars: int, style: string) returns (intro: Audio)
    requires ValidTempo(bpm)
    ensures intro == Intro(bpm, bars, style)
  {
    intro := Silent(Ms(bpm, bars));
    if style == "minimal" {
      var halfBars := bars / 2;
      var targetMs := Ms(bpm, halfBars);
      var firstHalf := FitToTarget(bpm, ["kick"], QuietKick, targetMs);
      var secondHalf := FitToTarget(bpm, ["kick", "bass"], SoftKickAndBass, targetMs);
      intro := firstHalf + secondHalf;
    } else if style == "industrial" {
      intro := LoopToTarget(bpm, ["kick"], LoudKick, Ms(bpm, bars));
    }
  }

  /**
   * The industrial intro and any other non-minimal intro last exactly
   * `bars_to_ms(bars)`; the minimal intro is two halves of
   * `bars_to_ms(bars // 2)`, which is never longer.
   */
  lemma IntroLength(bpm: int, bars: int, style: string)
    requires ValidTempo(bpm) && bars >= 0
    ensures style == "minimal" ==> |Intro(bpm, bars, style)| == 2 * Ms(bpm, bars / 2) <= Ms(bpm, bars)
    ensures style != "minimal" ==> |Intro(bpm, bars, style)| == Ms(bpm, bars)
  {
    var c := FourFour(bpm);
    MsNonneg(bpm, bars);
    MsNonneg(bpm, bars / 2);
    BarsToMsRepeat(c, bars / 2, 2);
    BarsToMsMonotone(c, 2 * (bars / 2), bars);
  }

  /** The industrial intro plays its loud kick phrase over and over: tick `k` is tick `k mod |phrase|` of the phrase. */
  lemma IndustrialIntroRepeats(bpm: int, bars: int, k: nat)
    requires ValidTempo(bpm) && k < |Intro(bpm, bars, "industrial")|
    ensures Intro(bpm, bars, "industrial")[k] == PhraseOf(bpm, ["kick"], LoudKick)[k % PhraseMs(bpm)]
  {
    FitRepeats(PhraseOf(bpm, ["kick"], LoudKick), Ms(bpm, bars), k);
  }

  /** A fitted phrase is the phrase over and over. */
  lemma FitRepeats(p: Audio, target: int, k: nat)
    requires |p| > 0 && k < |Fit(p, target)|
    ensures Fit(p, target)[k] == p[k % |p|]
  {
    if target >= 0 {
      LoopAt(p, target, k);
    } else {
      assert k % |p| == k;
    }
  }

  // ---------------------------------------------------------------------
  // Buildup
  // ---------------------------------------------------------------------

  /** The elements and gains of one buildup stage. */
  datatype Stage = Stage(elements: seq<string>, volumes: map<string, real>)

  /** The stage table: kick and bass from the start, hats from stage 2, every gain rising toward stage 3. */
  function StageMix(stage: nat): (s: Stage)
    ensures "kick" in s.volumes && "bass" in s.volumes
    ensures s.elements == ["kick", "bass"] || s.elements == AllElements
    ensures "hats" in s.elements <==> stage >= 2
    ensures "hats" in s.elements <==> "hats" in s.volumes
  {
    if stage == 0 then Stage(["kick", "bass"], map["kick" := 0.0, "bass" := -3.0])
    else if stage == 1 then Stage(["kick", "bass"], map["kick" := 0.0, "bass" := -2.0])
    else if stage == 2 then Stage(AllElements, map["kick" := 1.0, "bass" := -1.0, "hats" := -2.0])
    else Stage(AllElements, map["kick" := 1.5, "bass" := 0.0, "hats" := -1.0])
  }

  /** From one stage to the next no element gets quieter, and the bass gets louder until stage 3. */
  lemma StagesRise(stage: nat)
    ensures StageMix(stage).volumes["kick"] <= StageMix(stage + 1).volumes["kick"]
    ensures stage < 3 ==> StageMix(stage).volumes["bass"] < StageMix(stage + 1).volumes["bass"]
    ensures stage >= 3 ==> StageMix(stage + 1) == StageMix(stage)
    ensures stage >= 2 ==> StageMix(stage).volumes["hats"] <= StageMix(stage + 1).volumes["hats"]
  {
  }

  /** `len // 4`, and the gain of the chunk that tick `k` falls in: 0, 1.5, 3 or 4.5 dB. */
  function ChunkGain(k: nat, chunk: nat): real
    requires chunk > 0
  {
    (k / chunk) as real * 1.5
  }

  /** Tick `k` of the automated segment: the input tick boosted by its chunk's gain. */
  function AutomatedTick(audio: Audio, chunk: nat, k: nat): Tick
    requires chunk > 0 && k < |audio|
  {
    Boost(audio[k], ChunkGain(k, chunk))
  }

  /** The first `n` ticks of the automated segment. */
  function AutomatedPrefix(audio: Audio, n: nat): (r: Audio)
    requires n <= 4 * (|audio| / 4)
    ensures |r| == n
  {
    seq(n, k requires 0 <= k < n => AutomatedTick(audio, |audio| / 4, k))
  }

  /**
   * `_apply_buildup_automation`'s result: the first `4 * (len // 4)` ticks,
   * each raised by 1.5 dB for every quarter it lies past the first.
   */
  function Automated(audio: Audio): (r: Audio)
    ensures |r| == 4 * (|audio| / 4) && |audio| - 4 < |r| <= |audio|
    ensures forall k :: 0 <= k < |r| ==> r[k] == Boost(audio[k], ((k / (|audio| / 4)) as real) * 1.5)
  {
    AutomatedPrefix(audio, 4 * (|audio| / 4))
  }

  /** Chunk `i` of size `chunk` holds exactly the ticks whose quotient by `chunk` is `i`. */
  lemma InChunk(k: int, chunk: int, i: int, start: int)
    requires chunk > 0 && start == i * chunk && start <= k < start + chunk
    ensures k / chunk == i
  {
    DivModUnique(k, chunk, i, k - start);
  }

  /** Chunk `i`, from `start = i * chunk` on, extends the automated prefix by one quarter. */
  lemma AutomationStep(audio: Audio, i: nat, start: nat)
    requires i < 4 && start == i * (|audio| / 4)
    ensures start + |audio| / 4 <= 4 * (|audio| / 4)
    ensures AutomatedPrefix(audio, start + |audio| / 4) ==
      AutomatedPrefix(audio, start) + Gain(Slice(audio, start, start + |audio| / 4), i as real * 1.5)
  {
    var c := |audio| / 4;
    assert start + c <= 4 * c by {
      if i == 0 {} else if i == 1 {} else if i == 2 {} else {}
    }
    var chunk := Gain(Slice(audio, start, start + c), i as real * 1.5);
    var r := AutomatedPrefix(audio, start + c);
    forall k | start <= k < start + c
      ensures r[k] == chunk[k - start]
    {
      InChunk(k, c, i, start);
    }
  }

  /** `SectionBuilder._apply_buildup_automation`: four chunks, each boosted 1.5 dB more than the last. */
  method ApplyBuildupAutomation(audio: Audio) returns (processed: Audio)
    ensures processed == Automated(audio)
  {
    var chunkSize := |audio| / 4;
    processed := [];
    for i := 0 to 4
      invariant i * chunkSize <= 4 * chunkSize
      invariant processed == AutomatedPrefix(audio, i * chunkSize)
    {
      var chunk := Slice(audio, i * chunkSize, (i + 1) * chunkSize);
      var boost := i as real * 1.5;
      chunk := Gain(chunk, boost);
      AutomationStep(audio, i, i * chunkSize);
      processed := processed + chunk;
    }
  }

  /** Every tick the automation keeps still carries what it carried before. */
  lemma AutomationKeepsHeard(audio: Audio, layer: Audio, position: nat)
    requires Heard(audio, layer, position)
    ensures Heard(Automated(audio), layer, position)
  {
    var r := Automated(audio);
    forall k | position <= k < |r| && k < position + |layer|
      ensures Carries(r[k], layer[k - position])
    {
      assert Carries(audio[k], layer[k - position]);
    }
  }

  /** What a stage overlays as the source builds it: four bars of silence, since `range(4 // 8)` adds no phrase. */
  function StageEvent(bpm: int, stage: nat): Event
    requires bpm > 0
  {
    Event(Silent(Ms(bpm, 4)), StartMs(bpm, stage * 4))
  }

  /** The overlays of the first `stages` stages, one per stage. */
  function StageEvents(bpm: int, stages: nat): (es: seq<Event>)
    requires bpm > 0
    ensures |es| == stages
  {
    seq(stages, s requires 0 <= s < stages => StageEvent(bpm, s))
  }

  /** One more stage appends one more overlay. */
  lemma StageStep(bpm: int, stage: nat)
    requires bpm > 0
    ensures StageEvents(bpm, stage + 1) == StageEvents(bpm, stage) + [StageEvent(bpm, stage)]
  {
  }

  /** The buildup as `create_buildup` computes it. */
  function Buildup(bpm: int, bars: int, filterSweep: bool): Audio
    requires bpm > 0
  {
    var staged := Layered(Silent(Ms(bpm, bars)), StageEvents(bpm, Max(0, bars / 4)));
    if filterSweep then Automated(staged) else staged
  }

  /** `SectionBuilder.create_buildup`. */
  method CreateBuildup(bpm: int, bars: int, filterSweep: bool) returns (buildup: Audio)
    requires bpm > 0
    ensures buildup == Buildup(bpm, bars, filterSweep)
  {
    var base := Silent(Ms(bpm, bars));
    buildup := base;
    var numStages := Max(0, bars / 4);
    for stage := 0 to numStages
      invariant buildup == Layered(base, StageEvents(bpm, stage))
    {
      var stageStart := stage * 4;
      var mix := StageMix(stage);
      // The source appends `range(4 // 8)` phrases, that is none, so the stage's
      // elements and gains never reach the audio.
      var phrase := Silent(Ms(bpm, 4));
      phrase := PyTake(phrase, Ms(bpm, 4));
      var position := StartMs(bpm, stageStart);
      StageStep(bpm, stage);
      LayeredSnoc(base, StageEvents(bpm, stage), StageEvent(bpm, stage));
      buildup := Overlay(buildup, phrase, position);
    }
    if filterSweep {
      buildup := ApplyBuildupAutomation(buildup);
    }
  }

  /** A tick that holds no sound: silence, or mixes and gains of silence. */
  predicate Silence(t: Tick)
  {
    match t
    case Quiet => true
    case Mix(under, over) => Silence(under) && Silence(over)
    case Boost(inner, _) => Silence(inner)
    case _ => false
  }

  predicate AllSilent(a: Audio)
  {
    forall k :: 0 <= k < |a| ==> Silence(a[k])
  }

  /** Overlaying silent layers on a silent base leaves it silent. */
  lemma {:induction false} LayeredSilence(base: Audio, events: seq<Event>)
    requires AllSilent(base)
    requires forall j :: 0 <= j < |events| ==> AllSilent(events[j].layer)
    ensures AllSilent(Layered(base, events))
    decreases |events|
  {
    if |events| > 0 {
      LayeredSilence(base, events[..|events| - 1]);
    }
  }

  /** As written, the buildup holds no sound at all, whatever its length or stages. */
  lemma BuildupIsSilent(bpm: int, bars: int, filterSweep: bool)
    requires bpm > 0
    ensures AllSilent(Buildup(bpm, bars, filterSweep))
  {
    LayeredSilence(Silent(Ms(bpm, bars)), StageEvents(bpm, Max(0, bars / 4)));
  }

  /** The stage phrase the buildup evidently means: the first four bars of the stage's phrase. */
  function IntendedStagePhrase(bpm: int, stage: nat): Audio
    requires bpm > 0
  {
    var mix := StageMix(stage);
    PyTake(PhraseOf(bpm, mix.elements, mix.volumes), Ms(bpm, 4))
  }

  function IntendedStageEvent(bpm: int, stage: nat): Event
    requires bpm > 0
  {
    Event(IntendedStagePhrase(bpm, stage), StartMs(bpm, stage * 4))
  }

  function IntendedStageEvents(bpm: int, stages: nat): (es: seq<Event>)
    requires bpm > 0
    ensures |es| == stages
  {
    seq(stages, s requires 0 <= s < stages => IntendedStageEvent(bpm, s))
  }

  lemma IntendedStageStep(bpm: int, stage: nat)
    requires bpm > 0
    ensures IntendedStageEvents(bpm, stage + 1) == IntendedStageEvents(bpm, stage) + [IntendedStageEvent(bpm, stage)]
  {
    var a := IntendedStageEvents(bpm, stage + 1);
    var b := IntendedStageEvents(bpm, stage);
    forall s | 0 <= s < stage + 1
      ensures a[s] == (b + [IntendedStageEvent(bpm, stage)])[s]
    {
      if s < stage {
        assert a[s] == b[s];
      }
    }
  }

  /** The stages' phrases overlaid on the buildup's silence, before any automation. */
  function IntendedStaged(bpm: int, bars: int): Audio
    requires bpm > 0
  {
    Layered(Silent(Ms(bpm, bars)), IntendedStageEvents(bpm, Max(0, bars / 4)))
  }

  /** The buildup with each stage's phrase overlaid at the start of its four bars. */
  function IntendedBuildup(bpm: int, bars: int, filterSweep: bool): Audio
    requires bpm > 0
  {
    if filterSweep then Automated(IntendedStaged(bpm, bars)) else IntendedStaged(bpm, bars)
  }

  /** The stage loop of `create_buildup` with each stage's phrase in place of the silence. */
  method CreateIntendedBuildup(bpm: int, bars: int, filterSweep: bool) returns (buildup: Audio)
    requires bpm > 0
    ensures buildup == IntendedBuildup(bpm, bars, filterSweep)
  {
    var base := Silent(Ms(bpm, bars));
    buildup := base;
    var numStages := Max(0, bars / 4);
    for stage := 0 to numStages
      invariant buildup == Layered(base, IntendedStageEvents(bpm, stage))
    {
      var mix := StageMix(stage);
      var phrase := BuildPhrase(bpm, mix.elements, mix.volumes);
      phrase := PyTake(phrase, Ms(bpm, 4));
      var position := StartMs(bpm, stage * 4);
      IntendedStageStep(bpm, stage);
      LayeredSnoc(base, IntendedStageEvents(bpm, stage), IntendedStageEvent(bpm, stage));
      buildup := Overlay(buildup, phrase, position);
    }
    if filterSweep {
      buildup := ApplyBuildupAutomation(buildup);
    }
  }

  /**
   * In the intended buildup every stage is heard: its four bars of phrase
   * play from the stage's start, with or without the automation.
   */
  lemma IntendedBuildupHearsStages(bpm: int, bars: int, filterSweep: bool, stage: nat)
    requires bpm > 0 && stage < bars / 4
    ensures Heard(IntendedBuildup(bpm, bars, filterSweep), IntendedStagePhrase(bpm, stage), StartMs(bpm, stage * 4))
  {
    var events := IntendedStageEvents(bpm, Max(0, bars / 4));
    LayeredHearsEach(Silent(Ms(bpm, bars)), events, stage);
    assert events[stage] == IntendedStageEvent(bpm, stage);
    if filterSweep {
      AutomationKeepsHeard(IntendedStaged(bpm, bars), IntendedStagePhrase(bpm, stage), StartMs(bpm, stage * 4));
    }
  }

  /** Both buildups last `bars_to_ms(bars)`, less up to three milliseconds the automation drops. */
  lemma BuildupLength(bpm: int, bars: int, filterSweep: bool)
    requires bpm > 0 && bars >= 0
    ensures !filterSweep ==> |Buildup(bpm, bars, filterSweep)| == |IntendedBuildup(bpm, bars, filterSweep)| == Ms(bpm, bars)
    ensures filterSweep ==> |Buildup(bpm, bars, filterSweep)| == |IntendedBuildup(bpm, bars, filterSweep)| == 4 * (Ms(bpm, bars) / 4)
  {
    MsNonneg(bpm, bars);
  }

  // ---------------------------------------------------------------------
  // Drop
  // ---------------------------------------------------------------------

  /** The drop's gains, each a fixed multiple of the energy. */
  function DropVolumes(energy: real): map<string, real>
  {
    map["kick" := 2.0 * energy, "bass" := 0.0 * energy, "hats" := 1.0 * energy]
  }

  /** `bars // 8` full phrases back to back, cut to `bars_to_ms(bars)`. */
  function Drop(bpm: int, bars: int, energy: real): Audio
    requires bpm > 0
  {
    PyTake(Repeat(PhraseOf(bpm, AllElements, DropVolumes(energy)), Max(0, bars / 8)), Ms(bpm, bars))
  }

  /** `SectionBuilder.create_drop`. */
  method CreateDrop(bpm: int, bars: int, energy: real) returns (drop: Audio)
    requires bpm > 0
    ensures drop == Drop(bpm, bars, energy)
  {
    var volumes := DropVolumes(energy);
    ghost var p := PhraseOf(bpm, AllElements, volumes);
    drop := [];
    var phrasesNeeded := Max(0, bars / 8);
    for n := 0 to phrasesNeeded
      invariant drop == Repeat(p, n)
    {
      var phrase := BuildPhrase(bpm, AllElements, volumes);
      RepeatSnoc(p, n);
      drop := drop + phrase;
    }
    drop := PyTake(drop, Ms(bpm, bars));
  }

  /**
   * The drop holds `bars // 8` whole phrases and is never cut: it is
   * `bars_to_ms(bars)` long only when the bars are a multiple of eight, and
   * empty below eight bars.
   */
  lemma DropLength(bpm: int, bars: int, energy: real)
    requires bpm > 0 && bars >= 0
    ensures |Drop(bpm, bars, energy)| == (bars / 8) * Max(0, PhraseMs(bpm)) <= Ms(bpm, bars)
    ensures bars < 8 ==> Drop(bpm, bars, energy) == []
  {
    var p := PhraseOf(bpm, AllElements, DropVolumes(energy));
    var c := FourFour(bpm);
    RepeatLength(p, bars / 8);
    MsNonneg(bpm, 8);
    BarsToMsRepeat(c, 8, bars / 8);
    BarsToMsMonotone(c, (bars / 8) * 8, bars);
  }

  /** Tick `k` of the drop is tick `k mod |phrase|` of the full phrase. */
  lemma DropRepeatsPhrase(bpm: int, bars: int, energy: real, k: nat)
    requires ValidTempo(bpm) && bars >= 0 && k < |Drop(bpm, bars, energy)|
    ensures Drop(bpm, bars, energy)[k] == PhraseOf(bpm, AllElements, DropVolumes(energy))[k % PhraseMs(bpm)]
  {
    var p := PhraseOf(bpm, AllElements, DropVolumes(energy));
    var copies := Repeat(p, bars / 8);
    DropLength(bpm, bars, energy);
    RepeatLength(p, bars / 8);
    TakeRepeat(p, bars / 8, |copies|);
    assert Take(copies, |copies|) == copies;
    LoopAt(p, |copies|, k);
  }

  // ---------------------------------------------------------------------
  // Breakdown
  // ---------------------------------------------------------------------

  /** `remove_elements or ["hats"]`: no list, or an empty one, removes the hats. */
  function RemovedElements(remove: seq<string>): seq<string>
  {
    if |remove| == 0 then ["hats"] else remove
  }

  /** `[e for e in xs if e not in remove]`. */
  function Without(xs: seq<string>, remove: seq<string>): (r: seq<string>)
    ensures forall e :: e in r <==> e in xs && e !in remove
    ensures |r| <= |xs|
  {
    if |xs| == 0 then []
    else if xs[0] in remove then Without(xs[1..], remove)
    else [xs[0]] + Without(xs[1..], remove)
  }

  function KeptElements(remove: seq<string>): seq<string>
  {
    Without(AllElements, RemovedElements(remove))
  }

  const BreakdownVolumes: map<string, real> := map["kick" := -1.0, "bass" := -2.0]

  /** The kept elements' phrase, looped to `bars_to_ms(bars)`. */
  function Breakdown(bpm: int, bars: int, remove: seq<string>): Audio
    requires ValidTempo(bpm)
  {
    Looped(PhraseOf(bpm, KeptElements(remove), BreakdownVolumes), Ms(bpm, bars))
  }

  /** `SectionBuilder.create_breakdown`; an empty `remove` stands for the missing list too. */
  method CreateBreakdown(bpm: int, bars: int, remove: seq<string>) returns (breakdown: Audio)
    requires ValidTempo(bpm)
    ensures breakdown == Breakdown(bpm, bars, remove)
  {
    var removeElements := RemovedElements(remove);
    var keepElements := Without(AllElements, removeElements);
    ghost var p := PhraseOf(bpm, keepElements, BreakdownVolumes);
    breakdown := [];
    var targetMs := Ms(bpm, bars);
    var c: nat := 0;
    while |breakdown| < targetMs
      invariant breakdown == Repeat(p, c) && |breakdown| == c * |p|
      invariant c == 0 || (c - 1) * |p| < targetMs
      decreases targetMs - |breakdown|
    {
      var phrase := BuildPhrase(bpm, keepElements, BreakdownVolumes);
      RepeatSnoc(p, c);
      breakdown := breakdown + phrase;
      c := c + 1;
    }
    RepeatedToTarget(p, c, targetMs);
    breakdown := PyTake(breakdown, targetMs);
  }

  /** The breakdown lasts exactly `bars_to_ms(bars)` and repeats its phrase. */
  lemma BreakdownShape(bpm: int, bars: int, remove: seq<string>, k: nat)
    requires ValidTempo(bpm) && bars >= 0
    ensures |Breakdown(bpm, bars, remove)| == Ms(bpm, bars)
    ensures k < Ms(bpm, bars) ==>
      Breakdown(bpm, bars, remove)[k] == PhraseOf(bpm, KeptElements(remove), BreakdownVolumes)[k % PhraseMs(bpm)]
  {
    MsNonneg(bpm, bars);
    if k < Ms(bpm, bars) {
      LoopAt(PhraseOf(bpm, KeptElements(remove), BreakdownVolumes), Ms(bpm, bars), k);
    }
  }

  /** By default the breakdown keeps kick and bass, in that order, and drops the hats. */
  lemma DefaultBreakdownDropsHats()
    ensures KeptElements([]) == ["kick", "bass"]
    ensures KeptElements(["hats"]) == ["kick", "bass"]
  {
    assert "kick" !in ["hats"] && "bass" !in ["hats"];
    assert Without(["hats"], ["hats"]) == [];
    assert AllElements[1..] == ["bass", "hats"];
    assert Without(["bass", "hats"], ["hats"]) == ["bass"] by {
      assert ["bass", "hats"][1..] == ["hats"];
    }
  }
}
