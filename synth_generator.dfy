/**
 * `generators/synth_generator.py`: single stems of kick, bass or hats,
 * built from the synthesis primitives and cut to `bars_to_ms(bars)`, and
 * the three stems together.
 */
module SynthGenerator {
  import opened Numeric
  import opened Timing
  import opened Audio
  import opened Primitives
  import Phrase

  /** `bars_to_ms(duration_bars)` of the generator's 4/4 calculator. */
  function DurationMs(bpm: int, bars: int): int
    requires bpm > 0
  {
    FourFour(bpm).BarsToMs(bars)
  }

  /** `range(duration_bars * per_bar)`: how many slots a stem fills; a negative count is none. */
  function SlotCount(bars: int, perBar: nat): nat
  {
    if bars > 0 then bars * perBar else 0
  }

  // ---------------------------------------------------------------------
  // Kick
  // ---------------------------------------------------------------------

  /** The kick the style selects: minimal, industrial, or the default kick for any other style. */
  function StyleKick(style: string): KickPreset
  {
    if style == "minimal" then MinimalKick
    else if style == "industrial" then IndustrialKick
    else DefaultKick
  }

  /** One beat of the kick stem: the kick, then `silent(int(ms_per_beat - len(kick)))`. */
  function KickBeat(bpm: int, style: string): (a: Audio)
    requires bpm > 0
    ensures |a| > 0
  {
    var p := AtDefaultRate(bpm);
    var kick := KickAudio(p, StyleKick(style));
    KickLength(p, StyleKick(style));
    kick + Silent(Trunc(FourFour(bpm).MsPerBeat() - |kick| as real))
  }

  /** The kick stem: kick beats appended until the duration is reached, then cut to it. */
  function KickStem(bpm: int, bars: int, style: string): Audio
    requires bpm > 0
  {
    Looped(KickBeat(bpm, style), DurationMs(bpm, bars))
  }

  /**
   * A kick beat lasts the beat, to the millisecond, when the kick fits in
   * it; a kick longer than the beat is followed by no silence at all.
   */
  lemma KickBeatFillsBeat(bpm: int, style: string)
    requires bpm > 0
    ensures var kick := KickAudio(AtDefaultRate(bpm), StyleKick(style));
      if |kick| as real <= BeatMs(bpm)
      then BeatMs(bpm) - 1.0 < |KickBeat(bpm, style)| as real <= BeatMs(bpm)
      else KickBeat(bpm, style) == kick
  {
  }

  /** The kick stem lasts the duration and repeats one kick beat from its start. */
  lemma KickStemRepeats(bpm: int, bars: int, style: string, k: nat)
    requires bpm > 0
    ensures |KickStem(bpm, bars, style)| == Max(0, DurationMs(bpm, bars))
    ensures k < |KickStem(bpm, bars, style)| ==>
      KickStem(bpm, bars, style)[k] == KickBeat(bpm, style)[k % |KickBeat(bpm, style)|]
  {
    if k < |KickStem(bpm, bars, style)| {
      LoopAt(KickBeat(bpm, style), DurationMs(bpm, bars), k);
    }
  }

  /** The kick branch of `generate_stem`. */
  method GenerateKick(bpm: int, durationBars: int, style: string) returns (stem: Audio)
    requires bpm > 0
    ensures stem == KickStem(bpm, durationBars, style)
  {
    var durationMs := DurationMs(bpm, durationBars);
    var preset := StyleKick(style);
    var kick := KickAudio(AtDefaultRate(bpm), preset);
    ghost var beat := KickBeat(bpm, style);
    stem := Silent(0);
    ghost var c: nat := 0;
    while |stem| < durationMs
      invariant stem == Repeat(beat, c) && |stem| == c * |beat|
      invariant c == 0 || (c - 1) * |beat| < durationMs
      decreases durationMs - |stem|
    {
      ghost var before := stem;
      RepeatSnoc(beat, c);
      stem := stem + kick;
      stem := stem + Silent(Trunc(FourFour(bpm).MsPerBeat() - |kick| as real));
      assert stem == before + beat;
      c := c + 1;
    }
    RepeatedToTarget(beat, c, durationMs);
    stem := PyTake(stem, durationMs);
  }

  // ---------------------------------------------------------------------
  // Bass
  // ---------------------------------------------------------------------

  /** The first `n` notes of the bassline: eighth-bar notes cycling through E, F#, A and B. */
  function BassNoteParts(bpm: int, n: nat): (parts: seq<Audio>)
    requires bpm > 0
    ensures |parts| == n
    ensures forall i :: 0 <= i < n ==> parts[i] == Phrase.BassNote(bpm, i)
  {
    seq(n, i requires 0 <= i < n => Phrase.BassNote(bpm, i))
  }

  /** Every eighth-bar note lasts the same. */
  function BassNoteMs(bpm: int): nat
    requires bpm > 0
  {
    |Phrase.BassNote(bpm, 0)|
  }

  /** The first `n` notes of the bassline, appended. */
  function BassLine(bpm: int, n: nat): Audio
    requires bpm > 0
  {
    Concat(BassNoteParts(bpm, n))
  }

  /** The bass stem: `duration_bars * 8` notes appended, then cut to the duration. */
  function BassStem(bpm: int, bars: int): Audio
    requires bpm > 0
  {
    PyTake(BassLine(bpm, SlotCount(bars, 8)), DurationMs(bpm, bars))
  }

  /** All notes of the bassline last the same: the pitch does not change a note's length. */
  lemma BassNotesUniform(bpm: int, n: nat)
    requires bpm > 0
    ensures forall j :: 0 <= j < n ==> |BassNoteParts(bpm, n)[j]| == BassNoteMs(bpm)
  {
  }

  /** Note `i` of the bassline (E, F#, A, B over and over) plays from `i` note lengths in. */
  lemma BassLineCycles(bpm: int, n: nat, i: nat, k: nat)
    requires bpm > 0 && i < n && k < BassNoteMs(bpm)
    ensures i * BassNoteMs(bpm) + k < |BassLine(bpm, n)|
    ensures BassLine(bpm, n)[i * BassNoteMs(bpm) + k] == Sound(BassNote(Phrase.BassNotes[i % 4], 0.125, 800), k)
  {
    BassNotesUniform(bpm, n);
    ConcatUniformAt(BassNoteParts(bpm, n), BassNoteMs(bpm), i, k);
  }

  /** The bass stem is the start of the `8 * bars`-note bassline, cut to the duration. */
  lemma BassStemLength(bpm: int, bars: int)
    requires bpm > 0 && bars >= 0
    ensures DurationMs(bpm, bars) >= 0
    ensures |BassLine(bpm, SlotCount(bars, 8))| == 8 * bars * BassNoteMs(bpm)
    ensures |BassStem(bpm, bars)| == Min(8 * bars * BassNoteMs(bpm), DurationMs(bpm, bars))
    ensures BassStem(bpm, bars) <= BassLine(bpm, SlotCount(bars, 8))
  {
    BarLengthSign(FourFour(bpm));
    TruncMulNonneg(bars as real, FourFour(bpm).MsPerBar());
    var n := SlotCount(bars, 8);
    assert n == 8 * bars;
    BassNotesUniform(bpm, n);
    ConcatUniformLength(BassNoteParts(bpm, n), BassNoteMs(bpm));
    var line := BassLine(bpm, n);
    assert |line| == n * BassNoteMs(bpm);
    var stem := PyTake(line, DurationMs(bpm, bars));
    assert stem == line[..|stem|];
  }

  /** The bass branch of `generate_stem`. */
  method GenerateBass(bpm: int, durationBars: int) returns (stem: Audio)
    requires bpm > 0
    ensures stem == BassStem(bpm, durationBars)
  {
    var durationMs := DurationMs(bpm, durationBars);
    var notes := [40, 42, 45, 47];
    var p := AtDefaultRate(bpm);
    var totalNotes := SlotCount(durationBars, 8);
    ghost var parts := BassNoteParts(bpm, totalNotes);
    stem := Silent(0);
    for i := 0 to totalNotes
      invariant stem == Concat(parts[..i])
    {
      var noteMidi := notes[i % |notes|];
      var bassNote := NoteAudio(p, noteMidi, 0.125, 800);
      ConcatSnoc(parts, i);
      stem := stem + bassNote;
    }
    assert parts[..totalNotes] == parts;
    stem := PyTake(stem, durationMs);
  }

  // ---------------------------------------------------------------------
  // Hats
  // ---------------------------------------------------------------------

  /** The silence after each hat: `int(ms_per_16th - len(hat))` for the 50 ms hat. */
  function HatGap(bpm: int): int
    requires bpm > 0
  {
    Trunc(FourFour(bpm).MsPer16th() - 50.0)
  }

  /** `HiHat(bpm).generate(closedness=c)` is 50 ms of the hat voice. */
  lemma HatIsRendered(bpm: int, i: nat)
    ensures bpm > 0 ==> Phrase.Hat(bpm, i) == Render(HatSound(Phrase.Closedness(i)), 50)
  {
    if bpm > 0 {
      HatLength(AtDefaultRate(bpm), Phrase.Closedness(i));
    }
  }

  /**
   * Hat `i` (closed on even slots, looser on odd ones) and, when the hat is
   * shorter than a sixteenth, the gap after it.
   */
  function HatSlot(bpm: int, i: nat): Audio
    requires bpm > 0
  {
    Render(HatSound(Phrase.Closedness(i)), 50) + Silent(HatGap(bpm))
  }

  /** The first `n` hat slots. */
  function HatSlots(bpm: int, n: nat): (parts: seq<Audio>)
    requires bpm > 0
    ensures |parts| == n
    ensures forall i :: 0 <= i < n ==> parts[i] == HatSlot(bpm, i)
  {
    seq(n, i requires 0 <= i < n => HatSlot(bpm, i))
  }

  /** Every hat slot lasts the same: the hat and the gap after it. */
  function HatSlotMs(bpm: int): nat
    requires bpm > 0
  {
    50 + Max(0, HatGap(bpm))
  }

  /** The first `n` hat slots, appended. */
  function HatLine(bpm: int, n: nat): Audio
    requires bpm > 0
  {
    Concat(HatSlots(bpm, n))
  }

  /** The hat stem: `duration_bars * 16` slots appended, then cut to the duration. */
  function HatStem(bpm: int, bars: int): Audio
    requires bpm > 0
  {
    PyTake(HatLine(bpm, SlotCount(bars, 16)), DurationMs(bpm, bars))
  }

  /**
   * A hat slot lasts a sixteenth to the millisecond; at a tempo whose
   * sixteenth is shorter than the hat, the slot is the bare hat.
   */
  lemma HatSlotFillsSixteenth(bpm: int, i: nat)
    requires bpm > 0
    ensures |HatSlot(bpm, i)| == HatSlotMs(bpm) >= 50
    ensures 50.0 <= FourFour(bpm).MsPer16th() ==>
      FourFour(bpm).MsPer16th() - 1.0 < HatSlotMs(bpm) as real <= FourFour(bpm).MsPer16th()
    ensures FourFour(bpm).MsPer16th() < 51.0 ==> HatSlot(bpm, i) == Phrase.Hat(bpm, i)
  {
    HatIsRendered(bpm, i);
    var x := FourFour(bpm).MsPer16th() - 50.0;
    if x < 1.0 {
      if x >= 0.0 {
        TruncBetween(x, 0);
      } else {
        TruncShrinks(x);
      }
      assert Silent(HatGap(bpm)) == [];
    }
  }

  /** All hat slots last the same. */
  lemma HatSlotsUniform(bpm: int, n: nat)
    requires bpm > 0
    ensures forall j :: 0 <= j < n ==> |HatSlots(bpm, n)[j]| == HatSlotMs(bpm)
  {
  }

  /** The hat stem is the start of the `16 * bars`-slot hat line, cut to the duration. */
  lemma HatStemLength(bpm: int, bars: int)
    requires bpm > 0 && bars >= 0
    ensures DurationMs(bpm, bars) >= 0
    ensures |HatLine(bpm, SlotCount(bars, 16))| == 16 * bars * HatSlotMs(bpm)
    ensures |HatStem(bpm, bars)| == Min(16 * bars * HatSlotMs(bpm), DurationMs(bpm, bars))
    ensures HatStem(bpm, bars) <= HatLine(bpm, SlotCount(bars, 16))
  {
    BarLengthSign(FourFour(bpm));
    TruncMulNonneg(bars as real, FourFour(bpm).MsPerBar());
    var n := SlotCount(bars, 16);
    assert n == 16 * bars;
    HatSlotsUniform(bpm, n);
    ConcatUniformLength(HatSlots(bpm, n), HatSlotMs(bpm));
    var line := HatLine(bpm, n);
    assert |line| == n * HatSlotMs(bpm);
    var stem := PyTake(line, DurationMs(bpm, bars));
    assert stem == line[..|stem|];
  }

  /** Hat `i` of the hat line (closed on even slots, looser on odd ones) plays from `i` slot lengths in. */
  lemma HatLineAlternates(bpm: int, n: nat, i: nat, k: nat)
    requires bpm > 0 && i < n && k < 50
    ensures i * HatSlotMs(bpm) + k < |HatLine(bpm, n)|
    ensures HatLine(bpm, n)[i * HatSlotMs(bpm) + k] == Sound(HatSound(if i % 2 == 0 then 0.9 else 0.7), k)
  {
    HatSlotsUniform(bpm, n);
    ConcatUniformAt(HatSlots(bpm, n), HatSlotMs(bpm), i, k);
  }

  /** The hats branch of `generate_stem`. */
  method GenerateHats(bpm: int, durationBars: int) returns (stem: Audio)
    requires bpm > 0
    ensures stem == HatStem(bpm, durationBars)
  {
    var durationMs := DurationMs(bpm, durationBars);
    var p := AtDefaultRate(bpm);
    var totalHats := SlotCount(durationBars, 16);
    ghost var parts := HatSlots(bpm, totalHats);
    stem := Silent(0);
    for i := 0 to totalHats
      invariant stem == Concat(parts[..i])
    {
      ghost var before := stem;
      var closedness := if i % 2 == 0 then 0.9 else 0.7;
      var hat := HatAudio(p, closedness);
      HatIsRendered(bpm, i);
      assert hat == Render(HatSound(Phrase.Closedness(i)), 50);
      stem := stem + hat;
      var gap := Trunc(FourFour(bpm).MsPer16th() - |hat| as real);
      if gap > 0 {
        stem := stem + Silent(gap);
      } else {
        assert Silent(HatGap(bpm)) == [];
      }
      assert stem == before + HatSlot(bpm, i);
      ConcatSnoc(parts, i);
    }
    assert parts[..totalHats] == parts;
    stem := PyTake(stem, durationMs);
  }

  // ---------------------------------------------------------------------
  // Stems
  // ---------------------------------------------------------------------

  /** `generate_stem`: kick, bass or hats; any other element is silence of the duration. */
  function Stem(bpm: int, element: string, bars: int, style: string): Audio
    requires bpm > 0
  {
    if element == "kick" then KickStem(bpm, bars, style)
    else if element == "bass" then BassStem(bpm, bars)
    else if element == "hats" then HatStem(bpm, bars)
    else Silent(DurationMs(bpm, bars))
  }

  /** `SynthGenerator.generate_stem`. */
  method GenerateStem(bpm: int, element: string, durationBars: int, style: string) returns (stem: Audio)
    requires bpm > 0
    ensures stem == Stem(bpm, element, durationBars, style)
  {
    if element == "kick" {
      stem := GenerateKick(bpm, durationBars, style);
    } else if element == "bass" {
      stem := GenerateBass(bpm, durationBars);
    } else if element == "hats" {
      stem := GenerateHats(bpm, durationBars);
    } else {
      stem := Silent(DurationMs(bpm, durationBars));
    }
  }

  /**
   * No stem outlasts its bars; a kick stem and an unknown element's
   * silence last exactly the bars, and zero bars give an empty stem.
   */
  lemma StemWithinBars(bpm: int, element: string, bars: int, style: string)
    requires bpm > 0 && bars >= 0
    ensures |Stem(bpm, element, bars, style)| <= DurationMs(bpm, bars)
    ensures element !in {"bass", "hats"} ==> |Stem(bpm, element, bars, style)| == DurationMs(bpm, bars)
    ensures bars == 0 ==> Stem(bpm, element, bars, style) == []
  {
    BarLengthSign(FourFour(bpm));
    TruncMulNonneg(bars as real, FourFour(bpm).MsPerBar());
    if bars == 0 {
      assert DurationMs(bpm, 0) == 0;
    }
    if element == "kick" {
      KickStemRepeats(bpm, bars, style, 0);
    } else if element == "bass" {
      BassStemLength(bpm, bars);
    } else if element == "hats" {
      HatStemLength(bpm, bars);
    }
  }

  /** `generate_all_stems`: the kick, bass and hats stems, keyed by element. */
  method GenerateAllStems(bpm: int, durationBars: int, style: string) returns (stems: map<string, Audio>)
    requires bpm > 0
    ensures stems.Keys == {"kick", "bass", "hats"}
    ensures forall element :: element in stems ==> stems[element] == Stem(bpm, element, durationBars, style)
  {
    var kick := GenerateStem(bpm, "kick", durationBars, style);
    var bass := GenerateStem(bpm, "bass", durationBars, style);
    var hats := GenerateStem(bpm, "hats", durationBars, style);
    stems := map["kick" := kick, "bass" := bass, "hats" := hats];
  }
}
