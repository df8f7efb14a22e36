/**
 * `composition/structure.py`: track templates as lists of section
 * definitions, and the composer that builds each section, appends them in
 * order and finalises the track (normalisation, trim to the template's
 * length). The buildup sections are the buildup of `Section` as the
 * program builds it, silent stages included.
 */
module Structure {
  import opened Numeric
  import opened Wrappers
  import opened Timing
  import opened Audio
  import opened Phrase
  import opened Section

  /**
   * One section definition: its name, its bars and the optional keys the
   * composer reads. Keys it never reads ("intensity", "loop") are dropped.
   */
  datatype SectionDef = SectionDef(
    name: string,
    bars: int,
    style: Option<string>,
    filterSweep: Option<bool>,
    energy: Option<real>,
    remove: Option<seq<string>>,
    fadeOut: Option<bool>)

  /** `TrackStructure`: a name, the sections in playing order and the intended length in bars. */
  datatype TrackStructure = TrackStructure(name: string, sections: seq<SectionDef>, totalBars: int)

  /** A section definition with only its name and bars. */
  function Plain(name: string, bars: int): SectionDef
  {
    SectionDef(name, bars, None, None, None, None, None)
  }

  /** `section_def.get(key, default)`. */
  function GetOr<T>(o: Option<T>, default: T): T
  {
    match o
    case Some(v) => v
    case None => default
  }

  /** The total of the sections' bars. */
  function SumBars(sections: seq<SectionDef>): int
  {
    if |sections| == 0 then 0 else SumBars(sections[..|sections| - 1]) + sections[|sections| - 1].bars
  }

  /** Adding one more section adds its bars. */
  lemma SumBarsSnoc(sections: seq<SectionDef>, j: nat)
    requires j < |sections|
    ensures SumBars(sections[..j + 1]) == SumBars(sections[..j]) + sections[j].bars
  {
    assert sections[..j + 1][..j] == sections[..j];
  }

  predicate BarsNonneg(sections: seq<SectionDef>)
  {
    forall i :: 0 <= i < |sections| ==> sections[i].bars >= 0
  }

  // ---------------------------------------------------------------------
  // Templates
  // ---------------------------------------------------------------------

  /** `StructureTemplates.minimal_techno_30s`: 64 bars in four sections of 16. */
  function MinimalTechno30s(): (t: TrackStructure)
    ensures t.name == "minimal_30s" && t.totalBars == 64 && |t.sections| == 4
  {
    var s := [
      Plain("intro", 16).(style := Some("minimal")),
      Plain("develop", 16).(filterSweep := Some(true)),
      Plain("climax", 16).(energy := Some(0.8)),
      Plain("outro", 16).(fadeOut := Some(true))];
    TrackStructure("minimal_30s", s, 64)
  }

  /** `StructureTemplates.industrial_techno_30s`: 64 bars in five sections. */
  function IndustrialTechno30s(): (t: TrackStructure)
    ensures t.name == "industrial_30s" && t.totalBars == 64 && |t.sections| == 5
  {
    var s := [
      Plain("intro", 8).(style := Some("industrial")),
      Plain("buildup", 16),
      Plain("drop", 24).(energy := Some(1.0)),
      Plain("breakdown", 8).(remove := Some(["hats"])),
      Plain("outro", 8).(fadeOut := Some(true))];
    TrackStructure("industrial_30s", s, 64)
  }

  /** `StructureTemplates.dub_techno_30s`: 96 bars, most of them one long main section. */
  function DubTechno30s(): (t: TrackStructure)
    ensures t.name == "dub_30s" && t.totalBars == 96 && |t.sections| == 3
  {
    var s := [
      Plain("intro", 16).(style := Some("minimal")),
      Plain("main", 64),
      Plain("outro", 16).(fadeOut := Some(true))];
    TrackStructure("dub_30s", s, 96)
  }

  /** The minimal template's sections add up to its 64 bars. */
  lemma MinimalAddsUp()
    ensures BarsNonneg(MinimalTechno30s().sections) && SumBars(MinimalTechno30s().sections) == 64
  {
    var m := MinimalTechno30s().sections;
    SumBarsSnoc(m, 0); SumBarsSnoc(m, 1); SumBarsSnoc(m, 2); SumBarsSnoc(m, 3);
    assert m[..4] == m;
  }

  /** The industrial template's sections add up to its 64 bars. */
  lemma IndustrialAddsUp()
    ensures BarsNonneg(IndustrialTechno30s().sections) && SumBars(IndustrialTechno30s().sections) == 64
  {
    var i := IndustrialTechno30s().sections;
    SumBarsSnoc(i, 0); SumBarsSnoc(i, 1); SumBarsSnoc(i, 2); SumBarsSnoc(i, 3); SumBarsSnoc(i, 4);
    assert i[..5] == i;
  }

  /** The dub template's sections add up to its 96 bars. */
  lemma DubAddsUp()
    ensures BarsNonneg(DubTechno30s().sections) && SumBars(DubTechno30s().sections) == 96
  {
    var d := DubTechno30s().sections;
    SumBarsSnoc(d, 0); SumBarsSnoc(d, 1); SumBarsSnoc(d, 2);
    assert d[..3] == d;
  }

  // ---------------------------------------------------------------------
  // Sections
  // ---------------------------------------------------------------------

  /** The outro: the breakdown without hats, faded over its second half when `fade_out` is set. */
  function Outro(bpm: int, bars: int, fadeOut: Option<bool>): (r: Audio)
    requires ValidTempo(bpm)
    ensures bars >= 0 ==> |r| == Ms(bpm, bars)
  {
    var b := Breakdown(bpm, bars, ["hats"]);
    assert bars >= 0 ==> |b| == Ms(bpm, bars) by {
      if bars >= 0 { BreakdownShape(bpm, bars, ["hats"], 0); }
    }
    if fadeOut == Some(true) then Apply(FadedOut(|b| / 2), b) else b
  }

  /** Which builder a section name selects. */
  datatype SectionKind = IntroSection | BuildupSection | DropSection | BreakdownSection | OutroSection | GenericSection

  /** The composer's dispatch on the section name; an unknown name is a generic section. */
  function KindOf(name: string): SectionKind
  {
    if name == "intro" then IntroSection
    else if name in ["buildup", "develop"] then BuildupSection
    else if name in ["drop", "climax", "main"] then DropSection
    else if name == "breakdown" then BreakdownSection
    else if name == "outro" then OutroSection
    else GenericSection
  }

  /** Exactly the names the dispatch does not test fall through to a generic section. */
  lemma KindOfGeneric(name: string)
    ensures KindOf(name) == GenericSection <==>
      name !in ["intro", "buildup", "develop", "drop", "climax", "main", "breakdown", "outro"]
  {
  }

  /** The section the composer builds for one definition, chosen by its name. */
  function SectionAudio(bpm: int, d: SectionDef): Audio
    requires ValidTempo(bpm)
  {
    match KindOf(d.name)
    case IntroSection => Intro(bpm, d.bars, GetOr(d.style, "minimal"))
    case BuildupSection => Buildup(bpm, d.bars, GetOr(d.filterSweep, true))
    case DropSection => Drop(bpm, d.bars, GetOr(d.energy, 1.0))
    case BreakdownSection => Breakdown(bpm, d.bars, GetOr(d.remove, ["hats"]))
    case OutroSection => Outro(bpm, d.bars, d.fadeOut)
    case GenericSection => Drop(bpm, d.bars, 1.0)
  }

  /** The body of the composer's loop for one section definition. */
  method BuildSection(bpm: int, d: SectionDef) returns (section: Audio)
    requires ValidTempo(bpm)
    ensures section == SectionAudio(bpm, d)
  {
    var bars := d.bars;
    match KindOf(d.name)
    case IntroSection =>
      section := CreateIntro(bpm, bars, GetOr(d.style, "minimal"));
    case BuildupSection =>
      section := CreateBuildup(bpm, bars, GetOr(d.filterSweep, true));
    case DropSection =>
      section := CreateDrop(bpm, bars, GetOr(d.energy, 1.0));
    case BreakdownSection =>
      section := CreateBreakdown(bpm, bars, GetOr(d.remove, ["hats"]));
    case OutroSection =>
      section := CreateBreakdown(bpm, bars, ["hats"]);
      if d.fadeOut == Some(true) {
        section := Apply(FadedOut(|section| / 2), section);
      }
    case GenericSection =>
      section := CreateDrop(bpm, bars, 1.0);
  }

  /** A buildup or develop section of any template is silent, as the program builds it. */
  lemma BuildupSectionIsSilent(bpm: int, d: SectionDef)
    requires ValidTempo(bpm) && KindOf(d.name) == BuildupSection
    ensures AllSilent(SectionAudio(bpm, d))
  {
    BuildupIsSilent(bpm, d.bars, GetOr(d.filterSweep, true));
  }

  /**
   * How long each kind of section lasts: intros, breakdowns and outros fill
   * their bars (a minimal intro up to the odd millisecond of its two halves),
   * a buildup loses at most three milliseconds to its four chunks, and a
   * drop holds whole eight-bar phrases only.
   */
  lemma SectionLength(bpm: int, d: SectionDef)
    requires ValidTempo(bpm) && d.bars >= 0
    ensures KindOf(d.name) == IntroSection ==>
      |SectionAudio(bpm, d)| == if GetOr(d.style, "minimal") == "minimal" then 2 * Ms(bpm, d.bars / 2) else Ms(bpm, d.bars)
    ensures KindOf(d.name) == BuildupSection ==>
      |SectionAudio(bpm, d)| == if GetOr(d.filterSweep, true) then 4 * (Ms(bpm, d.bars) / 4) else Ms(bpm, d.bars)
    ensures KindOf(d.name) in {DropSection, GenericSection} ==>
      |SectionAudio(bpm, d)| == (d.bars / 8) * Ms(bpm, 8)
    ensures KindOf(d.name) in {BreakdownSection, OutroSection} ==> |SectionAudio(bpm, d)| == Ms(bpm, d.bars)
  {
    assert PhraseMs(bpm) == Ms(bpm, 8);
    match KindOf(d.name)
    case IntroSection => IntroLength(bpm, d.bars, GetOr(d.style, "minimal"));
    case BuildupSection => BuildupLength(bpm, d.bars, GetOr(d.filterSweep, true));
    case DropSection => DropLength(bpm, d.bars, GetOr(d.energy, 1.0));
    case BreakdownSection => BreakdownShape(bpm, d.bars, GetOr(d.remove, ["hats"]), 0);
    case OutroSection => BreakdownShape(bpm, d.bars, ["hats"], 0);
    case GenericSection => DropLength(bpm, d.bars, 1.0);
  }

  /** Every section lasts at most its bars. */
  lemma SectionWithinBars(bpm: int, d: SectionDef)
    requires ValidTempo(bpm) && d.bars >= 0
    ensures |SectionAudio(bpm, d)| <= Ms(bpm, d.bars)
  {
    MsNonneg(bpm, d.bars);
    SectionLength(bpm, d);
    if KindOf(d.name) == IntroSection {
      IntroLength(bpm, d.bars, GetOr(d.style, "minimal"));
    } else if KindOf(d.name) in {DropSection, GenericSection} {
      DropLength(bpm, d.bars, 1.0);
    }
  }

  /**
   * The outro keeps only kick and bass, lasts exactly its bars and, with
   * `fade_out` set, fades the looped phrase over half its length.
   */
  lemma OutroIsFadedBreakdown(bpm: int, bars: int, k: nat)
    requires ValidTempo(bpm) && bars >= 0 && k < Ms(bpm, bars)
    ensures |Outro(bpm, bars, Some(true))| == Ms(bpm, bars)
    ensures Outro(bpm, bars, Some(true))[k] ==
      Processed(FadedOut(Ms(bpm, bars) / 2), Looped(PhraseOf(bpm, ["kick", "bass"], BreakdownVolumes), Ms(bpm, bars)), k)
  {
    BreakdownShape(bpm, bars, ["hats"], k);
    DefaultBreakdownDropsHats();
  }

  // ---------------------------------------------------------------------
  // Composition
  // ---------------------------------------------------------------------

  /** The audio of each section definition, in order. */
  function SectionParts(bpm: int, sections: seq<SectionDef>): (parts: seq<Audio>)
    requires ValidTempo(bpm)
    ensures |parts| == |sections|
    ensures forall i :: 0 <= i < |sections| ==> parts[i] == SectionAudio(bpm, sections[i])
  {
    seq(|sections|, i requires 0 <= i < |sections| => SectionAudio(bpm, sections[i]))
  }

  /** The sections' audio, appended in order. */
  function Assembled(bpm: int, sections: seq<SectionDef>): Audio
    requires ValidTempo(bpm)
  {
    Concat(SectionParts(bpm, sections))
  }

  /** `sub` occurs in `s` starting at `i`. */
  predicate OccursAt(s: string, sub: string, i: int)
  {
    0 <= i <= |s| - |sub| && s[i..i + |sub|] == sub
  }

  /** `"minimal" in structure.name`. */
  predicate ContainsText(s: string, sub: string)
  {
    exists i | 0 <= i <= |s| :: OccursAt(s, sub, i)
  }

  /** The normalisation headroom: 1 dB for a minimal track, 0.5 dB for any other. */
  function Headroom(name: string): real
  {
    if ContainsText(name, "minimal") then 1.0 else 0.5
  }

  /** `_finalize_track`: normalise, then cut to the template's `bars_to_ms(total_bars)` when longer. */
  function FinalizeTrack(bpm: int, track: Audio, structure: TrackStructure): (r: Audio)
    requires bpm > 0
    ensures Ms(bpm, structure.totalBars) >= 0 ==> |r| == Min(|track|, Ms(bpm, structure.totalBars))
    ensures forall k :: 0 <= k < |r| ==> r[k] == Processed(Normalised(Headroom(structure.name)), track, k)
  {
    var normalised := Apply(Normalised(Headroom(structure.name)), track);
    var targetDuration := Ms(bpm, structure.totalBars);
    if |normalised| > targetDuration then PyTake(normalised, targetDuration) else normalised
  }

  /** The track `compose` returns. */
  function Composed(bpm: int, structure: TrackStructure): Audio
    requires ValidTempo(bpm)
  {
    FinalizeTrack(bpm, Assembled(bpm, structure.sections), structure)
  }

  /** `TrackComposer.compose`. */
  method Compose(bpm: int, structure: TrackStructure) returns (track: Audio)
    requires ValidTempo(bpm)
    ensures track == Composed(bpm, structure)
  {
    ghost var parts := SectionParts(bpm, structure.sections);
    track := Silent(0);
    for j := 0 to |structure.sections|
      invariant track == Concat(parts[..j])
    {
      var section := BuildSection(bpm, structure.sections[j]);
      ConcatSnoc(parts, j);
      track := track + section;
    }
    assert parts[..|parts|] == parts;
    track := FinalizeTrack(bpm, track, structure);
  }

  /** Where section `j` starts in the assembled track: after all the sections before it. */
  function SectionStart(bpm: int, sections: seq<SectionDef>, j: nat): nat
    requires ValidTempo(bpm) && j <= |sections|
  {
    |Concat(SectionParts(bpm, sections)[..j])|
  }

  /**
   * Sections play back to back in the order given: the first starts at 0,
   * each next one where the previous one ends, and section `j` plays whole
   * from its start.
   */
  lemma SectionInPlace(bpm: int, sections: seq<SectionDef>, j: nat, k: nat)
    requires ValidTempo(bpm) && j < |sections| && k < |SectionAudio(bpm, sections[j])|
    ensures SectionStart(bpm, sections, 0) == 0
    ensures SectionStart(bpm, sections, j + 1) == SectionStart(bpm, sections, j) + |SectionAudio(bpm, sections[j])|
    ensures SectionStart(bpm, sections, j) + k < |Assembled(bpm, sections)|
    ensures Assembled(bpm, sections)[SectionStart(bpm, sections, j) + k] == SectionAudio(bpm, sections[j])[k]
  {
    var parts := SectionParts(bpm, sections);
    assert parts[..0] == [];
    ConcatSnoc(parts, j);
    ConcatInPlace(parts, j, k);
  }

  /** Segments each within their section's bars add up to at most the first `n` sections' bars. */
  lemma {:induction false} PrefixWithinBars(bpm: int, parts: seq<Audio>, sections: seq<SectionDef>, n: nat)
    requires ValidTempo(bpm) && BarsNonneg(sections) && |parts| == |sections| && n <= |sections|
    requires forall i :: 0 <= i < |parts| ==> |parts[i]| <= Ms(bpm, sections[i].bars)
    ensures SumBars(sections[..n]) >= 0
    ensures |Concat(parts[..n])| <= Ms(bpm, SumBars(sections[..n]))
  {
    if n > 0 {
      PrefixWithinBars(bpm, parts, sections, n - 1);
      var before: nat := SumBars(sections[..n - 1]);
      var bars: nat := sections[n - 1].bars;
      ConcatSnoc(parts, n - 1);
      SumBarsSnoc(sections, n - 1);
      BarsToMsAdditive(FourFour(bpm), before, bars);
    } else {
      assert sections[..0] == [];
      MsNonneg(bpm, 0);
    }
  }

  /** Sections never outlast their bars, so the assembled track is at most the sum of the bars long. */
  lemma AssembledWithinBars(bpm: int, sections: seq<SectionDef>)
    requires ValidTempo(bpm) && BarsNonneg(sections)
    ensures SumBars(sections) >= 0
    ensures |Assembled(bpm, sections)| <= Ms(bpm, SumBars(sections))
  {
    var parts := SectionParts(bpm, sections);
    forall i | 0 <= i < |parts|
      ensures |parts[i]| <= Ms(bpm, sections[i].bars)
    {
      SectionWithinBars(bpm, sections[i]);
    }
    PrefixWithinBars(bpm, parts, sections, |sections|);
    assert sections[..|sections|] == sections;
    assert parts[..|sections|] == parts;
  }

  /**
   * A structure whose bars add up to its total is never cut: the composed
   * track is the normalised sections, whole.
   */
  lemma FittingStructureNotTrimmed(bpm: int, structure: TrackStructure)
    requires ValidTempo(bpm) && BarsNonneg(structure.sections)
    requires SumBars(structure.sections) == structure.totalBars
    ensures Composed(bpm, structure) == Apply(Normalised(Headroom(structure.name)), Assembled(bpm, structure.sections))
  {
    AssembledWithinBars(bpm, structure.sections);
  }

  /** Only the minimal template's name asks for 1 dB of headroom. */
  lemma TemplateHeadroom()
    ensures Headroom(MinimalTechno30s().name) == 1.0
    ensures Headroom(IndustrialTechno30s().name) == 0.5
    ensures Headroom(DubTechno30s().name) == 0.5
  {
    assert OccursAt("minimal_30s", "minimal", 0);
    NoLetterNoText("industrial_30s", "minimal");
    NoLetterNoText("dub_30s", "minimal");
  }

  /** The three templates are never trimmed: each composed track is its normalised sections, whole. */
  lemma TemplatesNotTrimmed(bpm: int)
    requires ValidTempo(bpm)
    ensures Composed(bpm, MinimalTechno30s()) == Apply(Normalised(1.0), Assembled(bpm, MinimalTechno30s().sections))
    ensures Composed(bpm, IndustrialTechno30s()) == Apply(Normalised(0.5), Assembled(bpm, IndustrialTechno30s().sections))
    ensures Composed(bpm, DubTechno30s()) == Apply(Normalised(0.5), Assembled(bpm, DubTechno30s().sections))
  {
    TemplateHeadroom();
    MinimalAddsUp();
    IndustrialAddsUp();
    DubAddsUp();
    FittingStructureNotTrimmed(bpm, MinimalTechno30s());
    FittingStructureNotTrimmed(bpm, IndustrialTechno30s());
    FittingStructureNotTrimmed(bpm, DubTechno30s());
  }

  /** The templates' section names select the builders their names suggest. */
  lemma TemplateSectionKinds()
    ensures KindOf("intro") == IntroSection
    ensures KindOf("buildup") == KindOf("develop") == BuildupSection
    ensures KindOf("drop") == KindOf("climax") == KindOf("main") == DropSection
    ensures KindOf("breakdown") == BreakdownSection && KindOf("outro") == OutroSection
  {
  }

  lemma ConcatOfFour(parts: seq<Audio>)
    requires |parts| == 4
    ensures |Concat(parts)| == |parts[0]| + |parts[1]| + |parts[2]| + |parts[3]|
  {
    ConcatSnoc(parts, 0);
    ConcatSnoc(parts, 1);
    ConcatSnoc(parts, 2);
    ConcatSnoc(parts, 3);
    assert parts[..4] == parts && parts[..0] == [];
  }

  /** The four sections of the minimal template together fall at most 8 ms short of 64 bars. */
  lemma MinimalAssembledLength(bpm: int)
    requires ValidTempo(bpm)
    ensures Ms(bpm, 64) - 8 <= |Assembled(bpm, MinimalTechno30s().sections)|
  {
    var s := MinimalTechno30s().sections;
    var l0, l1, l2, l3 := |SectionAudio(bpm, s[0])|, |SectionAudio(bpm, s[1])|, |SectionAudio(bpm, s[2])|, |SectionAudio(bpm, s[3])|;
    ConcatOfFour(SectionParts(bpm, s));
    TemplateSectionKinds();
    assert l0 == 2 * Ms(bpm, 8) by {
      SectionLength(bpm, s[0]);
    }
    assert l1 == 4 * (Ms(bpm, 16) / 4) by {
      SectionLength(bpm, s[1]);
    }
    assert l2 == 2 * Ms(bpm, 8) by {
      SectionLength(bpm, s[2]);
    }
    assert l3 == Ms(bpm, 16) by {
      SectionLength(bpm, s[3]);
    }
    var c := FourFour(bpm);
    BarsToMsAdditive(c, 8, 8);
    BarsToMsAdditive(c, 16, 16);
    BarsToMsAdditive(c, 32, 32);
  }

  /**
   * The minimal template composes to 64 bars, give or take the few
   * milliseconds that whole-millisecond rounding and the buildup's
   * four chunks lose.
   */
  lemma MinimalTrackLength(bpm: int)
    requires ValidTempo(bpm)
    ensures Ms(bpm, 64) - 8 <= |Composed(bpm, MinimalTechno30s())| <= Ms(bpm, 64)
  {
    MinimalAddsUp();
    FittingStructureNotTrimmed(bpm, MinimalTechno30s());
    AssembledWithinBars(bpm, MinimalTechno30s().sections);
    MinimalAssembledLength(bpm);
  }

  /** A text without the first letter of `sub` does not contain `sub`. */
  lemma NoLetterNoText(s: string, sub: string)
    requires |sub| > 0 && sub[0] !in s
    ensures !ContainsText(s, sub)
  {
    forall i | 0 <= i <= |s| - |sub|
      ensures !OccursAt(s, sub, i)
    {
      assert s[i..i + |sub|][0] == s[i];
    }
  }
}
