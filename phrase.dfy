/**
 * `composition/phrase.py`: the 8-bar phrase, the fundamental unit of the
 * arrangement. Each pattern starts as eight bars of silence and overlays
 * one sound per grid slot; `build_phrase` overlays the patterns it is asked
 * for, each at its own gain.
 */
module Phrase {
  import opened Numeric
  import opened Timing
  import opened Audio
  import opened Primitives

  /** `duration_ms = bars_to_ms(8)`: the length of every pattern and phrase. */
  function PhraseMs(bpm: int): int
    requires bpm > 0
  {
    FourFour(bpm).BarsToMs(8)
  }

  /** A tempo the builders accept: positive, and slow enough that eight bars last at least a millisecond. */
  predicate ValidTempo(bpm: int)
  {
    bpm > 0 && PhraseMs(bpm) > 0
  }

  /** The default notes of `create_bass_pattern`: E, F#, A, B. */
  const BassNotes: seq<int> := [40, 42, 45, 47]

  // ---------------------------------------------------------------------
  // Event grids
  // ---------------------------------------------------------------------

  /** `int(i * ms_per_beat)`. */
  function KickPosition(bpm: int, i: nat): nat
    requires bpm > 0
  {
    BeatMsPositive(bpm);
    TruncMulNonneg(i as real, BeatMs(bpm));
    TruncMul(i as real, BeatMs(bpm))
  }

  /** `int(i * ms_per_beat / 2)`: an eighth note. */
  function BassPosition(bpm: int, i: nat): nat
    requires bpm > 0
  {
    BeatMsPositive(bpm);
    TruncMulNonneg(i as real, BeatMs(bpm) / 2.0);
    TruncMul(i as real, BeatMs(bpm) / 2.0)
  }

  /** `int(i * ms_per_16th)`. */
  function HatPosition(bpm: int, i: nat): nat
    requires bpm > 0
  {
    BeatMsPositive(bpm);
    TruncMulNonneg(i as real, BeatMs(bpm) / 4.0);
    TruncMul(i as real, BeatMs(bpm) / 4.0)
  }

  /** The kick of `generate_minimal`. */
  function Kick(bpm: int): Audio
    requires bpm > 0
  {
    KickAudio(AtDefaultRate(bpm), MinimalKick)
  }

  /** Note `i` of the bassline: an eighth-bar saw note of the default 800 Hz cutoff, cycling through the notes. */
  function BassNote(bpm: int, i: nat): Audio
    requires bpm > 0
  {
    NoteAudio(AtDefaultRate(bpm), BassNotes[i % |BassNotes|], 0.125, 800)
  }

  /** `0.9 if i % 2 == 0 else 0.7`. */
  function Closedness(i: nat): real
  {
    if i % 2 == 0 then 0.9 else 0.7
  }

  function Hat(bpm: int, i: nat): Audio
    requires bpm > 0
  {
    HatAudio(AtDefaultRate(bpm), Closedness(i))
  }

  function KickEvent(bpm: int, i: nat): Event
    requires bpm > 0
  {
    Event(Kick(bpm), KickPosition(bpm, i))
  }

  function BassEvent(bpm: int, i: nat): Event
    requires bpm > 0
  {
    Event(BassNote(bpm, i), BassPosition(bpm, i))
  }

  function HatEvent(bpm: int, i: nat): Event
    requires bpm > 0
  {
    Event(Hat(bpm, i), HatPosition(bpm, i))
  }

  /** Four kicks to the bar for eight bars. */
  function KickEvents(bpm: int): (es: seq<Event>)
    requires bpm > 0
    ensures |es| == 32
  {
    seq(32, i requires 0 <= i < 32 => KickEvent(bpm, i))
  }

  /** Eight bass notes to the bar for eight bars. */
  function BassEvents(bpm: int): (es: seq<Event>)
    requires bpm > 0
    ensures |es| == 64
  {
    seq(64, i requires 0 <= i < 64 => BassEvent(bpm, i))
  }

  /** Sixteen hats to the bar for eight bars. */
  function HatEvents(bpm: int): (es: seq<Event>)
    requires bpm > 0
    ensures |es| == 128
  {
    seq(128, i requires 0 <= i < 128 => HatEvent(bpm, i))
  }

  // ---------------------------------------------------------------------
  // Patterns
  // ---------------------------------------------------------------------

  /** The kick pattern of a style: the kicks overlaid on eight silent bars, or the silence alone. */
  function KickPattern(bpm: int, style: string): (a: Audio)
    requires bpm > 0
    ensures |a| == Max(0, PhraseMs(bpm))
  {
    var silence := Silent(PhraseMs(bpm));
    if style == "four_on_floor" then Layered(silence, KickEvents(bpm)) else silence
  }

  function BassPattern(bpm: int, rhythm: string): (a: Audio)
    requires bpm > 0
    ensures |a| == Max(0, PhraseMs(bpm))
  {
    var silence := Silent(PhraseMs(bpm));
    if rhythm == "eighth_notes" then Layered(silence, BassEvents(bpm)) else silence
  }

  function HatPattern(bpm: int, density: string): (a: Audio)
    requires bpm > 0
    ensures |a| == Max(0, PhraseMs(bpm))
  {
    var silence := Silent(PhraseMs(bpm));
    if density == "16th_notes" then Layered(silence, HatEvents(bpm)) else silence
  }

  /** `TechnoPhrase.create_kick_pattern`. */
  method CreateKickPattern(bpm: int, style: string) returns (phrase: Audio)
    requires bpm > 0
    ensures phrase == KickPattern(bpm, style)
  {
    phrase := Silent(PhraseMs(bpm));
    if style == "four_on_floor" {
      var kick := Kick(bpm);
      var i := 0;
      while i < 32
        invariant 0 <= i <= 32
        invariant phrase == Layered(Silent(PhraseMs(bpm)), KickEvents(bpm)[..i])
      {
        LayeredSnoc(Silent(PhraseMs(bpm)), KickEvents(bpm)[..i], KickEvent(bpm, i));
        assert KickEvents(bpm)[..i + 1] == KickEvents(bpm)[..i] + [KickEvent(bpm, i)];
        phrase := Overlay(phrase, kick, KickPosition(bpm, i));
        i := i + 1;
      }
      assert KickEvents(bpm)[..32] == KickEvents(bpm);
    }
  }

  /** `TechnoPhrase.create_bass_pattern` with its default notes. */
  method CreateBassPattern(bpm: int, rhythm: string) returns (phrase: Audio)
    requires bpm > 0
    ensures phrase == BassPattern(bpm, rhythm)
  {
    phrase := Silent(PhraseMs(bpm));
    if rhythm == "eighth_notes" {
      var i := 0;
      while i < 64
        invariant 0 <= i <= 64
        invariant phrase == Layered(Silent(PhraseMs(bpm)), BassEvents(bpm)[..i])
      {
        var note := BassNote(bpm, i);
        LayeredSnoc(Silent(PhraseMs(bpm)), BassEvents(bpm)[..i], BassEvent(bpm, i));
        assert BassEvents(bpm)[..i + 1] == BassEvents(bpm)[..i] + [BassEvent(bpm, i)];
        phrase := Overlay(phrase, note, BassPosition(bpm, i));
        i := i + 1;
      }
      assert BassEvents(bpm)[..64] == BassEvents(bpm);
    }
  }

  /** `TechnoPhrase.create_hat_pattern`. */
  method CreateHatPattern(bpm: int, density: string) returns (phrase: Audio)
    requires bpm > 0
    ensures phrase == HatPattern(bpm, density)
  {
    phrase := Silent(PhraseMs(bpm));
    if density == "16th_notes" {
      var i := 0;
      while i < 128
        invariant 0 <= i <= 128
        invariant phrase == Layered(Silent(PhraseMs(bpm)), HatEvents(bpm)[..i])
      {
        var hat := Hat(bpm, i);
        LayeredSnoc(Silent(PhraseMs(bpm)), HatEvents(bpm)[..i], HatEvent(bpm, i));
        assert HatEvents(bpm)[..i + 1] == HatEvents(bpm)[..i] + [HatEvent(bpm, i)];
        phrase := Overlay(phrase, hat, HatPosition(bpm, i));
        i := i + 1;
      }
      assert HatEvents(bpm)[..128] == HatEvents(bpm);
    }
  }

  // ---------------------------------------------------------------------
  // What the patterns hold
  // ---------------------------------------------------------------------

  /** Grid slot `i` of `n`, with a step of at least a millisecond, starts strictly before slot `i + 1` and before slot `n`. */
  lemma StrictGrid(i: nat, n: nat, step: real)
    requires i < n && 1.0 <= step
    ensures TruncMul(i as real, step) < TruncMul((i + 1) as real, step)
    ensures TruncMul(i as real, step) < TruncMul(n as real, step)
  {
    TruncAtLeast(1.0 * step, 1);
    TruncMulSplit(i as real, 1.0, step);
    TruncMulMonotone((i + 1) as real, n as real, step);
  }

  /** Eight bars are 32 beats, 64 eighths or 128 sixteenths. */
  lemma PhraseMsInSteps(bpm: int)
    requires bpm > 0
    ensures PhraseMs(bpm) == TruncMul(32.0, BeatMs(bpm))
    ensures PhraseMs(bpm) == TruncMul(64.0, BeatMs(bpm) / 2.0)
    ensures PhraseMs(bpm) == TruncMul(128.0, BeatMs(bpm) / 4.0)
  {
    var b := BeatMs(bpm);
    assert 8.0 * (b * 4.0) == 32.0 * b == 64.0 * (b / 2.0) == 128.0 * (b / 4.0);
  }

  /** Up to 60000 bpm the 32 kicks start at strictly increasing times, all inside the phrase. */
  lemma KickGridIncreasing(bpm: int, i: nat)
    requires 0 < bpm <= 60000 && i < 32
    ensures i < 31 ==> KickPosition(bpm, i) < KickPosition(bpm, i + 1)
    ensures KickPosition(bpm, i) < PhraseMs(bpm)
  {
    BeatAtLeast(bpm, 60000, 1.0);
    StrictGrid(i, 32, BeatMs(bpm));
    PhraseMsInSteps(bpm);
  }

  /** Up to 30000 bpm the 64 bass notes start at strictly increasing times, all inside the phrase. */
  lemma BassGridIncreasing(bpm: int, i: nat)
    requires 0 < bpm <= 30000 && i < 64
    ensures i < 63 ==> BassPosition(bpm, i) < BassPosition(bpm, i + 1)
    ensures BassPosition(bpm, i) < PhraseMs(bpm)
  {
    BeatAtLeast(bpm, 30000, 2.0);
    StrictGrid(i, 64, BeatMs(bpm) / 2.0);
    PhraseMsInSteps(bpm);
  }

  /** Up to 15000 bpm the 128 hats start at strictly increasing times, all inside the phrase. */
  lemma HatGridIncreasing(bpm: int, i: nat)
    requires 0 < bpm <= 15000 && i < 128
    ensures i < 127 ==> HatPosition(bpm, i) < HatPosition(bpm, i + 1)
    ensures HatPosition(bpm, i) < PhraseMs(bpm)
  {
    BeatAtLeast(bpm, 15000, 4.0);
    StrictGrid(i, 128, BeatMs(bpm) / 4.0);
    PhraseMsInSteps(bpm);
  }

  lemma BeatAtLeast(bpm: int, limit: int, ms: real)
    requires 0 < bpm <= limit && ms * limit as real == 60000.0
    ensures ms <= BeatMs(bpm)
  {
    BeatMsPositive(bpm);
    BeatMsTempo(bpm, limit);
    BeatMsPositive(limit);
    assert BeatMs(limit) * limit as real == ms * limit as real;
  }

  /** In the four-on-the-floor pattern, every kick is heard from its beat on. */
  lemma KickPatternHearsEveryKick(bpm: int, i: nat)
    requires bpm > 0 && i < 32
    ensures Heard(KickPattern(bpm, "four_on_floor"), Kick(bpm), KickPosition(bpm, i))
  {
    LayeredHearsEach(Silent(PhraseMs(bpm)), KickEvents(bpm), i);
  }

  /** In the eighth-note bassline, note `i` is `notes[i % 4]` and is heard from its eighth on. */
  lemma BassPatternCyclesNotes(bpm: int, i: nat)
    requires bpm > 0 && i < 64
    ensures BassNote(bpm, i) == NoteAudio(AtDefaultRate(bpm), BassNotes[i % 4], 0.125, 800)
    ensures Heard(BassPattern(bpm, "eighth_notes"), BassNote(bpm, i), BassPosition(bpm, i))
  {
    LayeredHearsEach(Silent(PhraseMs(bpm)), BassEvents(bpm), i);
  }

  /** In the sixteenth-note pattern, hat `i` is heard from its sixteenth on, closed on even slots and looser on odd ones. */
  lemma HatPatternAlternates(bpm: int, i: nat)
    requires bpm > 0 && i < 128
    ensures Hat(bpm, i) == HatAudio(AtDefaultRate(bpm), if i % 2 == 0 then 0.9 else 0.7)
    ensures Heard(HatPattern(bpm, "16th_notes"), Hat(bpm, i), HatPosition(bpm, i))
  {
    LayeredHearsEach(Silent(PhraseMs(bpm)), HatEvents(bpm), i);
  }

  // ---------------------------------------------------------------------
  // build_phrase
  // ---------------------------------------------------------------------

  /** The element names `build_phrase` knows. */
  predicate IsElement(e: string)
  {
    e == "kick" || e == "bass" || e == "hats"
  }

  /** The default pattern of a known element, at its gain when `volumes` names one. */
  function ElementLayer(bpm: int, e: string, volumes: map<string, real>): (a: Audio)
    requires bpm > 0 && IsElement(e)
    ensures |a| == Max(0, PhraseMs(bpm))
  {
    var layer :=
      if e == "kick" then KickPattern(bpm, "four_on_floor")
      else if e == "bass" then BassPattern(bpm, "eighth_notes")
      else HatPattern(bpm, "16th_notes");
    if e in volumes then Gain(layer, volumes[e]) else layer
  }

  /** One layer at the start of the phrase per known element, in order; unknown names add nothing. */
  function PhraseLayers(bpm: int, elements: seq<string>, volumes: map<string, real>): seq<Event>
    requires bpm > 0
    decreases |elements|
  {
    if |elements| == 0 then []
    else
      var rest := PhraseLayers(bpm, elements[..|elements| - 1], volumes);
      var e := elements[|elements| - 1];
      if IsElement(e) then rest + [Event(ElementLayer(bpm, e, volumes), 0)] else rest
  }

  /** The phrase `build_phrase(elements, volumes)` returns. */
  function PhraseOf(bpm: int, elements: seq<string>, volumes: map<string, real>): (a: Audio)
    requires bpm > 0
    ensures |a| == Max(0, PhraseMs(bpm))
  {
    Layered(Silent(PhraseMs(bpm)), PhraseLayers(bpm, elements, volumes))
  }

  /** The layer the loop of `build_phrase` makes for a known element, before overlaying it. */
  method CreateElementLayer(bpm: int, element: string, volumes: map<string, real>) returns (layer: Audio)
    requires bpm > 0 && IsElement(element)
    ensures layer == ElementLayer(bpm, element, volumes)
  {
    if element == "kick" {
      layer := CreateKickPattern(bpm, "four_on_floor");
    } else if element == "bass" {
      layer := CreateBassPattern(bpm, "eighth_notes");
    } else {
      layer := CreateHatPattern(bpm, "16th_notes");
    }
    if element in volumes {
      layer := Gain(layer, volumes[element]);
    }
  }

  /** One more element adds its layer when the builder knows it, and nothing otherwise. */
  lemma PhraseLayersStep(bpm: int, elements: seq<string>, volumes: map<string, real>, k: nat)
    requires bpm > 0 && k < |elements|
    ensures PhraseLayers(bpm, elements[..k + 1], volumes) ==
      if IsElement(elements[k]) then PhraseLayers(bpm, elements[..k], volumes) + [Event(ElementLayer(bpm, elements[k], volumes), 0)]
      else PhraseLayers(bpm, elements[..k], volumes)
  {
    assert elements[..k + 1][..k] == elements[..k];
  }

  /** `TechnoPhrase.build_phrase`. */
  method BuildPhrase(bpm: int, elements: seq<string>, volumes: map<string, real>) returns (phrase: Audio)
    requires bpm > 0
    ensures phrase == PhraseOf(bpm, elements, volumes)
  {
    ghost var base := Silent(PhraseMs(bpm));
    phrase := Silent(PhraseMs(bpm));
    var k := 0;
    while k < |elements|
      invariant 0 <= k <= |elements|
      invariant phrase == Layered(base, PhraseLayers(bpm, elements[..k], volumes))
    {
      var element := elements[k];
      PhraseLayersStep(bpm, elements, volumes, k);
      if !IsElement(element) {
        k := k + 1;
        continue;
      }
      var layer := CreateElementLayer(bpm, element, volumes);
      LayeredSnoc(base, PhraseLayers(bpm, elements[..k], volumes), Event(layer, 0));
      phrase := Overlay(phrase, layer, 0);
      k := k + 1;
    }
    assert elements[..|elements|] == elements;
  }

  /** An element name `build_phrase` does not know changes nothing. */
  lemma UnknownElementIgnored(bpm: int, elements: seq<string>, e: string, volumes: map<string, real>)
    requires bpm > 0 && !IsElement(e)
    ensures PhraseOf(bpm, elements + [e], volumes) == PhraseOf(bpm, elements, volumes)
  {
    assert (elements + [e])[..|elements|] == elements;
  }

  /** Every known element of the list is heard across the phrase, at the gain `volumes` gives it. */
  lemma {:induction false} PhraseHearsElement(bpm: int, elements: seq<string>, volumes: map<string, real>, j: nat)
    requires bpm > 0 && j < |elements| && IsElement(elements[j])
    ensures Heard(PhraseOf(bpm, elements, volumes), ElementLayer(bpm, elements[j], volumes), 0)
    decreases |elements|
  {
    var n := |elements| - 1;
    var prefix := elements[..n];
    var base := Silent(PhraseMs(bpm));
    var e := elements[n];
    if j == n {
      LayeredSnoc(base, PhraseLayers(bpm, prefix, volumes), Event(ElementLayer(bpm, e, volumes), 0));
      OverlayHearsLayer(PhraseOf(bpm, prefix, volumes), ElementLayer(bpm, e, volumes), 0);
    } else {
      assert prefix[j] == elements[j];
      PhraseHearsElement(bpm, prefix, volumes, j);
      if IsElement(e) {
        LayeredSnoc(base, PhraseLayers(bpm, prefix, volumes), Event(ElementLayer(bpm, e, volumes), 0));
        OverlayKeepsHeard(PhraseOf(bpm, prefix, volumes), ElementLayer(bpm, elements[j], volumes), 0,
                          ElementLayer(bpm, e, volumes), 0);
      }
    }
  }

  /** With no element it knows, `build_phrase` returns eight bars of silence. */
  lemma {:induction false} NoElementsIsSilence(bpm: int, elements: seq<string>, volumes: map<string, real>)
    requires bpm > 0 && forall k :: 0 <= k < |elements| ==> !IsElement(elements[k])
    ensures PhraseOf(bpm, elements, volumes) == Silent(PhraseMs(bpm))
    decreases |elements|
  {
    if |elements| > 0 {
      NoElementsIsSilence(bpm, elements[..|elements| - 1], volumes);
    }
  }
}
