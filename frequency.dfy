/**
 * `core/frequency.py`: the seven-band frequency map, per-element band
 * allocations, band-energy percentages of a spectrum, and frequency
 * carving of a set of stems. The spectrum arrives as its magnitude and
 * bin-frequency arrays; the FFT that produces them is not modelled.
 */
module Frequency {
  import opened Numeric
  import opened Audio

  /** `FrequencyBand`: an inclusive range of Hz with a name and the role it serves. */
  datatype FrequencyBand = FrequencyBand(low: int, high: int, name: string, role: string)

  const SubBass := FrequencyBand(20, 60, "sub", "kick_fundamental")
  const Bass := FrequencyBand(60, 250, "bass", "kick_body_and_bass")
  const LowMids := FrequencyBand(250, 500, "low_mids", "bass_harmonics")
  const Mids := FrequencyBand(500, 2000, "mids", "synth_pads")
  const HighMids := FrequencyBand(2000, 6000, "high_mids", "transients")
  const Highs := FrequencyBand(6000, 12000, "highs", "hi_hats")
  const Air := FrequencyBand(12000, 20000, "air", "shimmer")

  /** The bands in the order `analyze_frequency_content` walks them. */
  const Bands: seq<FrequencyBand> := [SubBass, Bass, LowMids, Mids, HighMids, Highs, Air]

  /** The seven bands tile 20 Hz to 20 kHz: each ends where the next begins, and none is empty. */
  lemma BandsContiguous()
    ensures |Bands| == 7 && Bands[0].low == 20 && Bands[6].high == 20000
    ensures forall i :: 0 <= i < 6 ==> Bands[i].high == Bands[i + 1].low
    ensures forall i :: 0 <= i < 7 ==> Bands[i].low < Bands[i].high
  {
  }

  /** The names of the bands, as the analysis reports them. */
  function BandNames(): set<string>
  {
    set j | 0 <= j < |Bands| :: Bands[j].name
  }

  /** The seven band names are distinct, so the analysis reports seven entries. */
  lemma SevenBandNames()
    ensures BandNames() == {"sub", "bass", "low_mids", "mids", "high_mids", "highs", "air"}
    ensures |BandNames()| == 7
  {
    var names := BandNames();
    var listed := {"sub", "bass", "low_mids", "mids", "high_mids", "highs", "air"};
    forall n | n in names
      ensures n in listed
    {
      var j :| 0 <= j < |Bands| && Bands[j].name == n;
    }
    assert Bands[0].name in names && Bands[1].name in names && Bands[2].name in names && Bands[3].name in names;
    assert Bands[4].name in names && Bands[5].name in names && Bands[6].name in names;
    assert names == listed;
    ListedNamesDistinct();
  }

  /** The seven listed names are pairwise different. */
  lemma ListedNamesDistinct()
    ensures |{"sub", "bass", "low_mids", "mids", "high_mids", "highs", "air"}| == 7
  {
    var s: set<string> := {"sub"};
    assert "bass" !in s;
    s := s + {"bass"};
    assert "low_mids" !in s;
    s := s + {"low_mids"};
    assert "mids" !in s;
    s := s + {"mids"};
    assert "high_mids" !in s;
    s := s + {"high_mids"};
    assert "highs" !in s;
    s := s + {"highs"};
    assert "air" !in s;
    s := s + {"air"};
    assert s == {"sub", "bass", "low_mids", "mids", "high_mids", "highs", "air"};
  }

  /** `FrequencyMap.get_allocation`: the bands an element occupies; an unknown element occupies none. */
  function GetAllocation(element: string): (bands: seq<FrequencyBand>)
    ensures bands == [] <==> element !in {"kick", "bass", "hats", "synth", "pad"}
    ensures forall b :: b in bands ==> b in Bands
    ensures SubBass in bands <==> element == "kick"
    ensures element == "kick" ==> bands == [SubBass, Bass, HighMids]
    ensures element == "bass" ==> bands == [Bass, LowMids]
  {
    var allocations := map[
      "kick" := [SubBass, Bass, HighMids],
      "bass" := [Bass, LowMids],
      "hats" := [Highs, Air],
      "synth" := [Mids, HighMids],
      "pad" := [Mids]];
    if element in allocations then allocations[element] else []
  }

  // ---------------------------------------------------------------------
  // Band energy
  // ---------------------------------------------------------------------

  /** A bin belongs to a band when its frequency lies within the band, both ends included. */
  predicate InBand(b: FrequencyBand, freq: real)
  {
    b.low as real <= freq <= b.high as real
  }

  /** `np.sum(magnitudes[:n] ** 2)`. */
  function TotalEnergy(mags: seq<real>, n: nat): (e: real)
    requires n <= |mags|
    ensures 0.0 <= e
  {
    if n == 0 then 0.0 else TotalEnergy(mags, n - 1) + mags[n - 1] * mags[n - 1]
  }

  /** `np.sum(magnitudes[band_mask][:n] ** 2)`: the energy of the first `n` bins that fall in the band. */
  function BandEnergy(mags: seq<real>, freqs: seq<real>, b: FrequencyBand, n: nat): (e: real)
    requires |freqs| == |mags| && n <= |mags|
    ensures 0.0 <= e <= TotalEnergy(mags, n)
  {
    if n == 0 then 0.0
    else
      var rest := BandEnergy(mags, freqs, b, n - 1);
      if InBand(b, freqs[n - 1]) then rest + mags[n - 1] * mags[n - 1] else rest
  }

  /** `(band_energy / total_energy) * 100 if total_energy > 0 else 0`. */
  function Percentage(bandEnergy: real, total: real): (p: real)
    requires 0.0 <= bandEnergy <= total
    ensures 0.0 <= p <= 100.0
    ensures total == 0.0 ==> p == 0.0
  {
    if total > 0.0 then
      UnitQuotient(bandEnergy, total);
      bandEnergy / total * 100.0
    else 0.0
  }

  lemma UnitQuotient(e: real, t: real)
    requires 0.0 <= e <= t && 0.0 < t
    ensures 0.0 <= e / t <= 1.0
  {
    var q := e / t;
    assert q * t == e;
    MulSign(q, t);
    MulSign(q - 1.0, t);
  }

  /** The percentage the analysis reports for one band. */
  function BandShare(mags: seq<real>, freqs: seq<real>, b: FrequencyBand): real
    requires |freqs| == |mags|
  {
    Percentage(BandEnergy(mags, freqs, b, |mags|), TotalEnergy(mags, |mags|))
  }

  /**
   * The band-mask and percentage part of `analyze_frequency_content`, given
   * the spectrum's magnitudes and bin frequencies: one entry per band name.
   */
  method AnalyzeFrequencyContent(mags: seq<real>, freqs: seq<real>) returns (results: map<string, real>)
    requires |freqs| == |mags|
    ensures results.Keys == BandNames()
    ensures forall b :: b in Bands ==> results[b.name] == BandShare(mags, freqs, b)
    ensures forall name :: name in results ==> 0.0 <= results[name] <= 100.0
  {
    var totalEnergy := TotalEnergy(mags, |mags|);
    results := map[];
    var k := 0;
    while k < |Bands|
      invariant 0 <= k <= |Bands|
      invariant results.Keys == set j | 0 <= j < k :: Bands[j].name
      invariant forall j :: 0 <= j < k ==> results[Bands[j].name] == BandShare(mags, freqs, Bands[j])
    {
      var band := Bands[k];
      var bandEnergy := BandEnergy(mags, freqs, band, |mags|);
      var percentage := Percentage(bandEnergy, totalEnergy);
      results := results[band.name := percentage];
      k := k + 1;
    }
    assert forall b :: b in Bands ==> exists j :: 0 <= j < 7 && Bands[j] == b;
    forall name | name in results
      ensures 0.0 <= results[name] <= 100.0
    {
      var j :| 0 <= j < 7 && Bands[j].name == name;
    }
  }

  /** A bin exactly on a shared edge counts toward both neighbouring bands. */
  lemma SharedEdgeCountsTwice(i: int)
    requires 0 <= i < 6
    ensures InBand(Bands[i], Bands[i].high as real) && InBand(Bands[i + 1], Bands[i].high as real)
  {
  }

  /** A silent spectrum reports 0 for every band. */
  lemma SilenceReportsZero(mags: seq<real>, freqs: seq<real>, b: FrequencyBand)
    requires |freqs| == |mags| && TotalEnergy(mags, |mags|) == 0.0
    ensures BandShare(mags, freqs, b) == 0.0
  {
  }

  /** With every bin inside one band, that band holds all the energy: 100 percent of a non-silent spectrum. */
  lemma {:induction false} AllBinsInBand(mags: seq<real>, freqs: seq<real>, b: FrequencyBand, n: nat)
    requires |freqs| == |mags| && n <= |mags|
    requires forall i :: 0 <= i < n ==> InBand(b, freqs[i])
    ensures BandEnergy(mags, freqs, b, n) == TotalEnergy(mags, n)
  {
    if n > 0 {
      AllBinsInBand(mags, freqs, b, n - 1);
    }
  }

  // ---------------------------------------------------------------------
  // Carving
  // ---------------------------------------------------------------------

  /** One stem after carving: only a stem named "bass" that has an allocation is high-passed, at 80 Hz. */
  function Carved(name: string, audio: Audio, allocations: map<string, seq<FrequencyBand>>): Audio
  {
    if name in allocations && name == "bass" then Apply(HighPassedForCarving(80), audio) else audio
  }

  /** `carve_frequency_space`, walking the stems in any order: each name keeps its own, carved stem. */
  method CarveFrequencySpace(stems: map<string, Audio>, allocations: map<string, seq<FrequencyBand>>)
    returns (carved: map<string, Audio>)
    ensures carved.Keys == stems.Keys
    ensures forall name :: name in stems ==> carved[name] == Carved(name, stems[name], allocations)
  {
    carved := map[];
    var remaining := stems.Keys;
    while remaining != {}
      invariant remaining <= stems.Keys
      invariant carved.Keys == stems.Keys - remaining
      invariant forall name :: name in carved ==> carved[name] == Carved(name, stems[name], allocations)
      decreases remaining
    {
      var stemName :| stemName in remaining;
      var audio := stems[stemName];
      remaining := remaining - {stemName};
      if stemName !in allocations {
        carved := carved[stemName := audio];
        continue;
      }
      var result := audio;
      if stemName == "bass" {
        result := Apply(HighPassedForCarving(80), result);
      }
      carved := carved[stemName := result];
    }
  }

  /** Carving keeps every stem's length and changes nothing but the allocated bass stem. */
  lemma CarvingOnlyTouchesBass(name: string, audio: Audio, allocations: map<string, seq<FrequencyBand>>)
    ensures |Carved(name, audio, allocations)| == |audio|
    ensures name != "bass" || name !in allocations ==> Carved(name, audio, allocations) == audio
    ensures name == "bass" && name in allocations ==>
      forall k :: 0 <= k < |audio| ==> Carved(name, audio, allocations)[k] == Processed(HighPassedForCarving(80), audio, k)
  {
  }
}
