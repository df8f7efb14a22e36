/**
 * Musical timing: positions in bars, beats and sixteenths, and the
 * conversions between bars, beats and milliseconds at a tempo
 * (`src/techno/core/timing.py`). Python's float arithmetic is exact real
 * arithmetic here; `int()` is `Trunc` and `round` is `RoundHalfEven`.
 */
module Timing {
  import opened Numeric
  import opened Wrappers

  datatype TimingError =
    | NegativeBars
    | BeatsOutOfRange
    | SixteenthsOutOfRange
    | NonPositiveBpm
    | DivisionByZero

  /** A point in musical time; built only through `NewMusicalTime`. */
  datatype MusicalTime = MusicalTime(bars: int, beats: int, sixteenths: int)

  predicate ValidPosition(bars: int, beats: int, sixteenths: int)
  {
    bars >= 0 && 0 <= beats <= 3 && 0 <= sixteenths <= 4
  }

  /**
   * `MusicalTime(bars, beats, sixteenths)` with its `__post_init__` checks,
   * made in the source's order. Four sixteenths are accepted.
   */
  function NewMusicalTime(bars: int, beats: int, sixteenths: int): (r: Result<MusicalTime, TimingError>)
    ensures r.Success? <==> ValidPosition(bars, beats, sixteenths)
    ensures r.Success? ==> r.value == MusicalTime(bars, beats, sixteenths)
    ensures bars < 0 ==> r == Failure(NegativeBars)
    ensures bars >= 0 && (beats < 0 || beats > 3) ==> r == Failure(BeatsOutOfRange)
    ensures bars >= 0 && 0 <= beats <= 3 && (sixteenths < 0 || sixteenths > 4) ==> r == Failure(SixteenthsOutOfRange)
  {
    if bars < 0 then Failure(NegativeBars)
    else if beats < 0 || beats >= 4 then Failure(BeatsOutOfRange)
    else if sixteenths < 0 || sixteenths > 4 then Failure(SixteenthsOutOfRange)
    else Success(MusicalTime(bars, beats, sixteenths))
  }

  /**
   * `MusicalTime.to_beats`: four beats to the bar, four sixteenths to the
   * beat. A valid position lies within its bar, the fourth sixteenth of the
   * last beat reaching the start of the next.
   */
  function ToBeats(t: MusicalTime): (r: real)
    ensures ValidPosition(t.bars, t.beats, t.sixteenths) ==> 4.0 * t.bars as real <= r <= 4.0 * t.bars as real + 4.0
  {
    t.bars as real * 4.0 + t.beats as real + t.sixteenths as real / 4.0
  }

  /** `(60.0 / bpm) * 1000`: the length of one beat in milliseconds. */
  function BeatMs(bpm: int): real
    requires bpm != 0
  {
    60.0 / bpm as real * 1000.0
  }

  /** `MusicalTime.to_ms(bpm)`: truncated; a zero tempo divides by zero. */
  function ToMs(t: MusicalTime, bpm: int): (r: Result<int, TimingError>)
    ensures r.Failure? <==> bpm == 0
  {
    if bpm == 0 then Failure(DivisionByZero)
    else Success(TruncMul(ToBeats(t), BeatMs(bpm)))
  }

  /**
   * `TimingCalculator`: the tempo and time signature are set once by
   * `NewCalculator`; `ms_per_beat`, `ms_per_bar` and `ms_per_16th` are derived
   * from them and never change.
   */
  datatype Calculator = Calculator(bpm: int, beatsPerBar: int, noteValue: int) {

    predicate Valid()
    {
      bpm > 0
    }

    /** `ms_per_beat`: a minute of 60000 ms shared among `bpm` beats. */
    function MsPerBeat(): (r: real)
      requires Valid()
      ensures r > 0.0 && r * bpm as real == 60000.0
    {
      BeatMsPositive(bpm);
      BeatMs(bpm)
    }

    /** `ms_per_bar`: `beats_per_bar` beats, so a minute holds `bpm / beats_per_bar` bars. */
    function MsPerBar(): (r: real)
      requires Valid()
      ensures r * bpm as real == 60000.0 * beatsPerBar as real
      ensures beatsPerBar > 0 ==> r > 0.0
    {
      var beat := MsPerBeat();
      assert (beat * beatsPerBar as real) * bpm as real == (beat * bpm as real) * beatsPerBar as real;
      MulSign(beatsPerBar as real, beat);
      beat * beatsPerBar as real
    }

    /** `ms_per_16th`: a quarter of a beat, so a minute holds `4 bpm` sixteenths. */
    function MsPer16th(): (r: real)
      requires Valid()
      ensures r > 0.0 && r * bpm as real == 15000.0
    {
      MsPerBeat() / 4.0
    }

    /** `bars_to_ms`: `bars` bar lengths, truncated toward zero. */
    function BarsToMs(bars: int): (r: int)
      requires Valid()
      ensures Abs(r as real) <= Abs(bars as real * MsPerBar()) < Abs(r as real) + 1.0
      ensures bars >= 0 && beatsPerBar >= 0 ==> r >= 0
    {
      assert bars >= 0 && beatsPerBar >= 0 ==> TruncMul(bars as real, MsPerBar()) >= 0 by {
        if bars >= 0 && beatsPerBar >= 0 {
          MulSign(beatsPerBar as real, MsPerBeat());
          TruncMulNonneg(bars as real, MsPerBar());
        }
      }
      TruncMul(bars as real, MsPerBar())
    }

    /** `ms_to_bars`; a zero-beat bar divides by zero. */
    function MsToBars(ms: int): (r: Result<real, TimingError>)
      requires Valid()
      ensures r.Failure? <==> beatsPerBar == 0
      ensures r.Success? ==> r.value * MsPerBar() == ms as real
    {
      BeatMsPositive(bpm);
      if beatsPerBar == 0 then Failure(DivisionByZero) else Success(ms as real / MsPerBar())
    }

    /** `nearest_bar`: round half to even to a whole bar, then truncate. */
    function NearestBar(ms: int): (r: Result<int, TimingError>)
      requires Valid()
      ensures r.Failure? <==> beatsPerBar == 0
      ensures r.Success? && beatsPerBar > 0 ==>
        ms as real - MsPerBar() / 2.0 - 1.0 < r.value as real < ms as real + MsPerBar() / 2.0 + 1.0
    {
      BeatMsPositive(bpm);
      if beatsPerBar == 0 then Failure(DivisionByZero)
      else
        assert beatsPerBar > 0 ==> ms as real - MsPerBar() / 2.0 - 1.0 < Snap(ms, MsPerBar()) as real < ms as real + MsPerBar() / 2.0 + 1.0 by {
          if beatsPerBar > 0 { SnapNear(ms, MsPerBar()); }
        }
        Success(Snap(ms, MsPerBar()))
    }

    /** `nearest_beat`: round half to even to a whole beat, then truncate. */
    function NearestBeat(ms: int): (r: int)
      requires Valid()
      ensures ms as real - MsPerBeat() / 2.0 - 1.0 < r as real < ms as real + MsPerBeat() / 2.0 + 1.0
    {
      SnapNear(ms, MsPerBeat());
      Snap(ms, MsPerBeat())
    }

    /**
     * `create_grid(total_bars, subdivision)`: the start of every subdivision,
     * truncated. A zero subdivision divides by zero.
     */
    function CreateGrid(totalBars: int, subdivision: int): (r: Result<seq<int>, TimingError>)
      requires Valid()
      ensures r.Failure? <==> subdivision == 0
      ensures r.Success? ==> |r.value| == Max(0, totalBars * subdivision)
      ensures r.Success? && |r.value| > 0 ==> r.value[0] == 0
    {
      if subdivision == 0 then Failure(DivisionByZero)
      else Success(seq(Max(0, totalBars * subdivision), i => GridTime(i, subdivision)))
    }

    /** `ms_per_bar / subdivision`. */
    function GridStep(subdivision: int): real
      requires Valid() && subdivision != 0
    {
      MsPerBar() / subdivision as real
    }

    /** The start of the `i`-th subdivision, truncated. */
    function GridTime(i: int, subdivision: int): int
      requires Valid() && subdivision != 0
    {
      TruncMul(i as real, GridStep(subdivision))
    }
  }

  /** `TimingCalculator(bpm, time_signature)`: the tempo must be positive. */
  function NewCalculator(bpm: int, beatsPerBar: int, noteValue: int): (r: Result<Calculator, TimingError>)
    ensures r.Success? <==> bpm > 0
    ensures r.Success? ==> r.value.Valid() && r.value == Calculator(bpm, beatsPerBar, noteValue)
    ensures r.Success? ==> r.value.MsPerBeat() * bpm as real == 60000.0
    ensures r.Success? ==> r.value.MsPerBar() == beatsPerBar as real * r.value.MsPerBeat()
    ensures r.Success? ==> r.value.MsPer16th() * 4.0 == r.value.MsPerBeat()
  {
    if bpm <= 0 then Failure(NonPositiveBpm)
    else
      BeatMsPositive(bpm);
      Success(Calculator(bpm, beatsPerBar, noteValue))
  }

  /** `TimingCalculator(bpm)` with the default 4/4 signature, as every caller uses it. */
  function FourFour(bpm: int): Calculator
    requires bpm > 0
  {
    Calculator(bpm, 4, 4)
  }

  /** Round `ms / unit` half to even, multiply back and truncate. */
  function Snap(ms: int, unit: real): int
    requires unit != 0.0
  {
    TruncMul(RoundHalfEven(ms as real / unit) as real, unit)
  }

  /** Snapping to a positive unit moves a time by at most half a unit, plus the millisecond truncation drops. */
  lemma SnapNear(ms: int, unit: real)
    requires unit > 0.0
    ensures ms as real - unit / 2.0 - 1.0 < Snap(ms, unit) as real < ms as real + unit / 2.0 + 1.0
  {
    RoundNear(ms as real / unit);
    WithinHalf(RoundHalfEven(ms as real / unit) as real, ms as real, unit);
  }

  /** Rounding moves a value by at most one half. */
  lemma RoundNear(q: real)
    ensures q - 0.5 <= RoundHalfEven(q) as real <= q + 0.5
  {
    assert Abs(RoundHalfEven(q) as real - q) <= 0.5;
  }

  /** A number within half of `x / unit`, scaled by a positive unit, lies within half a unit of `x`. */
  lemma WithinHalf(k: real, x: real, unit: real)
    requires unit > 0.0 && x / unit - 0.5 <= k <= x / unit + 0.5
    ensures x - unit / 2.0 <= k * unit <= x + unit / 2.0
  {
    assert unit * (x / unit - 0.5) == x - unit / 2.0;
    assert unit * (x / unit + 0.5) == x + unit / 2.0;
    MulMonotone(unit, x / unit - 0.5, k);
    MulMonotone(unit, k, x / unit + 0.5);
    Bracket(unit * (x / unit - 0.5), x - unit / 2.0, unit * k, unit * (x / unit + 0.5), x + unit / 2.0);
    assert k * unit == unit * k;
  }

  /** `lo <= m <= hi` with `lo`, `hi` renamed. */
  lemma Bracket(lo: real, lo': real, m: real, hi: real, hi': real)
    requires lo == lo' && hi == hi' && lo <= m <= hi
    ensures lo' <= m <= hi'
  {
  }

  // ---------------------------------------------------------------------
  // Arithmetic facts about beat and bar lengths
  // ---------------------------------------------------------------------

  lemma BeatMsPositive(bpm: int)
    requires bpm > 0
    ensures BeatMs(bpm) > 0.0
    ensures BeatMs(bpm) * bpm as real == 60000.0
  {
    var q := 60.0 / bpm as real;
    assert q * bpm as real == 60.0;
  }

  /** A faster tempo never gives a longer beat. */
  lemma BeatMsTempo(slow: int, fast: int)
    requires 0 < slow <= fast
    ensures BeatMs(fast) <= BeatMs(slow)
  {
    DivAntitone(60.0, slow as real, fast as real);
  }

  lemma BarLengthSign(c: Calculator)
    requires c.Valid()
    ensures c.beatsPerBar >= 0 ==> c.MsPerBar() >= 0.0
    ensures c.beatsPerBar > 0 ==> c.MsPerBar() > 0.0
  {
    BeatMsPositive(c.bpm);
  }

  lemma BarLengthTempo(slow: Calculator, fast: Calculator)
    requires slow.Valid() && fast.Valid() && slow.bpm <= fast.bpm
    requires slow.beatsPerBar == fast.beatsPerBar >= 0
    ensures fast.MsPerBar() <= slow.MsPerBar()
  {
    BeatMsTempo(slow.bpm, fast.bpm);
    MulMonotone(slow.beatsPerBar as real, BeatMs(fast.bpm), BeatMs(slow.bpm));
  }

  lemma GridStepScale(c: Calculator, subdivision: int)
    requires c.Valid() && subdivision > 0
    ensures c.GridStep(subdivision) * subdivision as real == c.MsPerBar()
    ensures c.beatsPerBar >= 0 ==> c.GridStep(subdivision) >= 0.0
  {
    BarLengthSign(c);
    if c.beatsPerBar >= 0 {
      DivNonneg(c.MsPerBar(), subdivision as real);
    }
  }

  lemma CastMul(k: int, n: int)
    ensures (k * n) as real == k as real * n as real
  {
  }

  // ---------------------------------------------------------------------
  // Properties
  // ---------------------------------------------------------------------

  /** The test's example: two bars, one beat and four sixteenths are ten beats. */
  lemma ToBeatsExample()
    ensures NewMusicalTime(2, 1, 4).Success?
    ensures ToBeats(MusicalTime(2, 1, 4)) == 10.0
  {
  }

  /**
   * Because four sixteenths are accepted, two different valid positions can
   * name the same instant.
   */
  lemma FourSixteenthsIsNextBeat(bars: int, beats: int)
    requires ValidPosition(bars, beats, 4) && beats <= 2
    ensures ValidPosition(bars, beats + 1, 0)
    ensures ToBeats(MusicalTime(bars, beats, 4)) == ToBeats(MusicalTime(bars, beats + 1, 0))
  {
  }

  /** `to_ms` of a whole-bar position agrees with the calculator's `bars_to_ms` in 4/4. */
  lemma ToMsWholeBars(bars: int, bpm: int)
    requires bpm > 0
    ensures ToMs(MusicalTime(bars, 0, 0), bpm) == Success(FourFour(bpm).BarsToMs(bars))
  {
    var t := MusicalTime(bars, 0, 0);
    assert ToBeats(t) == bars as real * 4.0;
    TruncMulRegroup(bars as real, 4.0, BeatMs(bpm));
  }

  /** One bar at 120 bpm is 2000 ms, by `to_ms` and by `bars_to_ms`; eight bars are 16000 ms. */
  lemma At120Bpm()
    ensures ToMs(MusicalTime(1, 0, 0), 120) == Success(2000)
    ensures FourFour(120).BarsToMs(1) == 2000
    ensures FourFour(120).BarsToMs(8) == 16000
    ensures FourFour(120).MsToBars(2000) == Success(1.0)
    ensures FourFour(120).MsToBars(16000) == Success(8.0)
  {
    assert BeatMs(120) == 500.0;
    assert FourFour(120).MsPerBar() == 2000.0;
    TruncOfInt(2000);
    TruncOfInt(16000);
    ToMsWholeBars(1, 120);
  }

  /** More bars never take fewer milliseconds. */
  lemma BarsToMsMonotone(c: Calculator, a: int, b: int)
    requires c.Valid() && c.beatsPerBar >= 0 && a <= b
    ensures c.BarsToMs(a) <= c.BarsToMs(b)
  {
    BarLengthSign(c);
    TruncMulMonotone(a as real, b as real, c.MsPerBar());
  }

  /** A faster tempo never makes a span of bars longer. */
  lemma BarsToMsTempo(slow: Calculator, fast: Calculator, bars: int)
    requires slow.Valid() && fast.Valid() && slow.bpm <= fast.bpm
    requires slow.beatsPerBar == fast.beatsPerBar >= 0 && bars >= 0
    ensures fast.BarsToMs(bars) <= slow.BarsToMs(bars)
  {
    BarLengthTempo(slow, fast);
    TruncMulUnitMonotone(bars as real, fast.MsPerBar(), slow.MsPerBar());
  }

  /** The test's comparison: a bar at 140 bpm is shorter than at 100 bpm. */
  lemma FasterIsShorterExample()
    ensures FourFour(140).BarsToMs(1) < FourFour(100).BarsToMs(1)
  {
    assert FourFour(100).MsPerBar() == 2400.0;
    TruncOfInt(2400);
    assert FourFour(140).MsPerBar() < 1715.0;
    TruncMulUnitMonotone(1.0, FourFour(140).MsPerBar(), 1715.0);
    TruncOfInt(1715);
  }

  /**
   * `bars_to_ms` is linear up to truncation: splitting a span of bars in two
   * loses at most one millisecond.
   */
  lemma BarsToMsAdditive(c: Calculator, a: nat, b: nat)
    requires c.Valid() && c.beatsPerBar >= 0
    ensures c.BarsToMs(a) + c.BarsToMs(b) <= c.BarsToMs(a + b) <= c.BarsToMs(a) + c.BarsToMs(b) + 1
  {
    BarLengthSign(c);
    TruncMulSplit(a as real, b as real, c.MsPerBar());
  }

  /** `k` copies of `n` bars are at most `k * n` bars long. */
  lemma BarsToMsRepeat(c: Calculator, n: nat, k: nat)
    requires c.Valid() && c.beatsPerBar >= 0
    ensures k * c.BarsToMs(n) <= c.BarsToMs(k * n)
  {
    BarLengthSign(c);
    TruncMulRepeat(n as real, k, c.MsPerBar());
    CastMul(k, n);
  }

  /** Dividing the truncation of `b * m` by `m` lands within `1 / m` below `b`. */
  lemma QuotientOfTrunc(b: real, m: real)
    requires 0.0 < m && 0.0 <= b
    ensures b - 1.0 / m < TruncMul(b, m) as real / m <= b
  {
    TruncMulNonneg(b, m);
    var x := b * m;
    var y := TruncMul(b, m) as real;
    assert x - 1.0 < y <= x;
    var q := y / m;
    assert q * m == y;
    if q > b {
      MulMonotone(m, b, q);
      assert false;
    }
    if q <= b - 1.0 / m {
      MulMonotone(m, q, b - 1.0 / m);
      assert false;
    }
  }

  /** `ms_to_bars` undoes `bars_to_ms` up to the truncated fraction of a millisecond. */
  lemma MsToBarsRoundTrip(c: Calculator, bars: nat)
    requires c.Valid() && c.beatsPerBar > 0
    ensures c.MsToBars(c.BarsToMs(bars)).Success?
    ensures bars as real - 1.0 / c.MsPerBar() < c.MsToBars(c.BarsToMs(bars)).value <= bars as real
  {
    BarLengthSign(c);
    QuotientOfTrunc(bars as real, c.MsPerBar());
  }

  /** Snapping a whole number of units gives back that number of units when a unit is two or more. */
  lemma SnapBack(k: int, unit: real)
    requires unit >= 2.0
    ensures RoundHalfEven(TruncMul(k as real, unit) as real / unit) == k
  {
    var y := TruncMul(k as real, unit) as real;
    TruncMulClose(k as real, unit);
    NearMultiple(y, k, unit);
    RoundUnique(y / unit, k);
  }

  /** Snapping to a unit of at least two milliseconds is idempotent. */
  lemma SnapIdempotent(ms: int, unit: real)
    requires unit >= 2.0
    ensures Snap(Snap(ms, unit), unit) == Snap(ms, unit)
  {
    SnapBack(RoundHalfEven(ms as real / unit), unit);
  }

  /** `nearest_bar` is idempotent once a bar is at least two milliseconds long. */
  lemma NearestBarIdempotent(c: Calculator, ms: int)
    requires c.Valid() && c.MsPerBar() >= 2.0
    ensures c.NearestBar(ms).Success?
    ensures c.NearestBar(c.NearestBar(ms).value) == c.NearestBar(ms)
  {
    BeatMsPositive(c.bpm);
    SnapIdempotent(ms, c.MsPerBar());
  }

  /** `nearest_beat` is idempotent once a beat is at least two milliseconds long. */
  lemma NearestBeatIdempotent(c: Calculator, ms: int)
    requires c.Valid() && c.MsPerBeat() >= 2.0
    ensures c.NearestBeat(c.NearestBeat(ms)) == c.NearestBeat(ms)
  {
    SnapIdempotent(ms, c.MsPerBeat());
  }

  /** The test's example: at 120 bpm both 1900 ms and 2100 ms snap to the bar at 2000 ms. */
  lemma NearestBarExample()
    ensures FourFour(120).NearestBar(1900) == Success(2000)
    ensures FourFour(120).NearestBar(2100) == Success(2000)
  {
    assert FourFour(120).MsPerBar() == 2000.0;
    RoundUnique(1900.0 / 2000.0, 1);
    RoundUnique(2100.0 / 2000.0, 1);
    TruncOfInt(2000);
  }

  /** The grid never goes backwards. */
  lemma GridMonotone(c: Calculator, totalBars: int, subdivision: int, i: int, j: int)
    requires c.Valid() && c.beatsPerBar >= 0 && subdivision > 0
    requires 0 <= i <= j < |c.CreateGrid(totalBars, subdivision).value|
    ensures c.CreateGrid(totalBars, subdivision).value[i] <= c.CreateGrid(totalBars, subdivision).value[j]
  {
    GridStepScale(c, subdivision);
    TruncMulMonotone(i as real, j as real, c.GridStep(subdivision));
  }

  /** Every `subdivision`-th grid point is a bar line, where it equals `bars_to_ms`. */
  lemma GridBarLines(c: Calculator, totalBars: int, subdivision: int, k: int)
    requires c.Valid() && subdivision > 0
    requires 0 <= k && k * subdivision < |c.CreateGrid(totalBars, subdivision).value|
    ensures c.CreateGrid(totalBars, subdivision).value[k * subdivision] == c.BarsToMs(k)
  {
    GridStepScale(c, subdivision);
    TruncMulSteps(k, subdivision, c.GridStep(subdivision), c.MsPerBar());
  }
}
