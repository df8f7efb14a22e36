/**
 * Millisecond-level model of a pydub `AudioSegment`, as the arrangement code
 * uses it. A segment is a sequence of one-millisecond ticks, so its length in
 * ticks is `len(segment)`. The content of a tick is symbolic: it records which
 * rendered sound, mix, gain or whole-segment effect produced it, never sample
 * values. The pydub behaviour the arrangement code relies on is then built in:
 * `silent(d)` has d ticks, `+` concatenates, `[a:b]` clamps to the segment,
 * `overlay` keeps the base length and `+ dB` keeps the length.
 */
module Audio {
  import opened Numeric

  /** The three kick presets of `Kick` (generate_minimal, generate_industrial, generate). */
  datatype KickPreset = MinimalKick | IndustrialKick | DefaultKick

  /** A sound rendered by a synthesis primitive; its samples are not modelled. */
  datatype Voice =
    | KickSound(preset: KickPreset)
    | BassNote(midi: int, durationBars: real, cutoffHz: int)
    | HatSound(closedness: real)

  /** A transformation applied to a whole segment whose sample math is not modelled. */
  datatype Effect =
    | LowPassed(cutoffHz: int)
    | HighPassedForCarving(cutoffHz: int)
    | FadedOut(fadeMs: int)
    | Normalised(headroomDb: real)

  datatype Tick =
    | Quiet
    | Sound(voice: Voice, offsetMs: nat)
    | Mix(under: Tick, over: Tick)
    | Boost(tick: Tick, db: real)
    | Processed(effect: Effect, input: seq<Tick>, offsetMs: nat)

  type Audio = seq<Tick>

  /** `AudioSegment.silent(duration=ms)`; a negative duration gives an empty segment. */
  function Silent(ms: int): (a: Audio)
    ensures |a| == Max(0, ms)
    ensures forall k :: 0 <= k < |a| ==> a[k] == Quiet
  {
    seq(Max(0, ms), k => Quiet)
  }

  /** A rendered sound of `ms` milliseconds. */
  function Render(v: Voice, ms: nat): (a: Audio)
    ensures |a| == ms
    ensures forall k :: 0 <= k < ms ==> a[k] == Sound(v, k)
  {
    seq(ms, k requires 0 <= k < ms => Sound(v, k))
  }

  /** `a[start:end]`: both bounds are clamped to the segment; start past end gives nothing. */
  function Slice(a: Audio, start: nat, end: nat): (r: Audio)
    ensures |r| == Max(0, Min(end, |a|) - Min(start, |a|))
    ensures forall k :: 0 <= k < |r| ==> r[k] == a[start + k]
  {
    var s := Min(start, |a|);
    var e := Min(end, |a|);
    if s <= e then a[s..e] else []
  }

  /** `a[:n]`. */
  function Take(a: Audio, n: nat): (r: Audio)
    ensures |r| == Min(n, |a|)
    ensures r == a[..Min(n, |a|)]
  {
    Slice(a, 0, n)
  }

  /**
   * `base.overlay(layer, position=p)`: the layer is mixed in from `p` on and
   * whatever reaches past the end of the base is cut off.
   */
  function Overlay(base: Audio, layer: Audio, position: nat): (r: Audio)
    ensures |r| == |base|
    ensures forall k :: 0 <= k < |base| && position <= k < position + |layer| ==>
      r[k] == Mix(base[k], layer[k - position])
    ensures forall k :: 0 <= k < |base| && !(position <= k < position + |layer|) ==>
      r[k] == base[k]
  {
    seq(|base|, k requires 0 <= k < |base| =>
      if position <= k < position + |layer| then Mix(base[k], layer[k - position]) else base[k])
  }

  /** `a + db`: a gain in decibels, which keeps the length. */
  function Gain(a: Audio, db: real): (r: Audio)
    ensures |r| == |a|
    ensures forall k :: 0 <= k < |a| ==> r[k] == Boost(a[k], db)
  {
    seq(|a|, k requires 0 <= k < |a| => Boost(a[k], db))
  }

  /** A whole-segment effect that keeps the length (filters, fades, normalisation). */
  function Apply(e: Effect, a: Audio): (r: Audio)
    ensures |r| == |a|
    ensures forall k :: 0 <= k < |a| ==> r[k] == Processed(e, a, k)
  {
    seq(|a|, k requires 0 <= k < |a| => Processed(e, a, k))
  }

  /**
   * The first `n` milliseconds of `p` played over and over. Appending copies
   * of `p` until the length reaches `n` and then cutting at `n` gives this.
   */
  function Loop(p: Audio, n: nat): (r: Audio)
    requires |p| > 0
    ensures |r| == n
    ensures n <= |p| ==> r == p[..n]
    ensures n > |p| ==> r[..|p|] == p
    decreases n
  {
    if n <= |p| then p[..n] else p + Loop(p, n - |p|)
  }

  /** `c` copies of `p` back to back. */
  function Repeat(p: Audio, c: nat): Audio
  {
    if c == 0 then [] else p + Repeat(p, c - 1)
  }

  lemma {:induction false} RepeatLength(p: Audio, c: nat)
    ensures |Repeat(p, c)| == c * |p|
  {
    if c > 0 {
      RepeatLength(p, c - 1);
      assert |Repeat(p, c)| == |p| + (c - 1) * |p|;
    }
  }

  /** `len()` of a segment of `frames` frames: `round(1000 * frames / frame_rate)`. */
  function SegmentMs(frames: int, frameRate: int): (ms: int)
    requires frameRate > 0
    ensures frames >= 0 ==> ms >= 0
  {
    var x := 1000.0 * frames as real / frameRate as real;
    assert frames >= 0 ==> x >= 0.0;
    RoundHalfEven(x)
  }

  /** However many copies were appended, cutting them at `n` gives the loop of length `n`. */
  lemma {:induction false} TakeRepeat(p: Audio, c: nat, n: nat)
    requires |p| > 0 && n <= |Repeat(p, c)|
    ensures Take(Repeat(p, c), n) == Loop(p, n)
  {
    if n == 0 {
    } else {
      assert c != 0;
      var rest := Repeat(p, c - 1);
      assert Repeat(p, c) == p + rest;
      if n <= |p| {
        assert (p + rest)[..n] == p[..n];
      } else {
        TakeRepeat(p, c - 1, n - |p|);
        assert (p + rest)[..n] == p + rest[..n - |p|];
      }
    }
  }

  /** One more copy on the right. */
  lemma {:induction false} RepeatSnoc(p: Audio, c: nat)
    ensures Repeat(p, c) + p == Repeat(p, c + 1)
  {
    if c > 0 {
      RepeatSnoc(p, c - 1);
      assert Repeat(p, c) + p == p + (Repeat(p, c - 1) + p);
    }
  }

  /**
   * pydub's `a[:n]`. A negative stop is first read as `len(a) - |n|`; when
   * that is still negative it becomes a negative byte offset, which the
   * bytes slice counts from the end once more, so `2 * len(a) + n` ticks
   * are kept (none when that is not positive).
   */
  function PyTake(a: Audio, n: int): (r: Audio)
    ensures n >= 0 ==> r == Take(a, n)
    ensures -|a| <= n < 0 ==> |r| == |a| + n && r == a[..|r|]
    ensures n < -|a| ==> |r| == Max(0, 2 * |a| + n) && r == a[..|r|]
  {
    if n >= 0 then Take(a, n)
    else if n >= -|a| then a[..|a| + n]
    else a[..Max(0, 2 * |a| + n)]
  }

  /**
   * What `while len(a) < target: a += p` leaves, started from an empty
   * segment and then cut with `a[:target]`: `p` looped to `target`, or
   * nothing when the target is not positive.
   */
  function Looped(p: Audio, target: int): (r: Audio)
    requires |p| > 0
    ensures |r| == Max(0, target)
  {
    if target > 0 then Loop(p, target) else []
  }

  /** Tick `k` of a loop is tick `k mod |p|` of the looped segment. */
  lemma {:induction false} LoopAt(p: Audio, n: nat, k: nat)
    requires |p| > 0 && k < n
    ensures Loop(p, n)[k] == p[k % |p|]
    decreases n
  {
    if n <= |p| {
      assert k % |p| == k;
    } else if k < |p| {
      assert Loop(p, n) == p + Loop(p, n - |p|);
      assert k % |p| == k;
    } else {
      assert Loop(p, n) == p + Loop(p, n - |p|);
      LoopAt(p, n - |p|, k - |p|);
      ModShift(k, |p|);
    }
  }

  lemma ModShift(k: int, m: int)
    requires 0 < m <= k
    ensures (k - m) % m == k % m
  {
    var q := (k - m) / m;
    var r := (k - m) % m;
    assert k - m == q * m + r;
    assert k == (q + 1) * m + r;
    DivModUnique(k, m, q + 1, r);
  }

  /**
   * Appending `p` to an empty segment until it reaches `target` leaves
   * `c` copies; cutting them at `target` gives `Looped(p, target)`.
   */
  lemma RepeatedToTarget(p: Audio, c: nat, target: int)
    requires |p| > 0 && target <= c * |p|
    requires c == 0 || (c - 1) * |p| < target
    ensures PyTake(Repeat(p, c), target) == Looped(p, target)
  {
    RepeatLength(p, c);
    if target > 0 {
      TakeRepeat(p, c, target);
    }
  }

  // ---------------------------------------------------------------------
  // What a mix carries
  // ---------------------------------------------------------------------

  /** `t` carries `s`: it is `s`, or a mix or gain with `s` somewhere inside. */
  predicate Carries(t: Tick, s: Tick)
  {
    t == s || (t.Mix? && (Carries(t.under, s) || Carries(t.over, s))) || (t.Boost? && Carries(t.tick, s))
  }

  /** Every tick of `layer` that lands inside `r` from `position` on is carried there. */
  predicate Heard(r: Audio, layer: Audio, position: nat)
  {
    forall k :: position <= k < |r| && k < position + |layer| ==> Carries(r[k], layer[k - position])
  }

  /** Overlaying one more layer keeps whatever was already heard. */
  lemma OverlayKeepsHeard(a: Audio, layer: Audio, position: nat, more: Audio, at: nat)
    requires Heard(a, layer, position)
    ensures Heard(Overlay(a, more, at), layer, position)
  {
    var r := Overlay(a, more, at);
    forall k | position <= k < |r| && k < position + |layer|
      ensures Carries(r[k], layer[k - position])
    {
      assert Carries(a[k], layer[k - position]);
    }
  }

  /** The overlaid layer itself is heard from its position. */
  lemma OverlayHearsLayer(a: Audio, layer: Audio, position: nat)
    ensures Heard(Overlay(a, layer, position), layer, position)
  {
  }

  /** A layer to overlay and where it starts. */
  datatype Event = Event(layer: Audio, position: nat)

  /** `base` with every event overlaid in turn, as a loop of `base = base.overlay(layer, position=p)` does. */
  function Layered(base: Audio, events: seq<Event>): (r: Audio)
    ensures |r| == |base|
    decreases |events|
  {
    if |events| == 0 then base
    else
      var last := events[|events| - 1];
      Overlay(Layered(base, events[..|events| - 1]), last.layer, last.position)
  }

  /** One more event on the right is one more overlay. */
  lemma LayeredSnoc(base: Audio, events: seq<Event>, e: Event)
    ensures Layered(base, events + [e]) == Overlay(Layered(base, events), e.layer, e.position)
  {
    assert (events + [e])[..|events|] == events;
  }

  /** Every event overlaid onto the base is heard from its position, whatever came after it. */
  lemma {:induction false} LayeredHearsEach(base: Audio, events: seq<Event>, j: nat)
    requires j < |events|
    ensures Heard(Layered(base, events), events[j].layer, events[j].position)
    decreases |events|
  {
    var n := |events| - 1;
    var prefix := events[..n];
    if j == n {
      OverlayHearsLayer(Layered(base, prefix), events[j].layer, events[j].position);
    } else {
      assert prefix[j] == events[j];
      LayeredHearsEach(base, prefix, j);
      OverlayKeepsHeard(Layered(base, prefix), events[j].layer, events[j].position, events[n].layer, events[n].position);
    }
  }

  // ---------------------------------------------------------------------
  // Segments appended in order
  // ---------------------------------------------------------------------

  /** Segments appended in order, as repeated `+=` on a segment does. */
  function Concat(parts: seq<Audio>): Audio
  {
    if |parts| == 0 then [] else Concat(parts[..|parts| - 1]) + parts[|parts| - 1]
  }

  /** Appending one more segment. */
  lemma ConcatSnoc(parts: seq<Audio>, j: nat)
    requires j < |parts|
    ensures Concat(parts[..j + 1]) == Concat(parts[..j]) + parts[j]
  {
    assert parts[..j + 1][..j] == parts[..j];
  }

  /** The segments before the `m`-th make up the start of the whole. */
  lemma {:induction false} ConcatPrefix(parts: seq<Audio>, m: nat)
    requires m <= |parts|
    ensures Concat(parts[..m]) <= Concat(parts)
  {
    if m < |parts| {
      var init := parts[..|parts| - 1];
      assert init[..m] == parts[..m];
      ConcatPrefix(init, m);
    } else {
      assert parts[..m] == parts;
    }
  }

  /** Segment `j` sits, whole, right after the segments before it. */
  lemma ConcatInPlace(parts: seq<Audio>, j: nat, k: nat)
    requires j < |parts| && k < |parts[j]|
    ensures |Concat(parts[..j])| + k < |Concat(parts)|
    ensures Concat(parts)[|Concat(parts[..j])| + k] == parts[j][k]
  {
    ConcatSnoc(parts, j);
    ConcatPrefix(parts, j + 1);
  }

  /** Segments that are all `len` long append to `|parts| * len`. */
  lemma {:induction false} ConcatUniformLength(parts: seq<Audio>, len: nat)
    requires forall j :: 0 <= j < |parts| ==> |parts[j]| == len
    ensures |Concat(parts)| == |parts| * len
  {
    if |parts| > 0 {
      ConcatUniformLength(parts[..|parts| - 1], len);
      assert |parts| * len == (|parts| - 1) * len + len;
    }
  }

  /** With segments all `len` long, segment `i` starts at `i * len`. */
  lemma ConcatUniformAt(parts: seq<Audio>, len: nat, i: nat, k: nat)
    requires forall j :: 0 <= j < |parts| ==> |parts[j]| == len
    requires i < |parts| && k < len
    ensures i * len + k < |Concat(parts)|
    ensures Concat(parts)[i * len + k] == parts[i][k]
  {
    ConcatUniformLength(parts[..i], len);
    ConcatInPlace(parts, i, k);
  }
}
