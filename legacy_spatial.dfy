/**
 * The older `SpatialProcessor` of `processing/spatial.py`. Its delay is a
 * recursive comb filter run in place over the buffer; its `stereo_width`
 * is the same as the current one and is modelled once, as
 * `Spatial.StereoWidth`.
 */
module LegacySpatial {
  import opened Numeric
  import opened Pcm
  import opened Spatial

  /**
   * Sample `i` of the buffer after `output[i] += output[i - d] * feedback`
   * has run for every `i` from `d` up: each step reads the value already
   * updated `d` samples earlier. With `d = 0` each sample reads itself.
   */
  function Comb(x: seq<real>, f: real, d: nat, i: int): real
    requires 0 <= i < |x|
    decreases i
  {
    if d == 0 then x[i] + x[i] * f
    else if i < d then x[i]
    else x[i] + Comb(x, f, d, i - d) * f
  }

  /** The whole filtered buffer. */
  function CombAll(x: seq<real>, f: real, d: nat): (r: seq<real>)
    ensures |r| == |x|
    ensures forall i :: 0 <= i < |x| ==> r[i] == Comb(x, f, d, i)
  {
    seq(|x|, i requires 0 <= i < |x| => Comb(x, f, d, i))
  }

  /** The in-place feedback loop of `delay`, in increasing index order. */
  method CombInPlace(output: array<real>, f: real, d: nat)
    modifies output
    ensures output[..] == CombAll(old(output[..]), f, d)
  {
    ghost var x := output[..];
    var i := d;
    while i < output.Length
      invariant d <= i
      invariant forall j :: 0 <= j < output.Length && j < i ==> output[j] == Comb(x, f, d, j)
      invariant forall j :: 0 <= j < output.Length && i <= j ==> output[j] == x[j]
    {
      output[i] := output[i] + output[i - d] * f;
      i := i + 1;
    }
  }

  /** The delay is defined when the blend it normalises has a signal. */
  predicate LegacyDelayDefined(x: seq<real>, f: real, d: nat, mix: real)
  {
    HasSignal(Mixed(x, CombAll(x, f, d), mix))
  }

  /** `SpatialProcessor.delay` of the older processor, mono at the input frame rate. */
  method Delay(audio: Pcm, delayMs: real, feedback: real, mix: real) returns (r: Pcm)
    requires 0.0 <= delayMs && 0 <= audio.frameRate
    requires DelaySamples(delayMs, audio.frameRate) >= 0
    requires LegacyDelayDefined(ToReals(audio.samples), feedback, DelaySamples(delayMs, audio.frameRate), mix)
    ensures r == Pcm(NormaliseToInt16(Mixed(ToReals(audio.samples),
                       CombAll(ToReals(audio.samples), feedback, DelaySamples(delayMs, audio.frameRate)), mix)),
                     audio.frameRate, 1)
  {
    var samples := ToReals(audio.samples);
    var d: nat := DelaySamples(delayMs, audio.frameRate);
    var output := new real[|samples|](i => if 0 <= i < |samples| then samples[i] else 0.0);
    assert output[..] == samples;
    CombInPlace(output, feedback, d);
    var result := NormaliseToInt16(Mixed(samples, output[..], mix));
    return Pcm(result, audio.frameRate, 1);
  }

  /** `k * d`, counted out one block of `d` at a time. */
  function Lag(k: nat, d: nat): nat
  {
    if k == 0 then 0 else Lag(k - 1, d) + d
  }

  lemma {:induction false} LagIsProduct(k: nat, d: nat)
    ensures Lag(k, d) == k * d
  {
    if k > 0 {
      LagIsProduct(k - 1, d);
      assert k * d == (k - 1) * d + d;
    }
  }

  /** `sum_{j=0..k} f^j * x[i - j d]`: the echoes that reach sample `i` from the last `k` blocks. */
  function EchoTotal(x: seq<real>, f: real, d: nat, i: int, k: nat): real
    requires 0 <= i < |x| && Lag(k, d) <= i
  {
    if k == 0 then x[i]
    else EchoTotal(x, f, d, i, k - 1) + Power(f, k) * x[i - Lag(k, d)]
  }

  lemma Distribute(f: real, a: real, p: real, b: real)
    ensures f * (a + p * b) == f * a + (f * p) * b
  {
  }

  /** Peeling off the newest term: the sum at `i` is `x[i]` plus `f` times the sum at `i - d`. */
  lemma {:induction false} EchoTotalPeel(x: seq<real>, f: real, d: nat, i: int, k: nat)
    requires 0 <= i < |x| && 1 <= k && Lag(k, d) <= i
    ensures d <= i && Lag(k - 1, d) <= i - d
    ensures EchoTotal(x, f, d, i, k) == x[i] + f * EchoTotal(x, f, d, i - d, k - 1)
  {
    if k == 1 {
      assert Power(f, 1) == f;
    } else {
      EchoTotalPeel(x, f, d, i, k - 1);
      assert i - d - Lag(k - 1, d) == i - Lag(k, d);
      Distribute(f, EchoTotal(x, f, d, i - d, k - 2), Power(f, k - 1), x[i - Lag(k, d)]);
    }
  }

  /**
   * Comb-filter closed form: sample `i`, in the `k`-th block of `d`
   * samples, is `sum_{j=0..k} f^j * x[i - j d]`.
   */
  lemma {:induction false} CombClosedForm(x: seq<real>, f: real, d: nat, i: int, k: nat)
    requires 0 < d && 0 <= i < |x| && Lag(k, d) <= i < Lag(k, d) + d
    ensures Comb(x, f, d, i) == EchoTotal(x, f, d, i, k)
  {
    if k > 0 {
      CombClosedForm(x, f, d, i - d, k - 1);
      EchoTotalPeel(x, f, d, i, k);
    }
  }

  /** Every sample lies in block `i / d`, so the closed form covers the whole buffer. */
  lemma CombClosedFormAt(x: seq<real>, f: real, d: nat, i: int)
    requires 0 < d && 0 <= i < |x|
    ensures Lag(i / d, d) <= i
    ensures CombAll(x, f, d)[i] == EchoTotal(x, f, d, i, i / d)
  {
    LagIsProduct(i / d, d);
    CombClosedForm(x, f, d, i, i / d);
  }

  /** The first `d` samples of the delay buffer are the dry input. */
  lemma HeadIsDry(x: seq<real>, f: real, d: nat, i: int)
    requires 0 <= i < d && i < |x|
    ensures CombAll(x, f, d)[i] == x[i]
  {
  }

  /** With no feedback the delay buffer is the dry input. */
  lemma NoFeedbackIsDry(x: seq<real>, d: nat)
    ensures CombAll(x, 0.0, d) == x
  {
    forall i | 0 <= i < |x|
      ensures Comb(x, 0.0, d, i) == x[i]
    {
    }
  }
}
