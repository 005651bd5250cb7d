/** The spectral reconstructor `calculate_reconstructed_signal`: Fourier synthesis
    over the bins below the Nyquist frequency (the DC bin left out), followed by an
    in-place min–max rescaling of the curve onto [-1, 1]. */
module Reconstructor {
  import opened RealMath
  import opened Foreign
  import opened AppState
  import opened SignalGenerator

  /** What the reconstruction yields. When every reconstructed value is the same,
      the source divides by a zero range and every amplitude becomes NaN; the model
      reports that case as FlatCurve. */
  datatype ReconResult = Rescaled(curve: seq<Point>) | FlatCurve

  /** `nyquist_idx.min(fft_output.len() / 2)`, where nyquist_idx is
      `(sampling_frequency / 2.0 / freq_resolution).ceil() as usize`. */
  function DisplayComponents(fs: real, freqRes: real, len: nat): (k: nat)
    requires freqRes != 0.0
    ensures k <= len / 2
  {
    MinNat(CeilUsize(fs / 2.0 / freqRes), len / 2)
  }

  /** The contribution of bin k at time x: |X[k]| · cos(k · Δf · x + arg X[k]). */
  function Component(out: seq<Complex>, k: nat, freqRes: real, x: real, p: Primitives): real
    requires k < |out|
  {
    p.norm(out[k]) * p.cos(k as real * freqRes * x + p.arg(out[k]))
  }

  /** The sum of the contributions of bins 1 .. m - 1 at time x; bin 0 (DC) is
      never part of it. */
  function ReconSum(out: seq<Complex>, m: nat, freqRes: real, x: real, p: Primitives): real
    requires m <= |out|
  {
    if m <= 1 then 0.0 else ReconSum(out, m - 1, freqRes, x, p) + Component(out, m - 1, freqRes, x, p)
  }

  /** The curve before rescaling: n points on the display axis, each the sum of
      the components below the Nyquist limit. */
  function RawReconstruction(fs: real, n: nat, out: seq<Complex>, freqRes: real, p: Primitives): (c: seq<Point>)
    requires n > 0 && freqRes != 0.0
    ensures |c| == n
    ensures forall i :: 0 <= i < n ==> c[i].x == DisplayX(i, n)
    ensures forall i :: 0 <= i < n ==> c[i].y == ReconSum(out, DisplayComponents(fs, freqRes, |out|), freqRes, DisplayX(i, n), p)
  {
    var m := DisplayComponents(fs, freqRes, |out|);
    seq(n, (i: nat) requires i < n => Point(DisplayX(i, n), ReconSum(out, m, freqRes, DisplayX(i, n), p)))
  }

  /** The smallest amplitude of a non-empty curve (`min_by` on y, then `unwrap`). */
  function MinY(c: seq<Point>): (m: real)
    requires |c| > 0
    ensures forall i :: 0 <= i < |c| ==> m <= c[i].y
    ensures exists i :: 0 <= i < |c| && c[i].y == m
  {
    if |c| == 1 then c[0].y
    else
      var rest := MinY(c[1..]);
      assert forall i :: 1 <= i < |c| ==> c[i] == c[1..][i - 1];
      if c[0].y <= rest then c[0].y else rest
  }

  /** The largest amplitude of a non-empty curve (`max_by` on y, then `unwrap`). */
  function MaxY(c: seq<Point>): (m: real)
    requires |c| > 0
    ensures forall i :: 0 <= i < |c| ==> c[i].y <= m
    ensures exists i :: 0 <= i < |c| && c[i].y == m
  {
    if |c| == 1 then c[0].y
    else
      var rest := MaxY(c[1..]);
      assert forall i :: 1 <= i < |c| ==> c[i] == c[1..][i - 1];
      if c[0].y >= rest then c[0].y else rest
  }

  /** Min–max normalisation of one value onto [-1, 1]: lo goes to -1, hi to +1. */
  function Normalise(y: real, lo: real, hi: real): real
    requires lo < hi
  {
    2.0 * ((y - lo) / (hi - lo)) - 1.0
  }

  /** The whole curve normalised by its own minimum and maximum, x kept. */
  function Rescale(c: seq<Point>): (r: seq<Point>)
    requires |c| > 0 && MinY(c) < MaxY(c)
    ensures |r| == |c|
    ensures forall i :: 0 <= i < |c| ==> r[i].x == c[i].x
    ensures forall i :: 0 <= i < |c| ==> r[i].y == Normalise(c[i].y, MinY(c), MaxY(c))
  {
    var lo, hi := MinY(c), MaxY(c);
    seq(|c|, i requires 0 <= i < |c| => Point(c[i].x, Normalise(c[i].y, lo, hi)))
  }

  /** r is what the reconstruction yields from the spectrum out on n display
      points: FlatCurve exactly when the raw synthesis is constant, and otherwise
      its min–max normalisation. */
  predicate ReconstructionOf(r: ReconResult, fs: real, n: nat, out: seq<Complex>, freqRes: real, p: Primitives)
  {
    && n > 0 && freqRes != 0.0
    && var raw := RawReconstruction(fs, n, out, freqRes, p);
       && (r.FlatCurve? <==> MinY(raw) == MaxY(raw))
       && (r.Rescaled? ==> r.curve == Rescale(raw))
  }

  /** `calculate_reconstructed_signal`. For each of the n display points it sums
      the components of bins 1 up to the Nyquist-limited count, pushes the point,
      and then rescales the pushed curve in place by `(y - half_point) * scale`.
      The result is the min–max normalisation of the raw synthesis, or FlatCurve
      when the raw synthesis is constant. (The source also takes fft_size, which
      its body never reads.) */
  method CalculateReconstructedSignal(app: App, n: nat, out: seq<Complex>, freqRes: real, p: Primitives)
    returns (r: ReconResult)
    requires n > 0 && freqRes != 0.0
    ensures var raw := RawReconstruction(app.samplingFrequency, n, out, freqRes, p);
      && (r.FlatCurve? <==> MinY(raw) == MaxY(raw))
      && (r.Rescaled? ==> r.curve == Rescale(raw))
  {
    var fs := app.samplingFrequency;
    ghost var raw := RawReconstruction(fs, n, out, freqRes, p);
    var recon: seq<Point> := [];
    for i := 0 to n
      invariant |recon| == i
      invariant forall j :: 0 <= j < i ==> recon[j] == raw[j]
    {
      var x := i as real / n as real * 2.0 * Pi;
      assert x == DisplayX(i, n);
      var yValue := SynthesisePoint(fs, x, out, freqRes, p);
      recon := recon + [Point(x, yValue)];
    }
    assert recon == raw;

    r := RescaleCurve(recon);
  }

  /** The second step of `calculate_reconstructed_signal`: take the minimum and
      maximum amplitude (which panics on an empty curve), then rewrite every y in
      place as `(y - half_point) * scale`. The result is the min–max normalisation
      of the curve, or FlatCurve when the curve has no range to normalise. */
  method RescaleCurve(raw: seq<Point>) returns (r: ReconResult)
    requires |raw| > 0
    ensures r.FlatCurve? <==> MinY(raw) == MaxY(raw)
    ensures r.Rescaled? ==> r.curve == Rescale(raw)
  {
    var recon := raw;
    var reconMin := MinY(recon);
    var reconMax := MaxY(recon);
    var delta := reconMax - reconMin;
    if delta == 0.0 {
      return FlatCurve;
    }
    var scale := 2.0 / delta;
    var halfPoint := reconMax - delta / 2.0;

    recon := ScaleInPlace(recon, halfPoint, scale);
    AffineRescales(raw, recon, reconMin, reconMax, halfPoint, scale);
    return Rescaled(recon);
  }

  /** The block that computes one reconstructed amplitude: the components of
      bins 1 .. nyquist_idx.min(len / 2) - 1 at time x, summed in a loop that
      skips k = 0. Every index it reads is below len / 2. */
  method SynthesisePoint(fs: real, x: real, out: seq<Complex>, freqRes: real, p: Primitives) returns (yValue: real)
    requires freqRes != 0.0
    ensures yValue == ReconSum(out, DisplayComponents(fs, freqRes, |out|), freqRes, x, p)
  {
    yValue := 0.0;
    var nyquistIdx := CeilUsize(fs / 2.0 / freqRes);
    var displayComponents := MinNat(nyquistIdx, |out| / 2);
    for k := 0 to displayComponents
      invariant yValue == ReconSum(out, k, freqRes, x, p)
    {
      var freq := k as real * freqRes;
      if k == 0 {
        continue;
      }
      var amplitude := p.norm(out[k]);
      var phase := p.arg(out[k]);
      ComponentAt(out, k, freq, freqRes, x, p);
      yValue := yValue + amplitude * p.cos(freq * x + phase);
    }
  }

  /** The loop computes freq = k · Δf first and then the component from freq;
      this step lets the solver see that product as Component's. */
  lemma ComponentAt(out: seq<Complex>, k: nat, freq: real, freqRes: real, x: real, p: Primitives)
    requires k < |out| && freq == k as real * freqRes
    ensures p.norm(out[k]) * p.cos(freq * x + p.arg(out[k])) == Component(out, k, freqRes, x, p)
  {
    var computed := freq * x + p.arg(out[k]);
    var specified := k as real * freqRes * x + p.arg(out[k]);
    assert computed == specified;
  }

  /** The loop `for (x, y) in &mut recon_signal { *y = (*y - half_point) * scale; }`:
      every point is rewritten in place, in order, and its x is kept. */
  method ScaleInPlace(c: seq<Point>, halfPoint: real, scale: real) returns (recon: seq<Point>)
    ensures |recon| == |c|
    ensures forall k :: 0 <= k < |c| ==> recon[k] == Affine(c[k], halfPoint, scale)
  {
    recon := c;
    for j := 0 to |recon|
      invariant |recon| == |c|
      invariant forall k :: 0 <= k < j ==> recon[k] == Affine(c[k], halfPoint, scale)
      invariant forall k :: j <= k < |c| ==> recon[k] == c[k]
    {
      var (x, y) := (recon[j].x, recon[j].y);
      recon := recon[j := Point(x, (y - halfPoint) * scale)];
    }
  }

  /** One point after the in-place update `*y = (*y - half_point) * scale`. */
  function Affine(pt: Point, halfPoint: real, scale: real): Point
  {
    Point(pt.x, (pt.y - halfPoint) * scale)
  }

  /** The curve the in-place loop leaves behind is the min–max normalisation of
      the curve it started from. */
  lemma AffineRescales(raw: seq<Point>, recon: seq<Point>, lo: real, hi: real, halfPoint: real, scale: real)
    requires |raw| > 0 && lo == MinY(raw) && hi == MaxY(raw) && lo < hi
    requires halfPoint == hi - (hi - lo) / 2.0 && scale == 2.0 / (hi - lo)
    requires |recon| == |raw|
    requires forall k :: 0 <= k < |raw| ==> recon[k] == Affine(raw[k], halfPoint, scale)
    ensures recon == Rescale(raw)
  {
    var target := Rescale(raw);
    forall k | 0 <= k < |raw|
      ensures recon[k] == target[k]
    {
      AffinePoint(raw[k], lo, hi, halfPoint, scale);
    }
  }

  lemma AffinePoint(pt: Point, lo: real, hi: real, halfPoint: real, scale: real)
    requires lo < hi
    requires halfPoint == hi - (hi - lo) / 2.0 && scale == 2.0 / (hi - lo)
    ensures Affine(pt, halfPoint, scale) == Point(pt.x, Normalise(pt.y, lo, hi))
  {
    AffineIsNormalise(pt.y, lo, hi, halfPoint, scale);
  }

  /** The source's affine form `(y - half_point) * scale`, with
      half_point = max - (max - min) / 2 and scale = 2 / (max - min), is the
      min–max normalisation. */
  lemma AffineIsNormalise(y: real, lo: real, hi: real, halfPoint: real, scale: real)
    requires lo < hi
    requires halfPoint == hi - (hi - lo) / 2.0 && scale == 2.0 / (hi - lo)
    ensures (y - halfPoint) * scale == Normalise(y, lo, hi)
  {
    var d := hi - lo;
    assert halfPoint == lo + d / 2.0;
    assert (y - (lo + d / 2.0)) * (2.0 / d) == 2.0 * (y - lo) / d - (d / 2.0) * (2.0 / d);
    assert (d / 2.0) * (2.0 / d) == 1.0;
  }

  /** Bin k takes part in the synthesis exactly when it lies in the lower half of
      the spectrum and its frequency k · Δf is strictly below the Nyquist frequency
      fs / 2. Since the count never exceeds len / 2, no bin at or above len / 2 is
      ever read. */
  lemma ComponentsBelowNyquist(fs: real, freqRes: real, len: nat, k: nat)
    requires freqRes > 0.0
    ensures k < DisplayComponents(fs, freqRes, len) <==> k < len / 2 && k as real * freqRes < fs / 2.0
  {
    var bound := fs / 2.0 / freqRes;
    assert k < CeilUsize(bound) <==> k as real < bound;
    assert bound * freqRes == fs / 2.0;
    if k as real < bound {
      MulStrict(k as real, bound, freqRes);
    }
    if k as real * freqRes < fs / 2.0 {
      DivStrict(k as real * freqRes, fs / 2.0, freqRes);
      assert k as real * freqRes / freqRes == k as real;
    }
  }

  /** The DC bin never contributes: whatever X[0] holds, the synthesis is the same. */
  lemma {:induction false} DcBinIgnored(out: seq<Complex>, m: nat, freqRes: real, x: real, p: Primitives, dc: Complex)
    requires 0 < |out| && m <= |out|
    ensures ReconSum(out[0 := dc], m, freqRes, x, p) == ReconSum(out, m, freqRes, x, p)
  {
    if m > 1 {
      DcBinIgnored(out, m - 1, freqRes, x, p, dc);
      assert out[0 := dc][m - 1] == out[m - 1];
    }
  }

  /** One value under min–max normalisation: inside [lo, hi] it lands in [-1, 1],
      at -1 exactly for lo and at +1 exactly for hi. */
  lemma NormaliseRange(y: real, lo: real, hi: real)
    requires lo < hi && lo <= y <= hi
    ensures -1.0 <= Normalise(y, lo, hi) <= 1.0
    ensures Normalise(y, lo, hi) == -1.0 <==> y == lo
    ensures Normalise(y, lo, hi) == 1.0 <==> y == hi
  {
    var d := hi - lo;
    var t := (y - lo) / d;
    assert Normalise(y, lo, hi) == 2.0 * t - 1.0;
    assert t * d == y - lo;
    assert 0.0 <= t <= 1.0 by {
      if t < 0.0 {
        MulStrict(t, 0.0, d);
      }
      if t > 1.0 {
        MulStrict(1.0, t, d);
      }
    }
    assert t == 0.0 <==> y == lo;
    assert t == 1.0 <==> y == hi;
  }

  /** Normalisation is strictly increasing. */
  lemma NormaliseMonotone(y1: real, y2: real, lo: real, hi: real)
    requires lo < hi
    ensures y1 < y2 <==> Normalise(y1, lo, hi) < Normalise(y2, lo, hi)
  {
    var d := hi - lo;
    assert Normalise(y2, lo, hi) - Normalise(y1, lo, hi) == 2.0 * (y2 - y1) / d;
    if y1 < y2 {
      DivStrict(0.0, 2.0 * (y2 - y1), d);
    } else {
      assert 2.0 * (y1 - y2) / d >= 0.0 by {
        if y1 > y2 {
          DivStrict(0.0, 2.0 * (y1 - y2), d);
        }
      }
      assert 2.0 * (y2 - y1) / d == -(2.0 * (y1 - y2) / d);
    }
  }

  /** The rescaled curve fills [-1, 1]: every amplitude lies in it, the points that
      held the minimum are exactly the ones at -1, those that held the maximum are
      exactly the ones at +1, and both ends are reached. */
  lemma RescaleFillsUnitRange(c: seq<Point>)
    requires |c| > 0 && MinY(c) < MaxY(c)
    ensures forall i :: 0 <= i < |c| ==> -1.0 <= Rescale(c)[i].y <= 1.0
    ensures forall i :: 0 <= i < |c| ==> (Rescale(c)[i].y == -1.0 <==> c[i].y == MinY(c))
    ensures forall i :: 0 <= i < |c| ==> (Rescale(c)[i].y == 1.0 <==> c[i].y == MaxY(c))
    ensures exists i :: 0 <= i < |c| && Rescale(c)[i].y == -1.0
    ensures exists i :: 0 <= i < |c| && Rescale(c)[i].y == 1.0
  {
    var r, lo, hi := Rescale(c), MinY(c), MaxY(c);
    forall i | 0 <= i < |c|
      ensures -1.0 <= r[i].y <= 1.0
      ensures r[i].y == -1.0 <==> c[i].y == lo
      ensures r[i].y == 1.0 <==> c[i].y == hi
    {
      NormaliseRange(c[i].y, lo, hi);
    }
    var iMin :| 0 <= iMin < |c| && c[iMin].y == lo;
    var iMax :| 0 <= iMax < |c| && c[iMax].y == hi;
    assert r[iMin].y == -1.0 && r[iMax].y == 1.0;
  }

  /** The reconstructed curve, when it is not flat, runs over the display axis
      with one point per display position and amplitudes in [-1, 1]. */
  lemma ReconstructionShape(fs: real, n: nat, out: seq<Complex>, freqRes: real, p: Primitives, r: ReconResult)
    requires n > 0 && freqRes != 0.0
    requires var raw := RawReconstruction(fs, n, out, freqRes, p);
      r.Rescaled? ==> MinY(raw) < MaxY(raw) && r.curve == Rescale(raw)
    ensures r.Rescaled? ==>
      && |r.curve| == n
      && (forall i :: 0 <= i < n ==> r.curve[i].x == DisplayX(i, n))
      && (forall i :: 0 <= i < n ==> -1.0 <= r.curve[i].y <= 1.0)
  {
    if r.Rescaled? {
      RescaleFillsUnitRange(RawReconstruction(fs, n, out, freqRes, p));
    }
  }

  /** A curve of one point has no range: its minimum is its maximum, so the
      rescale of a one-pixel reconstruction divides by zero. */
  lemma SinglePointIsFlat(c: seq<Point>)
    requires |c| == 1
    ensures MinY(c) == MaxY(c) == c[0].y
  {
  }

  /** Rescaling keeps the order of the amplitudes, in both directions. */
  lemma RescalePreservesOrder(c: seq<Point>, i: nat, j: nat)
    requires |c| > 0 && MinY(c) < MaxY(c)
    requires i < |c| && j < |c|
    ensures c[i].y < c[j].y <==> Rescale(c)[i].y < Rescale(c)[j].y
  {
    NormaliseMonotone(c[i].y, c[j].y, MinY(c), MaxY(c));
  }
}
