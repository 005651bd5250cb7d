/** The numbers behind the spectrum plot (`render_fft`): the frequency resolution,
    how many bins lie in the 0–20 Hz display range, the bin magnitudes, their peak,
    and one bar per display bucket whose height is the bucket's peak relative to
    the global peak. */
module SpectrumDisplay {
  import opened RealMath
  import opened Foreign
  import opened AppState

  /** The right edge of the display, in Hz. */
  const MaxDisplayFreq: real := 20.0
  /** The number of bars drawn across the display. */
  const NumBuckets: nat := 200

  /** `sampling_frequency / fft_size as f32`: the width of one bin in Hz. */
  function FreqResolution(fs: real, fftSize: nat): (r: real)
    requires fftSize > 0
    ensures fs > 0.0 ==> r > 0.0
    ensures r * fftSize as real == fs
  {
    fs / fftSize as real
  }

  /** `(max_display_freq / freq_resolution).ceil() as usize`, capped at fft_size / 2. */
  function DisplayPoints(freqRes: real, fftSize: nat): (d: nat)
    requires freqRes != 0.0
    ensures d <= fftSize / 2
  {
    MinNat(CeilUsize(MaxDisplayFreq / freqRes), fftSize / 2)
  }

  /** `c.norm() / fft_size` for each of the first d bins. */
  function Magnitudes(out: seq<Complex>, d: nat, fftSize: nat, norm: Complex -> real): (m: seq<real>)
    requires d <= |out| && fftSize > 0
    ensures |m| == d
    ensures forall i :: 0 <= i < d ==> m[i] == norm(out[i]) / fftSize as real
  {
    seq(d, i requires 0 <= i < d => norm(out[i]) / fftSize as real)
  }

  /** `iter().fold(0.0, |a, &b| a.max(b))`: the largest value, or 0 when every value
      is below 0 or there are none. */
  function PeakOf(s: seq<real>): (r: real)
    ensures r >= 0.0
    ensures forall i :: 0 <= i < |s| ==> s[i] <= r
    ensures r == 0.0 || exists i :: 0 <= i < |s| && s[i] == r
  {
    if |s| == 0 then 0.0 else Max(PeakOf(s[..|s| - 1]), s[|s| - 1])
  }

  /** `(bucket · 20 / 200 / freq_resolution).floor() as usize`. */
  function BucketStart(bucket: nat, freqRes: real): nat
    requires freqRes != 0.0
  {
    Usize(bucket as real * MaxDisplayFreq / NumBuckets as real / freqRes)
  }

  /** `((bucket + 1) · 20 / 200 / freq_resolution).ceil() as usize`, capped at the
      number of display points. */
  function BucketEnd(bucket: nat, freqRes: real, displayPoints: nat): (e: nat)
    requires freqRes != 0.0
    ensures e <= displayPoints
  {
    MinNat(CeilUsize((bucket + 1) as real * MaxDisplayFreq / NumBuckets as real / freqRes), displayPoints)
  }

  /** The peak of a bucket: over the indices i with start <= i < end and
      i < |mags|, the largest magnitude, or 0 when the bucket is empty or holds
      only values below 0. */
  function BucketPeak(mags: seq<real>, start: nat, end: nat): (r: real)
    ensures r >= 0.0
    ensures forall i :: start <= i < end && i < |mags| ==> mags[i] <= r
    ensures r == 0.0 || exists i :: start <= i < end && i < |mags| && mags[i] == r
    ensures r <= PeakOf(mags)
  {
    if start < end && start < |mags| then
      var hi := MinNat(end, |mags|);
      var r := PeakOf(mags[start..hi]);
      assert forall i :: start <= i < hi ==> mags[i] == mags[start..hi][i - start];
      r
    else
      0.0
  }

  /** The loop that fills `max_bucket_magnitude`: starting from 0, it folds max over
      `magnitudes[start .. end.min(len)]`, and only when start < end and
      start < len. */
  method BucketMax(mags: seq<real>, start: nat, end: nat) returns (m: real)
    ensures m == BucketPeak(mags, start, end)
  {
    m := 0.0;
    if start < end && start < |mags| {
      var hi := MinNat(end, |mags|);
      for i := start to hi
        invariant m == PeakOf(mags[start..i])
      {
        assert mags[start..i + 1][..i - start] == mags[start..i];
        m := Max(m, mags[i]);
      }
    }
  }

  /** `max_bucket_magnitude / max_magnitude * rect.height()`. */
  function BarHeight(bucketMax: real, maxMag: real, rectHeight: real): real
    requires maxMag > 0.0
  {
    bucketMax / maxMag * rectHeight
  }

  /** A bucket peak between 0 and the global peak gives a bar between the bottom
      and the top of the plot. */
  lemma BarHeightWithinPlot(bucketMax: real, maxMag: real, rectHeight: real)
    requires maxMag > 0.0 && 0.0 <= bucketMax <= maxMag && rectHeight >= 0.0
    ensures 0.0 <= BarHeight(bucketMax, maxMag, rectHeight) <= rectHeight
  {
    var frac := bucketMax / maxMag;
    assert frac * maxMag == bucketMax;
    assert 0.0 <= frac <= 1.0 by {
      if frac < 0.0 {
        MulStrict(frac, 0.0, maxMag);
      }
      if frac > 1.0 {
        MulStrict(1.0, frac, maxMag);
      }
    }
    MulMonotone(0.0, frac, rectHeight);
    MulMonotone(frac, 1.0, rectHeight);
  }

  /** The height of bar b of the spectrum plot, as the source draws it. */
  function Bar(mags: seq<real>, b: nat, freqRes: real, displayPoints: nat, rectHeight: real): real
    requires freqRes != 0.0 && PeakOf(mags) > 0.0
  {
    BarHeight(BucketPeak(mags, BucketStart(b, freqRes), BucketEnd(b, freqRes, displayPoints)), PeakOf(mags), rectHeight)
  }

  /** Every bar lies between the bottom and the top of the plot. */
  lemma BarWithinPlot(mags: seq<real>, b: nat, freqRes: real, displayPoints: nat, rectHeight: real)
    requires freqRes != 0.0 && PeakOf(mags) > 0.0 && rectHeight >= 0.0
    ensures 0.0 <= Bar(mags, b, freqRes, displayPoints, rectHeight) <= rectHeight
  {
    var peak := BucketPeak(mags, BucketStart(b, freqRes), BucketEnd(b, freqRes, displayPoints));
    BarHeightWithinPlot(peak, PeakOf(mags), rectHeight);
  }

  /** The bucket loop of `render_fft`: for each of the 200 buckets, the index range
      its frequency band covers, the peak magnitude in that range, and the bar
      height relative to the global peak. */
  method BucketBars(mags: seq<real>, freqRes: real, displayPoints: nat, rectHeight: real) returns (bars: seq<real>)
    requires freqRes != 0.0 && PeakOf(mags) > 0.0
    ensures |bars| == NumBuckets
    ensures forall b :: 0 <= b < NumBuckets ==> bars[b] == Bar(mags, b, freqRes, displayPoints, rectHeight)
  {
    var maxMagnitude := PeakOf(mags);
    bars := [];
    for bucket := 0 to NumBuckets
      invariant |bars| == bucket
      invariant forall b :: 0 <= b < bucket ==> bars[b] == Bar(mags, b, freqRes, displayPoints, rectHeight)
    {
      var bucketStartIdx := BucketStart(bucket, freqRes);
      var bucketEndIdx := BucketEnd(bucket, freqRes, displayPoints);
      var maxBucketMagnitude := BucketMax(mags, bucketStartIdx, bucketEndIdx);
      var normalizedHeight := BarHeight(maxBucketMagnitude, maxMagnitude, rectHeight);
      bars := bars + [normalizedHeight];
    }
  }

  /** The bars `render_fft` draws from a spectrum of fft_size bins at resolution
      Δf: none when the peak magnitude of the displayed bins is 0, otherwise one
      per bucket, each the bucket peak relative to the global peak. */
  predicate BarsFor(bars: seq<real>, out: seq<Complex>, fftSize: nat, freqRes: real, rectHeight: real, norm: Complex -> real)
  {
    && fftSize > 0 && freqRes != 0.0 && DisplayPoints(freqRes, fftSize) <= |out|
    && var mags := Magnitudes(out, DisplayPoints(freqRes, fftSize), fftSize, norm);
       && (bars == [] <==> PeakOf(mags) == 0.0)
       && (bars != [] ==>
             && |bars| == NumBuckets
             && PeakOf(mags) > 0.0
             && forall b :: 0 <= b < |bars| ==> bars[b] == Bar(mags, b, freqRes, |mags|, rectHeight))
  }

  /** The computations of `render_fft`. It returns the frequency resolution and the
      heights of the bars it draws: none when there is no magnitude or all of them
      are 0, otherwise one per bucket, each inside [0, rect height]. */
  method RenderFft(app: App, fftSize: nat, out: seq<Complex>, rectHeight: real, p: Primitives)
    returns (freqRes: real, bars: seq<real>)
    requires app.samplingFrequency > 0.0 && fftSize > 0
    requires DisplayPoints(FreqResolution(app.samplingFrequency, fftSize), fftSize) <= |out|
    ensures freqRes == FreqResolution(app.samplingFrequency, fftSize)
    ensures BarsFor(bars, out, fftSize, freqRes, rectHeight, p.norm)
    ensures rectHeight >= 0.0 ==> forall b :: 0 <= b < |bars| ==> 0.0 <= bars[b] <= rectHeight
  {
    freqRes := app.samplingFrequency / fftSize as real;
    var displayPoints := CeilUsize(MaxDisplayFreq / freqRes);
    displayPoints := MinNat(displayPoints, fftSize / 2);

    var magnitudes := Magnitudes(out, displayPoints, fftSize, p.norm);
    var maxMagnitude := PeakOf(magnitudes);

    bars := [];
    if |magnitudes| > 0 && maxMagnitude > 0.0 {
      bars := BucketBars(magnitudes, freqRes, displayPoints, rectHeight);
      if rectHeight >= 0.0 {
        forall b | 0 <= b < |bars|
          ensures 0.0 <= bars[b] <= rectHeight
        {
          BarWithinPlot(magnitudes, b, freqRes, displayPoints, rectHeight);
        }
      }
    }
  }

  /** A bin is shown exactly when it lies in the lower half of the transform and
      its frequency k · Δf is below the 20 Hz edge of the display. */
  lemma DisplayPointsBelowMaxFreq(freqRes: real, fftSize: nat, k: nat)
    requires freqRes > 0.0
    ensures k < DisplayPoints(freqRes, fftSize) <==> k < fftSize / 2 && k as real * freqRes < MaxDisplayFreq
  {
    var bound := MaxDisplayFreq / freqRes;
    assert k < CeilUsize(bound) <==> k as real < bound;
    assert bound * freqRes == MaxDisplayFreq;
    if k as real < bound {
      MulStrict(k as real, bound, freqRes);
    }
    if k as real * freqRes < MaxDisplayFreq {
      var kf := k as real * freqRes;
      assert kf / freqRes == k as real;
      assert bound - kf / freqRes == (MaxDisplayFreq - kf) / freqRes;
    }
  }

  /** Every bin magnitude is at least 0. */
  lemma MagnitudesNonNegative(out: seq<Complex>, d: nat, fftSize: nat, p: Primitives)
    requires p.Valid() && d <= |out| && fftSize > 0
    ensures forall i :: 0 <= i < d ==> Magnitudes(out, d, fftSize, p.norm)[i] >= 0.0
  {
    var m := Magnitudes(out, d, fftSize, p.norm);
    forall i | 0 <= i < d
      ensures m[i] >= 0.0
    {
      assert p.norm(out[i]) >= 0.0;
    }
  }

  /** With every magnitude at least 0, the peak is a true maximum: it is one of the
      magnitudes whenever there is one. */
  lemma PeakAttained(s: seq<real>)
    requires |s| > 0 && forall i :: 0 <= i < |s| ==> s[i] >= 0.0
    ensures exists i :: 0 <= i < |s| && s[i] == PeakOf(s)
  {
    if PeakOf(s) == 0.0 {
      assert s[0] == PeakOf(s);
    }
  }
}
