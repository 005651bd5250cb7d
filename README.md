# Aliasing demonstration engine, in Dafny

This project models the computing core of the aliasing demonstration (UAS-SigVer).
It is an egui application. Each frame it takes a signal frequency f and a sampling
frequency fs from two sliders and computes four curves:

- the ideal sine wave;
- its discrete samples;
- the spectrum of the samples: an FFT of 50 · fs samples, grouped into 200 bars
  between 0 and 20 Hz;
- a reconstruction of the signal from that spectrum, rescaled to [-1, 1].

When f is above the Nyquist frequency fs / 2, it also shows a warning and spectrum
markers. They give the frequency at which the signal appears, which is f folded
into [0, fs / 2].

All computations are on `real`. The functions the engine calls but cannot define
are passed in as the `Foreign.Primitives` value:

- sine and cosine;
- the modulus (`norm`) and argument (`arg`) of a complex number;
- the FFT library's forward transform.

Every result is proved for any such functions. The proofs assume only that a
modulus is never negative and that the transform keeps the length of its buffer.

Modules, in the order the frame uses them:

- `RealMath`: the f32 operations the engine relies on, modelled on reals.
  - `PI`, `max` and `min`.
  - `x as usize` / `x as u32`: the floor, clamped at 0.
  - `ceil() as usize`.
  - The float remainder `%`: it truncates toward zero, like Rust's.
- `Foreign`: complex numbers and the foreign primitives.
- `AppState`: the two slider values, the slider ranges, and the starting state.
- `SignalGenerator`: `calculate_signal` and `calculate_sample_points`.
- `FftInput`: `calculate_fft`. It is imperative: push loops build the transform
  input, and the transform runs in place. The transform size is `trunc(50 · fs)`;
  it is not rounded to an even number. The padding constant is 0.
- `Reconstructor`: `calculate_reconstructed_signal`. It is imperative:
  - a loop over display points, with an inner loop summing pure cosine components;
  - then a min–max rescale, applied to the pushed curve in place.
- `SpectrumDisplay`: the numeric part of `render_fft`.
  - The frequency resolution.
  - The number of display bins.
  - The magnitudes and their peak.
  - The per-bucket peak loop.
  - The bar heights.
- `Aliasing`: the aliasing test, which is the strict `f > fs / 2`, and the fold
  of f into [0, fs / 2].
  The fold appears twice in the source, identically; here it is written once.
  This module also holds the warning text values and the spectrum markers.
- `Frame`: `update` as one pass over the pipeline. Each output is stated as the
  result of its component: the ideal curve, the samples, the transform of the
  samples, the bars of its spectrum, the reconstruction from it, and the warning.
  Inside the slider ranges, with at least one pixel, no step panics. The rescale
  divides by zero exactly when the synthesis is flat, and that is always the case
  for one pixel. The model reports that case as `FlatCurve`.

## Model

| member | source | states |
|---|---|---|
| `AppState.Default` | src/app.rs:13-21 | A new application starts with a 3 Hz signal sampled at 10 Hz. That is inside both slider ranges and below the Nyquist frequency. |
| `AppState.App.InSliderRange` | src/app.rs:340-345 | The slider ranges: signal frequency in 0.1 ..= 10 Hz and sampling frequency in 0.1 ..= 20 Hz. `FftInput.SizeInSliderRange`, `Aliasing.MarkersInSliderRange` and `Frame.Update` rely on it. |
| `RealMath.FMod` | src/app.rs:646 | Rust's float `%`. For a >= 0 and b > 0 the remainder lies in [0, b). In every case a minus the remainder is trunc(a / b) whole multiples of b. |
| `RealMath.Trunc` | src/app.rs:646 | Rounding toward zero, the quotient of Rust's float `%`: for x >= 0 it lies in (x - 1, x], and for x < 0 in [x, x + 1). |
| `RealMath.Usize` | src/app.rs:178 | `x as usize` / `x as u32` on a float: 0 below 1, and for x >= 0 the integer part of x. |
| `RealMath.CeilUsize` | src/app.rs:531 | `x.ceil() as usize`: 0 for x <= 0, and otherwise the least integer not below x. |
| `SignalGenerator.DisplayX` | src/app.rs:307 | The x of display point i of n: i / n · 2π. `SignalGenerator.SignalAxis` proves these increase within [0, 2π). |
| `SignalGenerator.CalculateSignal` | src/app.rs:303-313 | Exactly n points. Point i sits at x = i / n · 2π and carries y = sin(f · x). |
| `SignalGenerator.SignalAxis` | src/app.rs:303-313 | The x-coordinates of the ideal curve strictly increase and lie in [0, 2π). 2π itself is never reached. |
| `SignalGenerator.CalculateSamplePoints` | src/app.rs:317-330 | floor(fs) + 1 samples. Sample i sits at x = i · (2π / fs) and carries y = sin(f · x). |
| `SignalGenerator.SampleAxis` | src/app.rs:317-330 | For fs > 0 the sample x-coordinates strictly increase, start at 0 and stay within [0, 2π], because i <= floor(fs) <= fs. |
| `SignalGenerator.SampleCount` | src/app.rs:318 | `sampling_frequency as u32 + 1`. `SignalGenerator.CalculateSamplePoints` states it is floor(fs) + 1. |
| `SignalGenerator.SampleX` | src/app.rs:324 | The x of sample i: i · (2π / fs). `SignalGenerator.SampleAxis` proves these increase from 0 within [0, 2π]. |
| `FftInput.FftSignalSize` | src/app.rs:178 | `(50 · fs) as usize`: for fs >= 0 the integer part of 50 · fs, and 0 when fs < 0.02. |
| `FftInput.TimeSample` | src/app.rs:191-194 | Value i of the transform input: sin(f · 2π · t) at t = i / fs. `FftInput.CalculateFft` proves its loop pushes exactly these. |
| `FftInput.SignalSamples` | src/app.rs:190-195 | trunc(50 · fs) values. Value i is sin(f · 2π · i / fs), the signal at physical time i / fs seconds. |
| `FftInput.ToComplex` | src/app.rs:204-205 | Each real y becomes the complex number y + 0i, keeping order and length. |
| `FftInput.CalculateFft` | src/app.rs:177-229 | Its push loops build exactly fft_size = trunc(50 · fs) values, so the length assertion of the source always holds. The zero padding adds nothing. The output has fft_size bins and is the transform of the complex signal samples. |
| `FftInput.InputMatchesSamplePoints` | src/app.rs:190-195 | On every index shared with the discrete samples, the transform input holds the same value as the sample point: physical time i / fs maps onto display position i · 2π / fs. |
| `FftInput.SizeInSliderRange` | src/app.rs:178 | Inside the slider ranges the transform has between 5 and 1000 bins. There are never fewer bins than discrete samples. |
| `Reconstructor.DisplayComponents` | src/app.rs:251-252 | The number of synthesised components never exceeds half the spectrum length, so no bin index is out of bounds. |
| `Reconstructor.ComponentsBelowNyquist` | src/app.rs:251-252 | Bin k takes part exactly when k < len / 2 and its frequency k · Δf is strictly below fs / 2. Both directions are proved. |
| `Reconstructor.Component` | src/app.rs:256-270 | The contribution of bin k at x: norm(X[k]) · cos(k · Δf · x + arg(X[k])). |
| `Reconstructor.ReconSum` | src/app.rs:256-270 | The sum of the contributions of bins 1 to m - 1, with bin 0 never included. `Reconstructor.SynthesisePoint` proves the loop computes it, and `Reconstructor.DcBinIgnored` that X[0] never matters. |
| `Reconstructor.SynthesisePoint` | src/app.rs:247-272 | The inner loop's accumulated value is the sum, over bins 1 to display_components - 1, of norm(X[k]) · cos(k · Δf · x + arg(X[k])). Bin 0 is skipped. |
| `Reconstructor.DcBinIgnored` | src/app.rs:259-262 | The synthesis does not depend on the DC bin: any value of X[0] gives the same sum. |
| `Reconstructor.RawReconstruction` | src/app.rs:240-276 | The curve before rescaling: n points at x = i / n · 2π, each carrying the component sum at that x. |
| `Reconstructor.MinY` | src/app.rs:279-283 | The minimum amplitude of a non-empty curve, attained by some point. |
| `Reconstructor.MaxY` | src/app.rs:284-288 | The maximum amplitude of a non-empty curve, attained by some point. |
| `Reconstructor.Rescale` | src/app.rs:279-298 | The reference min–max normalisation: length and x kept, each y mapped to 2 · (y - min) / (max - min) - 1. |
| `Reconstructor.ScaleInPlace` | src/app.rs:295-297 | The in-place loop rewrites every y to (y - half_point) · scale in order, keeping every x and the length. |
| `Reconstructor.AffineIsNormalise` | src/app.rs:290-297 | With scale = 2 / (max - min) and half_point = max - (max - min) / 2, the update (y - half_point) · scale equals the min–max normalisation of y. |
| `Reconstructor.AffinePoint` | src/app.rs:295-297 | The same for one point, with its x kept. |
| `Reconstructor.AffineRescales` | src/app.rs:290-297 | After the in-place loop, the whole curve equals the reference normalisation of the curve it started from. |
| `Reconstructor.RescaleCurve` | src/app.rs:279-298 | The rescale step gives FlatCurve exactly when min = max, where the source produces NaN. Otherwise it gives the min–max normalisation of the pushed curve. |
| `Reconstructor.CalculateReconstructedSignal` | src/app.rs:233-299 | The result is the min–max normalisation of the raw synthesis, or FlatCurve exactly when the raw synthesis is constant. |
| `Reconstructor.NormaliseRange` | src/app.rs:290-297 | A value between min and max lands in [-1, 1]. It lands at -1 exactly for the min and at +1 exactly for the max. |
| `Reconstructor.NormaliseMonotone` | src/app.rs:295-297 | Normalisation is strictly increasing, in both directions. |
| `Reconstructor.RescaleFillsUnitRange` | src/app.rs:279-298 | Every rescaled y lies in [-1, 1]. The points at -1 are exactly those that held the minimum, and the points at +1 exactly those that held the maximum. Both ends are reached. |
| `Reconstructor.RescalePreservesOrder` | src/app.rs:279-298 | Rescaling keeps the order of any two amplitudes. |
| `Reconstructor.ReconstructionShape` | src/app.rs:233-299 | A non-flat reconstruction has n points on the display axis with amplitudes in [-1, 1]. |
| `Reconstructor.ReconstructionOf` | src/app.rs:233-299 | The relation between a spectrum and its reconstruction: FlatCurve exactly when the raw synthesis is constant, and its min–max normalisation otherwise. `Frame.Update` states its result through it. |
| `Reconstructor.SinglePointIsFlat` | src/app.rs:279-291 | A one-point curve has min = max, so a one-pixel reconstruction always makes the source divide 2 by 0. |
| `SpectrumDisplay.FreqResolution` | src/app.rs:529 | Δf = fs / fft_size is positive for fs > 0. fft_size bins of width Δf span exactly fs. |
| `SpectrumDisplay.DisplayPoints` | src/app.rs:530-531 | The number of displayed bins never exceeds fft_size / 2. |
| `SpectrumDisplay.DisplayPointsBelowMaxFreq` | src/app.rs:530-531 | Bin k is displayed exactly when k < fft_size / 2 and k · Δf < 20 Hz. Both directions are proved. |
| `SpectrumDisplay.Magnitudes` | src/app.rs:539-542 | One magnitude per displayed bin: norm(X[k]) / fft_size. |
| `SpectrumDisplay.MagnitudesNonNegative` | src/app.rs:539-542 | Every magnitude is at least 0. |
| `SpectrumDisplay.PeakOf` | src/app.rs:545 | The fold of max from 0 is at least 0 and at least every value. It is either 0 or one of the values. |
| `SpectrumDisplay.PeakAttained` | src/app.rs:545 | Over non-empty non-negative magnitudes, the peak is one of them. |
| `SpectrumDisplay.BucketStart` | src/app.rs:595-598 | The first index of bucket b: floor(b · 20 / 200 / Δf), clamped at 0. |
| `SpectrumDisplay.BucketEnd` | src/app.rs:599-601 | The bucket's end index is clamped to the number of displayed bins. |
| `SpectrumDisplay.BucketPeak` | src/app.rs:603-609 | The bucket peak is at least 0, at least every magnitude in [start, end) within bounds, either 0 or one of them, and never above the global peak. |
| `SpectrumDisplay.BucketMax` | src/app.rs:603-609 | The guarded loop folds max over magnitudes[start .. min(end, len)] and yields the bucket peak. Every index it reads is in bounds. |
| `SpectrumDisplay.BarHeight` | src/app.rs:611 | bucket peak / global peak · rect height. `SpectrumDisplay.BarHeightWithinPlot` bounds it. |
| `SpectrumDisplay.BarHeightWithinPlot` | src/app.rs:611 | A bucket peak between 0 and the global peak gives a bar height between 0 and the plot height. |
| `SpectrumDisplay.Bar` | src/app.rs:594-611 | The height of bar b: `SpectrumDisplay.BarHeight` of the bucket peak over [BucketStart(b), BucketEnd(b)). |
| `SpectrumDisplay.BarWithinPlot` | src/app.rs:594-611 | Every bar lies within [0, rect height]. |
| `SpectrumDisplay.BucketBars` | src/app.rs:594-622 | The bucket loop yields 200 heights. Height b is the peak of bucket b's index range divided by the global peak, times the plot height. |
| `SpectrumDisplay.BarsFor` | src/app.rs:529-622 | The bars drawn from a spectrum: none when the peak magnitude of the displayed bins is 0, otherwise 200, bar b being `SpectrumDisplay.Bar` b. `SpectrumDisplay.RenderFft` and `Frame.Update` state their bars through it. |
| `SpectrumDisplay.RenderFft` | src/app.rs:518-697 | Returns Δf = fs / fft_size. Bars are drawn exactly when the peak magnitude is positive. There are then 200 bars, each the bucket-peak formula, each in [0, rect height]. |
| `Aliasing.IsAliased` | src/app.rs:645 | The aliasing test `f > fs / 2`. It is strict, so a signal exactly at fs / 2 is not flagged; the same test appears at src/app.rs:163. |
| `Aliasing.AliasFrequency` | src/app.rs:646-651 | The fold `f % fs`, reflected when above fs / 2. For f >= 0 and fs > 0 it lies in [0, fs / 2]. The warning at src/app.rs:854-859 uses the same definition. |
| `Aliasing.AliasCongruent` | src/app.rs:646-651 | f - r or f + r is a whole multiple k · fs. |
| `Aliasing.AliasNearest` | src/app.rs:646-651 | No multiple of fs is closer to f than r. Together with AliasCongruent, r is the distance from f to the nearest multiple of fs. |
| `Aliasing.AliasedIffMoved` | src/app.rs:645-651 | For f >= 0 and fs > 0, f is flagged exactly when folding changes it. An unflagged f is its own alias. |
| `Aliasing.AliasExamples` | src/app.rs:645-651 | 7 Hz at 10 Hz is flagged and appears at 3 Hz, and so does 13 Hz. 5 Hz at 10 Hz is not flagged (the test is strict) and stays at 5 Hz. |
| `Aliasing.AliasingWarning` | src/app.rs:163-168 | The warning is shown exactly when f > fs / 2. |
| `Aliasing.WarningNamesLowerFrequency` | src/app.rs:853-898 | The warning text names the signal, an alias in [0, Nyquist] and the Nyquist frequency fs / 2, which the signal exceeds. |
| `Aliasing.Marker` | src/app.rs:625-626 | A drawn marker sits at (freq / 20) · width. |
| `Aliasing.MarkerPosition` | src/app.rs:625 | Where a frequency sits on the spectrum plot: (freq / 20) · width, used alike for the signal, alias (src/app.rs:653) and Nyquist (src/app.rs:679) markers. |
| `Aliasing.MarkerShownIff` | src/app.rs:625-626 | On a plot of positive width, a frequency >= 0 gets a marker exactly when it is at most 20 Hz. The marker then lies within the plot. |
| `Aliasing.SpectrumMarkers` | src/app.rs:624-690 | The signal and alias markers appear only together with the bars. The alias marker appears only for an aliased signal. |
| `Aliasing.MarkersInSliderRange` | src/app.rs:624-690 | Inside the slider ranges, with the bars drawn, the signal and Nyquist markers always appear. The alias marker appears exactly when the signal is aliased. All of them lie within the plot. |
| `Frame.SampleSpectrum` | src/app.rs:131 | The spectrum a frame works from: the transform of the complex signal samples, the value `FftInput.CalculateFft` returns. |
| `Frame.Transform` | src/app.rs:131 | The frame's transform is `FftInput.CalculateFft`'s: trunc(50 · fs) bins holding the transform of the complex signal samples; inside the slider ranges there are between 5 and 1000. |
| `Frame.Spectrum` | src/app.rs:131-135 | The transform as in `Frame.Transform`, Δf = fs / fft_size (positive), and bars that satisfy `SpectrumDisplay.BarsFor` for that spectrum, each within the plot. |
| `Frame.Reconstruction` | src/app.rs:143-148 | The reconstruction is FlatCurve exactly when the raw synthesis is flat, always so for one pixel, and otherwise its min–max normalisation, with one point per pixel on the display axis and amplitudes in [-1, 1]. |
| `Frame.Update` | src/app.rs:26-172 | One frame inside the slider ranges, with at least one pixel. The ideal curve is `CalculateSignal` with one point per pixel, the samples are `CalculateSamplePoints`, both on [0, 2π] left to right. The transform has trunc(50 · fs) bins, between 5 and 1000, and Δf = fs / fft_size. The bars are those of the samples' spectrum and lie within the plot. The reconstruction is that of the spectrum, FlatCurve for one pixel. The warning is `AliasingWarning`, present exactly when the signal is aliased. |

## Left out

- Drawing and layout: every painter call, axis labels, ticks, legends, separators, window and slider widgets, and the `pixels_per_point` computation. The pixel count is a parameter of `Frame.Update`.
- IEEE f32 rounding, NaN and infinity. Every quantity is a real number.
  - A flat reconstruction (max = min) is reported as `FlatCurve`; in the source, 2 / 0 followed by 0 · ∞ makes every amplitude NaN.
  - `Pi` is f32 PI written as a real.
- The saturation of `as usize` / `as u32` at the top of their ranges. Negative values do clamp to 0, as in the source.
- The transform itself, sine, cosine, `norm` and `arg`. They are foreign, so they are parameters with only `norm >= 0` and length preservation assumed. The FFT planner and its cache are not part of this model.
- `SpectrumDisplay.RenderFft`: requires fs > 0 and fft_size > 0. With fft_size = 0 (fs < 0.02, outside the slider range) the source divides by zero and runs on infinities. The displayed bins must exist, or the source's slice panics.
- `Reconstructor.CalculateReconstructedSignal`: requires at least one point, since the source's `unwrap` panics on an empty curve. It also requires a non-zero resolution.
- The `fft_size` argument of `calculate_reconstructed_signal`: its body never reads it.
- The commented-out Blackman-Harris window in `calculate_fft`: it is not code.
- The positions of the text labels next to markers; only the marker positions and whether they are drawn are modelled.
- src/main.rs, src/lib.rs, src/lib_wasm.rs, src/wasm_component.rs and src/fonts.rs. They are platform entry points, module declarations, the web-component lifecycle and font loading, and are not part of this model.
