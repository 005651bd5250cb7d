/** One frame of the application (`update`): the numbers computed from the two
    slider values, in the order the frame computes them. The ideal curve and the
    reconstruction are drawn with one point per horizontal pixel. */
module Frame {
  import opened RealMath
  import opened Foreign
  import opened AppState
  import opened SignalGenerator
  import FftInput
  import Reconstructor
  import SpectrumDisplay
  import Aliasing

  datatype Plots = Plots(
    signal: seq<Point>,
    samples: seq<Point>,
    fftSize: nat,
    bars: seq<real>,
    freqRes: real,
    recon: Reconstructor.ReconResult,
    warning: Aliasing.Option<Aliasing.Warning>)

  /** The spectrum a frame works from: the transform of the complex signal
      samples. */
  function SampleSpectrum(app: App, p: Primitives): seq<Complex>
  {
    p.fft(FftInput.ToComplex(FftInput.SignalSamples(app.signalFrequency, app.samplingFrequency, p.sin)))
  }

  /** The transform step of a frame: the transform of the signal samples, with
      between 5 and 1000 bins inside the slider ranges. */
  method Transform(app: App, p: Primitives) returns (fftSize: nat, fftOutput: seq<Complex>)
    requires app.InSliderRange() && p.Valid()
    ensures fftSize == FftInput.FftSignalSize(app.samplingFrequency)
    ensures fftOutput == SampleSpectrum(app, p)
    ensures 5 <= fftSize <= 1000 && |fftOutput| == fftSize
  {
    fftSize, fftOutput := FftInput.CalculateFft(app, p);
    FftInput.SizeInSliderRange(app);
  }

  /** The spectrum part of a frame: the transform of the samples, then the bars
      drawn from its magnitudes. */
  method Spectrum(app: App, rectHeight: real, p: Primitives)
    returns (fftSize: nat, fftOutput: seq<Complex>, freqRes: real, bars: seq<real>)
    requires app.InSliderRange() && p.Valid()
    ensures fftSize == FftInput.FftSignalSize(app.samplingFrequency)
    ensures fftOutput == SampleSpectrum(app, p)
    ensures 5 <= fftSize <= 1000 && |fftOutput| == fftSize
    ensures freqRes == SpectrumDisplay.FreqResolution(app.samplingFrequency, fftSize)
    ensures freqRes > 0.0
    ensures SpectrumDisplay.BarsFor(bars, fftOutput, fftSize, freqRes, rectHeight, p.norm)
    ensures rectHeight >= 0.0 ==> forall b :: 0 <= b < |bars| ==> 0.0 <= bars[b] <= rectHeight
  {
    fftSize, fftOutput := Transform(app, p);
    freqRes, bars := SpectrumDisplay.RenderFft(app, fftSize, fftOutput, rectHeight, p);
  }

  /** The reconstruction step of a frame: the min–max normalisation of the
      synthesis over the display, unless the synthesis is flat, which it always is
      for a single pixel. A normalised curve has one point per pixel and
      amplitudes in [-1, 1]. */
  method Reconstruction(app: App, pixels: nat, fftOutput: seq<Complex>, freqRes: real, p: Primitives)
    returns (recon: Reconstructor.ReconResult)
    requires pixels > 0 && freqRes > 0.0
    ensures Reconstructor.ReconstructionOf(recon, app.samplingFrequency, pixels, fftOutput, freqRes, p)
    ensures pixels == 1 ==> recon.FlatCurve?
    ensures recon.Rescaled? ==>
      && |recon.curve| == pixels
      && (forall i :: 0 <= i < pixels ==> recon.curve[i].x == DisplayX(i, pixels))
      && (forall i :: 0 <= i < pixels ==> -1.0 <= recon.curve[i].y <= 1.0)
  {
    recon := Reconstructor.CalculateReconstructedSignal(app, pixels, fftOutput, freqRes, p);
    Reconstructor.ReconstructionShape(app.samplingFrequency, pixels, fftOutput, freqRes, p, recon);
    if pixels == 1 {
      Reconstructor.SinglePointIsFlat(Reconstructor.RawReconstruction(app.samplingFrequency, pixels, fftOutput, freqRes, p));
    }
  }

  /** What `update` computes for a screen `pixels` wide and a spectrum plot
      `rectHeight` high: the ideal curve, the samples, the transform of the
      samples, the bars of its spectrum, the reconstruction from it, and the
      warning. Within the slider ranges and with at least one pixel no step
      panics: the transform has between 5 and 1000 bins, the spectrum reads only
      bins it has, and the reconstruction divides by a positive resolution and
      rescales a non-empty curve. The rescale divides by zero exactly when the
      synthesis is flat (always for one pixel), reported as FlatCurve. */
  method Update(app: App, pixels: nat, rectHeight: real, p: Primitives) returns (plots: Plots)
    requires app.InSliderRange() && p.Valid() && pixels > 0
    ensures plots.signal == CalculateSignal(app.signalFrequency, pixels, p.sin)
    ensures plots.samples == CalculateSamplePoints(app.signalFrequency, app.samplingFrequency, p.sin)
    ensures |plots.signal| == pixels && AxisWithin(plots.signal, 0.0, 2.0 * Pi)
    ensures |plots.samples| == SampleCount(app.samplingFrequency) && AxisWithin(plots.samples, 0.0, 2.0 * Pi)
    ensures plots.fftSize == FftInput.FftSignalSize(app.samplingFrequency) && 5 <= plots.fftSize <= 1000
    ensures plots.freqRes == SpectrumDisplay.FreqResolution(app.samplingFrequency, plots.fftSize)
    ensures plots.freqRes > 0.0
    ensures SpectrumDisplay.BarsFor(plots.bars, SampleSpectrum(app, p), plots.fftSize, plots.freqRes, rectHeight, p.norm)
    ensures rectHeight >= 0.0 ==> forall b :: 0 <= b < |plots.bars| ==> 0.0 <= plots.bars[b] <= rectHeight
    ensures Reconstructor.ReconstructionOf(plots.recon, app.samplingFrequency, pixels, SampleSpectrum(app, p), plots.freqRes, p)
    ensures pixels == 1 ==> plots.recon.FlatCurve?
    ensures plots.recon.Rescaled? ==>
      && |plots.recon.curve| == pixels
      && (forall i :: 0 <= i < pixels ==> plots.recon.curve[i].x == DisplayX(i, pixels))
      && (forall i :: 0 <= i < pixels ==> -1.0 <= plots.recon.curve[i].y <= 1.0)
    ensures plots.warning == Aliasing.AliasingWarning(app)
    ensures plots.warning.Some? <==> Aliasing.IsAliased(app.signalFrequency, app.samplingFrequency)
  {
    var f, fs := app.signalFrequency, app.samplingFrequency;
    var signal := CalculateSignal(f, pixels, p.sin);
    SignalAxis(f, pixels, p.sin);
    var samples := CalculateSamplePoints(f, fs, p.sin);
    SampleAxis(f, fs, p.sin);

    var fftSize, fftOutput, freqRes, bars := Spectrum(app, rectHeight, p);

    var recon := Reconstruction(app, pixels, fftOutput, freqRes, p);

    var warning := Aliasing.AliasingWarning(app);
    plots := Plots(signal, samples, fftSize, bars, freqRes, recon, warning);
  }
}
