/** The transform input builder `calculate_fft`: 50 · fs samples of the signal in
    physical time, turned into complex numbers and transformed in place. */
module FftInput {
  import opened RealMath
  import opened Foreign
  import opened AppState
  import SignalGenerator

  /** Zeros added before and after the signal; the source sets this to 0. */
  const NPadding: nat := 0

  /** `(50.0 * sampling_frequency) as usize`. */
  function FftSignalSize(fs: real): (r: nat)
    ensures fs >= 0.0 ==> r as real <= 50.0 * fs < r as real + 1.0
    ensures fs < 0.02 ==> r == 0
  {
    Usize(50.0 * fs)
  }

  /** Sample i of the transform input: sin(f · 2 · π · t) at t = i / fs seconds. */
  function TimeSample(f: real, fs: real, i: nat, sin: real -> real): real
    requires fs != 0.0
  {
    sin(f * 2.0 * Pi * (i as real / fs))
  }

  /** The loop computes t = i / fs first and then sin(f · 2 · π · t); this step
      lets the solver see that product as TimeSample's. */
  lemma TimeSampleAt(f: real, fs: real, i: nat, t: real, sin: real -> real)
    requires fs != 0.0 && t == i as real / fs
    ensures sin(f * 2.0 * Pi * t) == TimeSample(f, fs, i, sin)
  {
    var computed := f * 2.0 * Pi * t;
    var specified := f * 2.0 * Pi * (i as real / fs);
    assert computed == specified;
  }

  /** The real sequence the source pushes into `fft_input` between the two
      padding runs. */
  function SignalSamples(f: real, fs: real, sin: real -> real): (s: seq<real>)
    ensures |s| == FftSignalSize(fs)
    ensures forall i :: 0 <= i < |s| ==> fs > 0.0 && s[i] == TimeSample(f, fs, i, sin)
  {
    seq(FftSignalSize(fs), (i: nat) requires i < FftSignalSize(fs) => TimeSample(f, fs, i, sin))
  }

  /** Each real y becomes `Complex::new(y, 0.0)`. */
  function ToComplex(s: seq<real>): (c: seq<Complex>)
    ensures |c| == |s|
    ensures forall i :: 0 <= i < |s| ==> c[i] == Complex(s[i], 0.0)
  {
    seq(|s|, i requires 0 <= i < |s| => Complex(s[i], 0.0))
  }

  /** `calculate_fft`: builds the transform input with push loops (zero padding
      of length NPadding on either side of the signal), checks its length against
      fft_size, and transforms a copy of it in place. The returned size is
      trunc(50 · fs), the spectrum has exactly that many bins, and it is the
      transform of the unpadded signal samples. */
  method CalculateFft(app: App, p: Primitives) returns (fftSize: nat, output: seq<Complex>)
    requires p.Valid()
    ensures fftSize == FftSignalSize(app.samplingFrequency)
    ensures |output| == fftSize
    ensures output == p.fft(ToComplex(SignalSamples(app.signalFrequency, app.samplingFrequency, p.sin)))
  {
    var f, fs := app.signalFrequency, app.samplingFrequency;
    var fftSignalSize := FftSignalSize(fs);
    fftSize := fftSignalSize + 2 * NPadding;

    var input: seq<real> := [];
    for k := 0 to NPadding
      invariant input == seq(k, _ => 0.0)
    {
      input := input + [0.0];
    }

    ghost var pre := input;
    for i := 0 to fftSignalSize
      invariant |input| == NPadding + i
      invariant input[..NPadding] == pre
      invariant forall j :: 0 <= j < i ==> fs > 0.0 && input[NPadding + j] == TimeSample(f, fs, j, p.sin)
    {
      var t := i as real / fs;
      var y := p.sin(f * 2.0 * Pi * t);
      TimeSampleAt(f, fs, i, t, p.sin);
      input := input + [y];
    }

    for k := 0 to NPadding
      invariant |input| == NPadding + fftSignalSize + k
      invariant input[..NPadding + fftSignalSize] == pre + SignalSamples(f, fs, p.sin)
    {
      input := input + [0.0];
    }

    var fftInput := ToComplex(input);
    assert |fftInput| == fftSize;
    assert input == SignalSamples(f, fs, p.sin);

    output := fftInput;
    output := p.fft(output);
  }

  /** On the indices the two share, the transform input holds exactly the values of
      the discrete sample points: t = i / fs seconds sits at x = i · 2π / fs on the
      display axis, and sin(f · 2π · t) = sin(f · x). */
  lemma InputMatchesSamplePoints(f: real, fs: real, sin: real -> real, i: nat)
    requires fs > 0.0
    requires i < FftSignalSize(fs) && i < SignalGenerator.SampleCount(fs)
    ensures SignalSamples(f, fs, sin)[i] == SignalGenerator.CalculateSamplePoints(f, fs, sin)[i].y
  {
    var inTime := f * 2.0 * Pi * (i as real / fs);
    var onAxis := f * SignalGenerator.SampleX(i, fs);
    assert inTime == onAxis by {
      assert i as real / fs == i as real * (1.0 / fs);
      assert 2.0 * Pi / fs == 2.0 * Pi * (1.0 / fs);
    }
  }

  /** Inside the slider range the transform always has at least 5 and at most
      1000 bins, and it covers every discrete sample point. */
  lemma SizeInSliderRange(app: App)
    requires app.InSliderRange()
    ensures 5 <= FftSignalSize(app.samplingFrequency) <= 1000
    ensures SignalGenerator.SampleCount(app.samplingFrequency) <= FftSignalSize(app.samplingFrequency)
  {
  }
}
