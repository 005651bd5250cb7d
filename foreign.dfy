/** The functions the engine calls but does not define: the sine and cosine of
    f32, the modulus and argument of a complex number, and the forward transform of
    the FFT library. They are carried as function values so that every result of the
    model is stated for ANY such functions; `Valid` records the only two facts
    the proofs rely on. */
module Foreign {

  /** rustfft's `Complex<f32>`. */
  datatype Complex = Complex(re: real, im: real)

  datatype Primitives = Primitives(
    sin: real -> real,
    cos: real -> real,
    norm: Complex -> real,
    arg: Complex -> real,
    /** the planned forward FFT, applied in place to a buffer */
    fft: seq<Complex> -> seq<Complex>)
  {
    /** A modulus is never negative, and an in-place transform keeps the length. */
    ghost predicate Valid()
    {
      && (forall c :: norm(c) >= 0.0)
      && (forall s :: |fft(s)| == |s|)
    }
  }
}

/** The application state the engine reads: the two slider values. */
module AppState {

  datatype App = App(signalFrequency: real, samplingFrequency: real)
  {
    /** The ranges the two sliders allow: signal 0.1..=10 Hz, sampling 0.1..=20 Hz. */
    predicate InSliderRange()
    {
      && 0.1 <= signalFrequency <= 10.0
      && 0.1 <= samplingFrequency <= 20.0
    }
  }

  /** The state a new application starts in. */
  function Default(): (app: App)
    ensures app.InSliderRange()
    ensures app.signalFrequency < app.samplingFrequency / 2.0
  {
    App(3.0, 10.0)
  }
}
