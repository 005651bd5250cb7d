/** The signal generator: the ideal curve drawn at display resolution, and the
    discrete samples taken at the sampling frequency. Both curves share one time
    axis normalised so that one display width is [0, 2π]. */
module SignalGenerator {
  import opened RealMath

  /** One `(x, y)` pair of a curve. */
  datatype Point = Point(x: real, y: real)

  /** The point of the curve y = sin(f · x) above x. */
  function OnCurve(f: real, x: real, sin: real -> real): (p: Point)
    ensures p.x == x && p.y == sin(f * x)
  {
    Point(x, sin(f * x))
  }

  /** The x-coordinate of point i of n evenly spaced display points: i / n · 2 · π. */
  function DisplayX(i: nat, n: nat): real
    requires n > 0
  {
    i as real / n as real * 2.0 * Pi
  }

  /** `calculate_signal`: n points of sin(f · x), x running over the display. */
  function CalculateSignal(f: real, n: nat, sin: real -> real): (s: seq<Point>)
    ensures |s| == n
    ensures forall i :: 0 <= i < n ==> s[i].x == DisplayX(i, n)
    ensures forall i :: 0 <= i < n ==> s[i].y == sin(f * DisplayX(i, n))
  {
    seq(n, (i: nat) requires i < n => OnCurve(f, DisplayX(i, n), sin))
  }

  /** `sampling_frequency as u32 + 1`. */
  function SampleCount(fs: real): nat
  {
    Usize(fs) + 1
  }

  /** The x-coordinate of sample i: i · (2π / fs). */
  function SampleX(i: nat, fs: real): real
    requires fs != 0.0
  {
    i as real * (2.0 * Pi / fs)
  }

  /** `calculate_sample_points`: floor(fs) + 1 samples of sin(f · x), one every
      2π / fs along the display axis. */
  function CalculateSamplePoints(f: real, fs: real, sin: real -> real): (s: seq<Point>)
    requires fs > 0.0
    ensures |s| == fs.Floor + 1
    ensures forall i :: 0 <= i < |s| ==> s[i].x == SampleX(i, fs)
    ensures forall i :: 0 <= i < |s| ==> s[i].y == sin(f * SampleX(i, fs))
  {
    seq(SampleCount(fs), (i: nat) requires i < SampleCount(fs) => OnCurve(f, SampleX(i, fs), sin))
  }

  /** The x-coordinates of a curve increase strictly and stay inside [lo, hi]. */
  ghost predicate AxisWithin(s: seq<Point>, lo: real, hi: real)
  {
    && (forall i, j :: 0 <= i < j < |s| ==> s[i].x < s[j].x)
    && (forall i :: 0 <= i < |s| ==> lo <= s[i].x <= hi)
  }

  /** The ideal curve covers [0, 2π) from left to right and never reaches 2π. */
  lemma SignalAxis(f: real, n: nat, sin: real -> real)
    ensures AxisWithin(CalculateSignal(f, n, sin), 0.0, 2.0 * Pi)
    ensures forall i :: 0 <= i < n ==> CalculateSignal(f, n, sin)[i].x < 2.0 * Pi
  {
    var s := CalculateSignal(f, n, sin);
    forall i, j | 0 <= i < j < n
      ensures s[i].x < s[j].x
    {
      DivStrict(i as real, j as real, n as real);
      MulStrict(i as real / n as real, j as real / n as real, 2.0 * Pi);
    }
    forall i | 0 <= i < n
      ensures 0.0 <= s[i].x < 2.0 * Pi
    {
      DivStrict(i as real, n as real, n as real);
      MulMonotone(0.0, i as real / n as real, 2.0 * Pi);
      MulStrict(i as real / n as real, 1.0, 2.0 * Pi);
    }
  }

  /** The samples run from 0 to at most 2π (reached exactly when fs is a whole
      number), left to right. */
  lemma SampleAxis(f: real, fs: real, sin: real -> real)
    requires fs > 0.0
    ensures AxisWithin(CalculateSamplePoints(f, fs, sin), 0.0, 2.0 * Pi)
    ensures CalculateSamplePoints(f, fs, sin)[0].x == 0.0
  {
    var s := CalculateSamplePoints(f, fs, sin);
    var step := 2.0 * Pi / fs;
    assert step > 0.0;
    forall i, j | 0 <= i < j < |s|
      ensures s[i].x < s[j].x
    {
      MulStrict(i as real, j as real, step);
    }
    forall i | 0 <= i < |s|
      ensures 0.0 <= s[i].x <= 2.0 * Pi
    {
      assert i as real <= fs;
      MulMonotone(0.0, i as real, step);
      MulMonotone(i as real, fs, step);
      assert fs * step == 2.0 * Pi;
    }
  }
}
