/** The aliasing rule: a signal is aliased when its frequency is strictly above the
    Nyquist frequency fs / 2, and it then shows up at the frequency obtained by
    folding f into [0, fs / 2]. The rule drives the warning below the plots and
    the markers drawn on the spectrum. */
module Aliasing {
  import opened RealMath
  import opened AppState
  import SpectrumDisplay

  datatype Option<T> = None | Some(value: T)

  /** `signal_frequency > sampling_frequency / 2.0`: strict, so a signal exactly at
      the Nyquist frequency is not flagged. */
  predicate IsAliased(f: real, fs: real)
  {
    f > fs / 2.0
  }

  /** `f % fs`, then reflected about fs / 2 when it lands above it. For f >= 0 and
      fs > 0 the result lies in [0, fs / 2]. */
  function AliasFrequency(f: real, fs: real): (r: real)
    requires fs != 0.0
    ensures f >= 0.0 && fs > 0.0 ==> 0.0 <= r <= fs / 2.0
  {
    var aliasFreq := FMod(f, fs);
    if aliasFreq > fs / 2.0 then fs - aliasFreq else aliasFreq
  }

  function Abs(x: real): (r: real)
    ensures r >= 0.0 && (r == x || r == -x)
  {
    if x >= 0.0 then x else -x
  }

  /** The fold is faithful to the sampling: f lies at distance r from a whole
      multiple k · fs, on one side or the other. */
  lemma AliasCongruent(f: real, fs: real) returns (k: int)
    requires fs != 0.0
    ensures f - AliasFrequency(f, fs) == k as real * fs || f + AliasFrequency(f, fs) == k as real * fs
  {
    var q := Trunc(f / fs);
    var a := FMod(f, fs);
    assert f - a == q as real * fs;
    if a > fs / 2.0 {
      k := q + 1;
      assert (q + 1) as real * fs == q as real * fs + fs;
    } else {
      k := q;
    }
  }

  /** No multiple of fs is closer to f than the folded frequency: r is the distance
      from f to the nearest multiple of fs (attained, by AliasCongruent). */
  lemma AliasNearest(f: real, fs: real, m: int)
    requires f >= 0.0 && fs > 0.0
    ensures AliasFrequency(f, fs) <= Abs(f - m as real * fs)
  {
    var q := Trunc(f / fs);
    var a := FMod(f, fs);
    var shift := (q - m) as real * fs;
    ShiftBound(q - m, fs, shift);
    ShiftSplit(f, a, fs, q, m, shift);
    AbsAboveFold(a, fs, AliasFrequency(f, fs), shift);
  }

  /** A whole multiple of fs is either at least 0 or at most -fs. */
  lemma ShiftBound(k: int, fs: real, shift: real)
    requires fs > 0.0 && shift == k as real * fs
    ensures shift >= 0.0 || shift <= -fs
  {
    if k < 0 {
      MulMonotone(k as real, -1.0, fs);
      assert -1.0 * fs == -fs;
    } else {
      MulMonotone(0.0, k as real, fs);
    }
  }

  /** f = a + q · fs, seen from the multiple m · fs. */
  lemma ShiftSplit(f: real, a: real, fs: real, q: int, m: int, shift: real)
    requires f - a == q as real * fs && shift == (q - m) as real * fs
    ensures f - m as real * fs == a + shift
  {
    assert (q - m) as real * fs == q as real * fs - m as real * fs;
  }

  /** The arithmetic core of AliasNearest: a remainder a in [0, fs), shifted by
      a multiple of fs, stays at least min(a, fs - a) away from 0. */
  lemma AbsAboveFold(a: real, fs: real, r: real, shift: real)
    requires 0.0 <= a < fs && r <= a && r <= fs - a
    requires shift >= 0.0 || shift <= -fs
    ensures r <= Abs(a + shift)
  {
  }

  /** The flag and the fold agree: a signal is flagged exactly when folding moves
      it, and below the Nyquist frequency it is its own alias. */
  lemma AliasedIffMoved(f: real, fs: real)
    requires f >= 0.0 && fs > 0.0
    ensures IsAliased(f, fs) <==> AliasFrequency(f, fs) != f
    ensures !IsAliased(f, fs) ==> AliasFrequency(f, fs) == f
  {
    if !IsAliased(f, fs) {
      var ratio := f / fs;
      assert ratio * fs == f;
      assert ratio < 1.0 by {
        if ratio >= 1.0 {
          MulMonotone(1.0, ratio, fs);
        }
      }
      assert Trunc(ratio) == 0;
      assert FMod(f, fs) == f;
    }
  }

  /** 7 Hz sampled at 10 Hz shows up at 3 Hz; 13 Hz does too; 5 Hz, exactly at the
      Nyquist frequency, is not flagged and stays at 5 Hz. */
  lemma AliasExamples()
    ensures IsAliased(7.0, 10.0) && AliasFrequency(7.0, 10.0) == 3.0
    ensures IsAliased(13.0, 10.0) && AliasFrequency(13.0, 10.0) == 3.0
    ensures !IsAliased(5.0, 10.0) && AliasFrequency(5.0, 10.0) == 5.0
  {
    assert Trunc(7.0 / 10.0) == 0;
    assert Trunc(13.0 / 10.0) == 1;
    assert Trunc(5.0 / 10.0) == 0;
  }

  /** What `render_aliasing_warning` writes: the signal frequency, the frequency it
      appears as, and the Nyquist frequency. */
  datatype Warning = Warning(signal: real, alias: real, nyquist: real)

  /** The warning area of `update` and its text: present exactly when the signal
      is aliased. */
  function AliasingWarning(app: App): (w: Option<Warning>)
    requires app.samplingFrequency != 0.0
    ensures w.Some? <==> IsAliased(app.signalFrequency, app.samplingFrequency)
  {
    if app.signalFrequency > app.samplingFrequency / 2.0 then
      Some(Warning(app.signalFrequency, AliasFrequency(app.signalFrequency, app.samplingFrequency),
                   app.samplingFrequency / 2.0))
    else
      None
  }

  /** A warning always names a lower frequency than the signal's: the alias is at
      most the Nyquist frequency, which the signal exceeds. */
  lemma WarningNamesLowerFrequency(app: App)
    requires app.signalFrequency >= 0.0 && app.samplingFrequency > 0.0
    requires AliasingWarning(app).Some?
    ensures var w := AliasingWarning(app).value;
      && w.signal == app.signalFrequency
      && 0.0 <= w.alias <= w.nyquist < w.signal
      && w.nyquist == app.samplingFrequency / 2.0
  {
  }

  /** `(freq / max_display_freq) * rect.width()`: where a frequency sits along the
      spectrum plot. */
  function MarkerPosition(freq: real, width: real): real
  {
    freq / SpectrumDisplay.MaxDisplayFreq * width
  }

  /** A marker is drawn when its position is not past the right edge. */
  function Marker(freq: real, width: real): (m: Option<real>)
    ensures m.Some? ==> m.value == MarkerPosition(freq, width)
  {
    var pos := MarkerPosition(freq, width);
    if pos <= width then Some(pos) else None
  }

  /** The three vertical markers of the spectrum plot: the signal frequency and the
      alias frequency, drawn only together with the bars, and the Nyquist
      frequency, when it lies within the 20 Hz of the display. */
  datatype Markers = Markers(signal: Option<real>, alias: Option<real>, nyquist: Option<real>)

  function SpectrumMarkers(app: App, barsDrawn: bool, width: real): (m: Markers)
    requires app.samplingFrequency != 0.0
    ensures !barsDrawn ==> m.signal.None? && m.alias.None?
    ensures m.alias.Some? ==> IsAliased(app.signalFrequency, app.samplingFrequency)
  {
    var f, fs := app.signalFrequency, app.samplingFrequency;
    var signal := if barsDrawn then Marker(f, width) else None;
    var alias := if barsDrawn && f > fs / 2.0 then Marker(AliasFrequency(f, fs), width) else None;
    var nyquist := if fs / 2.0 <= SpectrumDisplay.MaxDisplayFreq then Some(MarkerPosition(fs / 2.0, width)) else None;
    Markers(signal, alias, nyquist)
  }

  /** On a plot of positive width, a frequency gets a marker exactly when it is at
      most 20 Hz, and the marker then lies across the plot. */
  lemma MarkerShownIff(freq: real, width: real)
    requires width > 0.0 && freq >= 0.0
    ensures Marker(freq, width).Some? <==> freq <= SpectrumDisplay.MaxDisplayFreq
    ensures Marker(freq, width).Some? ==> 0.0 <= Marker(freq, width).value <= width
  {
    var t := freq / SpectrumDisplay.MaxDisplayFreq;
    assert MarkerPosition(freq, width) == t * width;
    if t <= 1.0 {
      MulMonotone(t, 1.0, width);
      MulMonotone(0.0, t, width);
    } else {
      MulStrict(1.0, t, width);
    }
  }

  /** Within the slider ranges every marker that can appear does: the signal and
      Nyquist markers always (both frequencies are at most 10 Hz), the alias marker
      exactly when the signal is aliased; each lies across a plot of positive
      width. */
  lemma MarkersInSliderRange(app: App, width: real)
    requires app.InSliderRange() && width > 0.0
    ensures var m := SpectrumMarkers(app, true, width);
      && m.signal.Some? && m.nyquist.Some?
      && (m.alias.Some? <==> IsAliased(app.signalFrequency, app.samplingFrequency))
      && 0.0 <= m.signal.value <= width
      && 0.0 <= m.nyquist.value <= width
      && (m.alias.Some? ==> 0.0 <= m.alias.value <= width)
  {
    var f, fs := app.signalFrequency, app.samplingFrequency;
    MarkerShownIff(f, width);
    MarkerShownIff(fs / 2.0, width);
    MarkerShownIff(AliasFrequency(f, fs), width);
  }
}
