/**
 * The phase-based direction-of-arrival estimator (class AnalisadorDoA of
 * simulador_sinais/Analyser.py). Its only state is the configuration set when it is
 * built, so here it is a value, and every estimate is a function of that value and the
 * two sample vectors: estimating cannot change the configuration.
 */
module Analyser {
  import opened Outcomes
  import opened Numerics

  /** A complex sample vector. */
  type Signal = seq<Complex>

  /** Sample rate (S/s), carrier frequency (Hz), antenna spacing (m) and wavelength c/f (m). */
  datatype DoAAnalyser = DoAAnalyser(sampleRate: real, frequency: real, spacing: real, wavelength: real)

  /** The exceptions an estimate can raise. */
  datatype EstimateError =
    | EmptySignal  // numpy's fft of an empty vector raises ValueError
    | ZeroSpacing  // lambda / d with d == 0 raises ZeroDivisionError

  /** An estimate: NaN when the vectors differ in length, otherwise an angle in degrees. */
  datatype Estimate = NotANumber | Angle(degrees: real)

  /** `AnalisadorDoA(...)`: the wavelength is fixed from the frequency once, here. */
  function NewAnalyser(sampleRate: real, frequency: real, spacing: real): (a: DoAAnalyser)
    requires frequency != 0.0
    ensures a.sampleRate == sampleRate && a.frequency == frequency && a.spacing == spacing
    ensures a.wavelength * frequency == SpeedOfLight
    ensures a.wavelength > 0.0 <==> frequency > 0.0
  {
    DoAAnalyser(sampleRate, frequency, spacing, SpeedOfLight / frequency)
  }

  // ---------------------------------------------------------------------------
  // Phase difference at the carrier bin (`_estimar_fase_fft_precisa`)
  // ---------------------------------------------------------------------------

  /** np.argmax: the first index holding the largest value. */
  function ArgMax(m: seq<real>): (k: nat)
    requires |m| > 0
    ensures k < |m|
    ensures forall j :: 0 <= j < |m| ==> m[j] <= m[k]
    ensures forall j :: 0 <= j < k ==> m[j] < m[k]
  {
    if |m| == 1 then 0
    else
      var k := ArgMax(m[..|m| - 1]);
      if m[k] < m[|m| - 1] then |m| - 1 else k
  }

  /** np.abs of every bin of a spectrum. */
  function Magnitudes(n: Numerics, spectrum: seq<Complex>): (m: seq<real>)
    ensures |m| == |spectrum|
    ensures forall i :: 0 <= i < |m| ==> m[i] == n.abs(spectrum[i])
  {
    seq(|spectrum|, i requires 0 <= i < |spectrum| => n.abs(spectrum[i]))
  }

  /** The carrier bin: a bin of the reference spectrum of largest magnitude, the first such. */
  function CarrierBin(n: Numerics, ref: Signal): (k: nat)
    requires n.Lawful() && |ref| > 0
    ensures k < |ref|
    ensures forall j :: 0 <= j < |ref| ==> n.abs(n.fft(ref)[j]) <= n.abs(n.fft(ref)[k])
    ensures forall j :: 0 <= j < k ==> n.abs(n.fft(ref)[j]) < n.abs(n.fft(ref)[k])
  {
    ArgMax(Magnitudes(n, n.fft(ref)))
  }

  /** angle(fft(delayed)[k]) - angle(fft(ref)[k]) at the carrier bin k, before wrapping. */
  function RawPhaseDifference(n: Numerics, ref: Signal, delayed: Signal): real
    requires n.Lawful() && |ref| > 0 && |delayed| == |ref|
  {
    var k := CarrierBin(n, ref);
    n.angle(n.fft(delayed)[k]) - n.angle(n.fft(ref)[k])
  }

  /**
   * The phase of the delayed signal relative to the reference at the carrier bin,
   * wrapped into [-pi, pi] by arctan2(sin, cos); an empty vector raises.
   */
  function EstimatePhase(n: Numerics, ref: Signal, delayed: Signal): (r: Result<real, EstimateError>)
    requires n.Lawful() && |delayed| == |ref|
    ensures r.Err? <==> |ref| == 0
    ensures r.Err? ==> r.error == EmptySignal
    ensures r.Ok? ==> IsWrapOf(r.value, RawPhaseDifference(n, ref, delayed), n.pi)
  {
    if |ref| == 0 then Err(EmptySignal)
    else Ok(n.Wrap(RawPhaseDifference(n, ref, delayed)))
  }

  // ---------------------------------------------------------------------------
  // Phase to angle (`calcular_doa`)
  // ---------------------------------------------------------------------------

  /** np.clip(x, -1, 1). */
  function Clamp(x: real): (r: real)
    ensures -1.0 <= r <= 1.0
    ensures -1.0 <= x <= 1.0 ==> r == x
  {
    if x < -1.0 then -1.0 else if x > 1.0 then 1.0 else x
  }

  function Dist(x: real, y: real): real {
    if x <= y then y - x else x - y
  }

  /** The clamp gives the point of [-1, 1] nearest to x. */
  lemma ClampIsNearest(x: real, y: real)
    requires -1.0 <= y <= 1.0
    ensures Dist(Clamp(x), x) <= Dist(y, x)
  {
  }

  /** (Δφ·λ/d) / (2π): the cosine of the angle of arrival, before clamping. */
  function RawCosine(a: DoAAnalyser, n: Numerics, dphi: real): real
    requires a.spacing != 0.0 && n.pi > 0.0
  {
    (dphi * (a.wavelength / a.spacing)) / (2.0 * n.pi)
  }

  /** The clamped cosine. */
  function CosTheta(a: DoAAnalyser, n: Numerics, dphi: real): real
    requires a.spacing != 0.0 && n.pi > 0.0
  {
    Clamp(RawCosine(a, n, dphi))
  }

  /** degrees(arccos(cos θ)), replaced by 180 minus itself when Δφ < 0. */
  function AngleFromPhase(a: DoAAnalyser, n: Numerics, dphi: real): real
    requires a.spacing != 0.0 && n.pi > 0.0
  {
    var degrees := n.Degrees(n.arccos(CosTheta(a, n, dphi)));
    if dphi < 0.0 then 180.0 - degrees else degrees
  }

  /**
   * `calcular_doa`: NaN for vectors of different lengths; otherwise the angle from the
   * wrapped carrier phase, which with positive wavelength and spacing lies in [0°, 90°].
   */
  function EstimateDoA(a: DoAAnalyser, n: Numerics, ref: Signal, delayed: Signal): (r: Result<Estimate, EstimateError>)
    requires n.Lawful()
    ensures r == Ok(NotANumber) <==> |ref| != |delayed|
    ensures r.Err? <==> |ref| == |delayed| && (|ref| == 0 || a.spacing == 0.0)
    ensures r.Err? ==> r.error == (if |ref| == 0 then EmptySignal else ZeroSpacing)
    ensures r.Ok? && r.value.Angle? && a.wavelength > 0.0 && a.spacing > 0.0 ==> 0.0 <= r.value.degrees <= 90.0
  {
    if |ref| != |delayed| then Ok(NotANumber)
    else
      match EstimatePhase(n, ref, delayed)
      case Err(e) => Err(e)
      case Ok(dphi) =>
        if a.spacing == 0.0 then Err(ZeroSpacing)
        else if a.wavelength > 0.0 && a.spacing > 0.0 then
          FoldLandsInFirstQuadrant(a, n, dphi);
          Ok(Angle(AngleFromPhase(a, n, dphi)))
        else
          Ok(Angle(AngleFromPhase(a, n, dphi)))
  }

  // ---------------------------------------------------------------------------
  // What the fold does
  // ---------------------------------------------------------------------------

  /** The raw cosine has the sign of the phase difference. */
  lemma RawCosineSign(a: DoAAnalyser, n: Numerics, dphi: real)
    requires a.wavelength > 0.0 && a.spacing > 0.0 && n.pi > 0.0
    ensures dphi < 0.0 ==> RawCosine(a, n, dphi) < 0.0
    ensures dphi >= 0.0 ==> RawCosine(a, n, dphi) >= 0.0
  {
    var ratio := a.wavelength / a.spacing;
    assert ratio > 0.0;
    if dphi < 0.0 {
      assert dphi * ratio < 0.0;
    } else {
      assert dphi * ratio >= 0.0;
    }
  }

  /** The raw cosine grows with the phase difference. */
  lemma RawCosineMonotone(a: DoAAnalyser, n: Numerics, p: real, q: real)
    requires a.wavelength > 0.0 && a.spacing > 0.0 && n.pi > 0.0 && p <= q
    ensures RawCosine(a, n, p) <= RawCosine(a, n, q)
  {
    var ratio := a.wavelength / a.spacing;
    assert ratio > 0.0;
    assert q * ratio - p * ratio == (q - p) * ratio;
    assert p * ratio <= q * ratio;
  }

  /**
   * With positive wavelength and spacing the fold lands every estimate in [0°, 90°]:
   * a negative phase gives arccos >= 90°, which the fold maps back below 90°.
   */
  lemma FoldLandsInFirstQuadrant(a: DoAAnalyser, n: Numerics, dphi: real)
    requires n.Lawful() && a.wavelength > 0.0 && a.spacing > 0.0
    ensures 0.0 <= AngleFromPhase(a, n, dphi) <= 90.0
  {
    var c := CosTheta(a, n, dphi);
    RawCosineSign(a, n, dphi);
    ArccosZero(n);
    DegreesOfRightAngle(n);
    var theta := n.arccos(c);
    assert 0.0 <= theta <= n.pi;
    DegreesMonotone(n, 0.0, theta);
    DegreesMonotone(n, theta, n.pi);
    DegreesOfSupplement(n, 0.0);
    if dphi < 0.0 {
      assert c <= 0.0;
      assert n.arccos(0.0) <= theta;
      DegreesMonotone(n, n.pi / 2.0, theta);
    } else {
      assert c >= 0.0;
      assert theta <= n.arccos(0.0);
      DegreesMonotone(n, theta, n.pi / 2.0);
    }
  }

  /** The estimate depends only on the magnitude of the phase difference. */
  lemma AngleDependsOnMagnitude(a: DoAAnalyser, n: Numerics, dphi: real)
    requires n.Lawful() && a.spacing != 0.0
    ensures AngleFromPhase(a, n, -dphi) == AngleFromPhase(a, n, dphi)
  {
    if dphi != 0.0 {
      var p := if dphi > 0.0 then dphi else -dphi;
      RawCosineOdd(a, n, p);
      var c := CosTheta(a, n, p);
      assert CosTheta(a, n, -p) == -c;
      assert n.arccos(-c) == n.pi - n.arccos(c);
      DegreesOfSupplement(n, n.arccos(c));
      assert AngleFromPhase(a, n, -p) == AngleFromPhase(a, n, p);
    }
  }

  /** Negating the phase negates the raw cosine. */
  lemma RawCosineOdd(a: DoAAnalyser, n: Numerics, p: real)
    requires a.spacing != 0.0 && n.pi > 0.0
    ensures RawCosine(a, n, -p) == -RawCosine(a, n, p)
  {
    var ratio := a.wavelength / a.spacing;
    assert (-p) * ratio == -(p * ratio);
    NegatedQuotient(p * ratio, 2.0 * n.pi);
  }

  lemma NegatedQuotient(x: real, y: real)
    requires y > 0.0
    ensures (-x) / y == -(x / y)
  {
    var u := x / y;
    var v := (-x) / y;
    assert u * y == x;
    assert v * y == -x;
    assert (v + u) * y == 0.0;
  }

  /** A larger phase magnitude never gives a larger angle. */
  lemma AngleNonIncreasing(a: DoAAnalyser, n: Numerics, p: real, q: real)
    requires n.Lawful() && a.wavelength > 0.0 && a.spacing > 0.0
    requires Dist(0.0, p) <= Dist(0.0, q)
    ensures AngleFromPhase(a, n, q) <= AngleFromPhase(a, n, p)
  {
    var p' := Dist(0.0, p);
    var q' := Dist(0.0, q);
    AngleDependsOnMagnitude(a, n, p);
    AngleDependsOnMagnitude(a, n, q);
    assert AngleFromPhase(a, n, p) == AngleFromPhase(a, n, p');
    assert AngleFromPhase(a, n, q) == AngleFromPhase(a, n, q');
    RawCosineMonotone(a, n, p', q');
    var cp := CosTheta(a, n, p');
    var cq := CosTheta(a, n, q');
    assert cp <= cq;
    assert n.arccos(cq) <= n.arccos(cp);
    DegreesMonotone(n, n.arccos(cq), n.arccos(cp));
  }

  /** Comparing a vector with itself measures no phase, a cosine of 0 and an angle of 90°. */
  lemma SelfComparisonIsBroadside(a: DoAAnalyser, n: Numerics, s: Signal)
    requires n.Lawful() && |s| > 0 && a.spacing != 0.0
    ensures EstimatePhase(n, s, s) == Ok(0.0)
    ensures CosTheta(a, n, 0.0) == 0.0
    ensures EstimateDoA(a, n, s, s) == Ok(Angle(90.0))
  {
    assert RawPhaseDifference(n, s, s) == 0.0;
    ArccosZero(n);
    DegreesOfRightAngle(n);
  }
}
