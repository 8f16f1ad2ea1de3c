/**
 * The floating-point library the simulator and the analyser call (numpy's pi, cos, sin,
 * arctan2, arccos, fft, abs and angle), abstracted as uninterpreted real functions.
 * Nothing is assumed of them beyond the laws collected in `Numerics.Lawful`, and
 * `LawfulNumericsExist` shows those laws are consistent.
 */
module Numerics {

  /** Speed of light in vacuum (m/s), the propagation speed both components use. */
  const SpeedOfLight: real := 299792458.0

  /** A complex sample: in-phase and quadrature components. */
  datatype Complex = Complex(re: real, im: real)

  /** k whole turns of the circle, 2*pi*k. */
  function Turns(k: int, pi: real): real {
    2.0 * pi * (k as real)
  }

  /** w lies in [-pi, pi] and differs from x by a whole number of turns. */
  ghost predicate IsWrapOf(w: real, x: real, pi: real) {
    -pi <= w <= pi && exists k: int :: w - x == Turns(k, pi)
  }

  datatype Numerics = Numerics(
    pi: real,
    cos: real -> real,
    sin: real -> real,
    atan2: (real, real) -> real,
    arccos: real -> real,
    fft: seq<Complex> -> seq<Complex>,
    abs: Complex -> real,
    angle: Complex -> real)
  {
    /** arctan2(sin x, cos x): x brought back into [-pi, pi]. */
    function Wrap(x: real): real {
      atan2(sin(x), cos(x))
    }

    /** numpy's degrees: radians to degrees. */
    function Degrees(r: real): real
      requires pi != 0.0
    {
      r * 180.0 / pi
    }

    /** numpy's radians: degrees to radians. */
    function Radians(d: real): real {
      d * pi / 180.0
    }

    /** The laws assumed of the floating-point library. */
    ghost predicate Lawful() {
      && pi > 0.0
      && (forall x :: -1.0 <= cos(x) <= 1.0)
      && (forall x :: -1.0 <= x <= 1.0 ==> 0.0 <= arccos(x) <= pi)
      && (forall x, y :: -1.0 <= x <= y <= 1.0 ==> arccos(y) <= arccos(x))
      && (forall x :: -1.0 <= x <= 1.0 ==> arccos(-x) == pi - arccos(x))
      && (forall x :: IsWrapOf(Wrap(x), x, pi))
      && Wrap(0.0) == 0.0
      && (forall s :: |fft(s)| == |s|)
    }
  }

  /** The laws are consistent: a library with a sawtooth in place of the trigonometry meets them. */
  lemma LawfulNumericsExist()
    ensures exists n: Numerics :: n.Lawful()
  {
    var saw := (x: real) => x - 6.0 * (((x + 3.0) / 6.0).Floor as real);
    var n := Numerics(
      3.0,
      (x: real) => saw(x) / 3.0,
      (x: real) => 0.0,
      (y: real, c: real) => 3.0 * c,
      (x: real) => 1.5 * (1.0 - x),
      (s: seq<Complex>) => s,
      (z: Complex) => 0.0,
      (z: Complex) => 0.0);
    forall x: real ensures IsWrapOf(n.Wrap(x), x, n.pi) {
      var k := -(((x + 3.0) / 6.0).Floor);
      assert n.Wrap(x) - x == Turns(k, n.pi);
    }
    assert n.Wrap(0.0) == 0.0 by {
      assert ((0.0 + 3.0) / 6.0).Floor == 0;
    }
    assert n.Lawful();
  }

  /** arccos(0) is a right angle: the symmetry law at 0. */
  lemma ArccosZero(n: Numerics)
    requires n.Lawful()
    ensures n.arccos(0.0) == n.pi / 2.0
  {
    assert n.arccos(-0.0) == n.pi - n.arccos(0.0);
  }

  /** A right angle is 90 degrees. */
  lemma DegreesOfRightAngle(n: Numerics)
    requires n.pi > 0.0
    ensures n.Degrees(n.pi / 2.0) == 90.0
  {
    assert (n.pi / 2.0) * 180.0 == 90.0 * n.pi;
    assert 90.0 * n.pi / n.pi == 90.0;
  }

  /** Degrees of the supplement: deg(pi - r) == 180 - deg(r). */
  lemma DegreesOfSupplement(n: Numerics, r: real)
    requires n.pi > 0.0
    ensures n.Degrees(n.pi - r) == 180.0 - n.Degrees(r)
  {
    assert (n.pi - r) * 180.0 == n.pi * 180.0 - r * 180.0;
    assert n.pi * 180.0 / n.pi == 180.0;
    assert (n.pi * 180.0 - r * 180.0) / n.pi == n.pi * 180.0 / n.pi - r * 180.0 / n.pi;
  }

  /** The conversion to degrees is monotone. */
  lemma DegreesMonotone(n: Numerics, r: real, s: real)
    requires n.pi > 0.0 && r <= s
    ensures n.Degrees(r) <= n.Degrees(s)
  {
    assert s * 180.0 - r * 180.0 >= 0.0;
  }
}
