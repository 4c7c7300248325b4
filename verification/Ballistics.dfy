/** The pointer ballistics: each axis is scaled on its own. */
module Ballistics {
  import opened Unipoint

  /** One axis of the ballistics settings. */
  datatype Axle = Axle(precision: real, gain: real, vmax: real, lower: real, upper: real)

  const XAxle := Axle(0.2, 4000.0, 0.5, 0.0, 280.0)
  const YAxle := Axle(0.2, 5000.0, 0.5, 0.0, 280.0)

  /** Where the curve turns. */
  function Inflection(a: Axle): real {
    a.precision * a.vmax
  }

  function ScaleTanh(m: Trig, v: real, a: real): real {
    m.tanh(if a == 0.0 then 1.0 else RAbs(v) / a - 1.0) + 1.0
  }

  function Warp(m: Trig, v: real, precision: real, vmax: real): (w: real)
    requires SoundTanh(m)
    ensures 0.0 < w < 2.0
  {
    if RAbs(v) <= vmax then RAbs(ScaleTanh(m, v, precision)) else 1.0
  }

  function Curve(w: real, top: real, v: real, gain: real): real
    requires top != 0.0
  {
    w / top * v * gain
  }

  /** The curve: the warped share of the greatest velocity, times velocity, times gain. */
  function Transform(m: Trig, a: Axle, v: real): real
    requires SoundTanh(m)
  {
    Curve(Warp(m, v, Inflection(a), a.vmax), Warp(m, a.vmax, Inflection(a), a.vmax), v, a.gain)
  }

  /** Relative motion scaled so that the sensor spans two units. */
  function NormalizeRelative(a: Axle, v: real): real
    requires a.upper != a.lower
  {
    v * (2.0 / (a.upper - a.lower))
  }

  function PointerOut(m: Trig, velocity: Point): Point
    requires SoundTanh(m)
  {
    Point(Transform(m, XAxle, NormalizeRelative(XAxle, velocity.x)),
          Transform(m, YAxle, NormalizeRelative(YAxle, velocity.y)))
  }

  // ---- laws ----

  /** The curve treats both directions alike. */
  lemma TransformIsOdd(m: Trig, a: Axle, v: real)
    requires SoundTanh(m)
    ensures Transform(m, a, -v) == -Transform(m, a, v)
  {
    CurveIsOdd(Warp(m, v, Inflection(a), a.vmax), Warp(m, a.vmax, Inflection(a), a.vmax), v, a.gain);
  }

  lemma CurveIsOdd(w: real, top: real, v: real, gain: real)
    requires top != 0.0
    ensures Curve(w, top, -v, gain) == -Curve(w, top, v, gain)
  {
    assert w / top * -v == -(w / top * v);
  }

  lemma ProductBelow(p: real, v: real)
    requires 0.0 < p <= 1.0 && v > 0.0
    ensures 0.0 < p * v <= v
  {
  }

  lemma RatioAboveOne(v: real, t: real)
    requires 0.0 < t <= v
    ensures v / t >= 1.0
  {
  }

  lemma RatioGrows(u: real, v: real, t: real)
    requires u <= v && t > 0.0
    ensures u / t <= v / t
  {
  }

  lemma ScaleGrows(m: Trig, u: real, v: real, t: real)
    requires SoundTanh(m) && t > 0.0 && RAbs(u) <= RAbs(v)
    ensures ScaleTanh(m, u, t) <= ScaleTanh(m, v, t)
  {
    RatioGrows(RAbs(u), RAbs(v), t);
  }

  lemma ScaleAboveOne(m: Trig, v: real, t: real)
    requires SoundTanh(m) && 0.0 < t <= v
    ensures ScaleTanh(m, v, t) >= 1.0
  {
    RatioAboveOne(v, t);
    assert m.tanh(0.0) <= m.tanh(v / t - 1.0);
  }

  /** The warp is greatest at the greatest velocity. */
  lemma WarpPeaksAtVmax(m: Trig, v: real, t: real, vmax: real)
    requires SoundTanh(m) && 0.0 < t <= vmax
    ensures Warp(m, v, t, vmax) <= Warp(m, vmax, t, vmax)
  {
    ScaleAboveOne(m, vmax, t);
    if RAbs(v) <= vmax {
      ScaleGrows(m, v, vmax, t);
    }
  }

  lemma FractionShrinks(s: real, v: real)
    requires 0.0 <= s <= 1.0 && v >= 0.0
    ensures 0.0 <= s * v <= v
  {
  }

  lemma ScaleShrinks(s: real, v: real)
    requires 0.0 <= s <= 1.0
    ensures RAbs(s * v) <= RAbs(v)
  {
    if v >= 0.0 {
      FractionShrinks(s, v);
    } else {
      FractionShrinks(s, -v);
      assert s * -v == -(s * v);
    }
  }

  lemma GainScales(x: real, gain: real)
    requires gain >= 0.0
    ensures RAbs(x * gain) == gain * RAbs(x)
  {
  }

  lemma GainKeepsOrder(x: real, y: real, gain: real)
    requires gain >= 0.0 && x <= y
    ensures gain * x <= gain * y
  {
  }

  lemma CurveShrinks(p: real, q: real, v: real, gain: real)
    requires 0.0 < p <= q && gain >= 0.0
    ensures RAbs(Curve(p, q, v, gain)) <= gain * RAbs(v)
  {
    var s := p / q;
    assert 0.0 <= s <= 1.0;
    ScaleShrinks(s, v);
    GainScales(s * v, gain);
    GainKeepsOrder(RAbs(s * v), RAbs(v), gain);
  }

  lemma InflectionBelow(a: Axle)
    requires 0.0 < a.precision <= 1.0 && a.vmax > 0.0
    ensures 0.0 < Inflection(a) <= a.vmax
  {
    ProductBelow(a.precision, a.vmax);
  }

  lemma CurveWithinGain(m: Trig, v: real, turn: real, vmax: real, gain: real)
    requires SoundTanh(m) && 0.0 < turn <= vmax && gain >= 0.0
    ensures RAbs(Curve(Warp(m, v, turn, vmax), Warp(m, vmax, turn, vmax), v, gain)) <= gain * RAbs(v)
  {
    WarpPeaksAtVmax(m, v, turn, vmax);
    CurveShrinks(Warp(m, v, turn, vmax), Warp(m, vmax, turn, vmax), v, gain);
  }

  /** The curve never amplifies beyond the gain. */
  lemma TransformWithinGain(m: Trig, a: Axle, v: real)
    requires SoundTanh(m) && 0.0 < a.precision <= 1.0 && a.vmax > 0.0 && a.gain >= 0.0
    ensures RAbs(Transform(m, a, v)) <= a.gain * RAbs(v)
  {
    InflectionBelow(a);
    CurveWithinGain(m, v, Inflection(a), a.vmax, a.gain);
  }

  /** At the cap the gain is reached in full, in both directions. */
  lemma FullGainAtCap(m: Trig, a: Axle)
    requires SoundTanh(m) && a.vmax > 0.0
    ensures Transform(m, a, a.vmax) == a.gain * a.vmax
    ensures Transform(m, a, -a.vmax) == -(a.gain * a.vmax)
  {
    var w := Warp(m, a.vmax, Inflection(a), a.vmax);
    assert w / w == 1.0;
    assert Curve(w, w, a.vmax, a.gain) == a.gain * a.vmax;
    TransformIsOdd(m, a, a.vmax);
  }

  /** The normalised interval spans two units, whatever its bounds. */
  lemma NormalSpan(a: Axle, v: real)
    requires a.upper != a.lower
    ensures NormalizeRelative(a, a.upper) - NormalizeRelative(a, a.lower) == 2.0
    ensures NormalizeRelative(a, -v) == -NormalizeRelative(a, v)
  {
    var d := a.upper - a.lower;
    Quotient(2.0, d);
    assert NormalizeRelative(a, a.upper) - NormalizeRelative(a, a.lower) == d * (2.0 / d);
  }

  lemma Quotient(x: real, d: real)
    requires d != 0.0
    ensures d * (x / d) == x
  {
  }

  /** On the daemon's settings each axis of the pointer follows its own axis of the finger: it turns around
      with it and stays within its gain. */
  lemma PointerFollows(m: Trig, v: Point)
    requires SoundTanh(m)
    ensures PointerOut(m, Point(-v.x, -v.y)) == Point(-PointerOut(m, v).x, -PointerOut(m, v).y)
    ensures RAbs(PointerOut(m, v).x) <= 4000.0 * RAbs(NormalizeRelative(XAxle, v.x))
    ensures RAbs(PointerOut(m, v).y) <= 5000.0 * RAbs(NormalizeRelative(YAxle, v.y))
  {
    NormalSpan(XAxle, v.x);
    NormalSpan(YAxle, v.y);
    AxisFollows(m, XAxle, NormalizeRelative(XAxle, v.x));
    AxisFollows(m, YAxle, NormalizeRelative(YAxle, v.y));
  }

  lemma AxisFollows(m: Trig, a: Axle, v: real)
    requires SoundTanh(m) && 0.0 < a.precision <= 1.0 && a.vmax > 0.0 && a.gain >= 0.0
    ensures Transform(m, a, -v) == -Transform(m, a, v)
    ensures RAbs(Transform(m, a, v)) <= a.gain * RAbs(v)
  {
    TransformIsOdd(m, a, v);
    TransformWithinGain(m, a, v);
  }
}
