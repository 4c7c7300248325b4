/** The motion of the cursor against the motion of the finger, in numbers. */
module PointerMotion {
  import opened Basics
  import opened Unipoint
  import opened DecisionTree
  import opened Recognizer
  import opened Ballistics
  import opened Touch
  import opened GestureLog
  import opened Daemon

  // ---- the reference ----

  /** How much of the gain a velocity u gets; 0.1 is the inflection and 0.5 the cap. */
  function Share(m: Trig, u: real): real {
    if RAbs(u) <= 0.5 then 1.0 + m.tanh(RAbs(u) / 0.1 - 1.0) else 1.0
  }

  /** How far a finger of velocity u moves the cursor. */
  function Cursor(m: Trig, gain: real, u: real): real
    requires SoundTanh(m)
  {
    Share(m, u) / Share(m, 0.5) * u * gain
  }

  /** The velocity of three steps that add up to d: a fifth of their mean, in a span of 280 for two units. */
  function Velocity(d: int): real {
    d as real / 3.0 / 5.0 * (2.0 / 280.0)
  }

  /** The sample reports a finger that has been down for more than 46 frames. */
  predicate Points(s: Contact, c: Sample) {
    c.finger == 1 && |s.frames| >= 46
  }

  /** The three steps before the last frame, on either axis. */
  function StepsX(s: Contact, c: Sample): int
    requires Points(s, c)
  {
    var f := s.frames + [c];
    f[|f| - 2].x - f[|f| - 5].x
  }

  function StepsY(s: Contact, c: Sample): int
    requires Points(s, c)
  {
    var f := s.frames + [c];
    f[|f| - 2].y - f[|f| - 5].y
  }

  // ---- the ballistics are the reference ----

  lemma WarpIsShare(m: Trig, a: Axle, u: real)
    requires SoundTanh(m) && a.precision == 0.2 && a.vmax == 0.5
    ensures Warp(m, u, Inflection(a), a.vmax) == Share(m, u) && 0.0 < Share(m, u) < 2.0
    ensures Share(m, u) <= Share(m, 0.5)
  {
    assert Inflection(a) == 0.1;
    WarpPeaksAtVmax(m, u, 0.1, 0.5);
  }

  lemma CurveIsCursor(m: Trig, a: Axle, u: real)
    requires SoundTanh(m) && a.precision == 0.2 && a.vmax == 0.5
    ensures Transform(m, a, u) == Cursor(m, a.gain, u)
  {
    WarpIsShare(m, a, u);
    WarpIsShare(m, a, 0.5);
  }

  lemma Normalised(a: Axle, d: int)
    requires a.lower == 0.0 && a.upper == 280.0
    ensures NormalizeRelative(a, d as real / 15.0) == Velocity(d)
  {
  }

  /** Every pointer frame moves the cursor by the curve of three steps of the finger, each axis on its own. */
  lemma PointerMoves(k: Kernel, m: Trig, s: State, i: Input)
    requires Interprets(k, m) && SoundTanh(m) && i.Frame? && Points(s.contact, i.c)
    ensures EmittedGesture(k, s.contact, i.c) == Pointer
    ensures Displacement(k, s, i).x == Cursor(m, 4000.0, Velocity(StepsX(s.contact, i.c)))
    ensures Displacement(k, s, i).y == Cursor(m, 5000.0, Velocity(StepsY(s.contact, i.c)))
  {
    var v := DelayedVelocity(s.contact.frames + [i.c]);
    KernelAccelerates(k, m, v);
    var dx, dy := StepsX(s.contact, i.c), StepsY(s.contact, i.c);
    assert v == Point(dx as real / 15.0, dy as real / 15.0);
    Normalised(XAxle, dx);
    Normalised(YAxle, dy);
    CurveIsCursor(m, XAxle, Velocity(dx));
    CurveIsCursor(m, YAxle, Velocity(dy));
  }

  // ---- laws of the reference ----

  lemma SignOfProduct(s: real, u: real)
    requires s > 0.0
    ensures (s * u > 0.0 <==> u > 0.0) && (s * u < 0.0 <==> u < 0.0)
  {
  }

  lemma CurveFollows(w: real, top: real, u: real, gain: real)
    requires gain > 0.0 && 0.0 < w <= top
    ensures Curve(w, top, u, gain) > 0.0 <==> u > 0.0
    ensures Curve(w, top, u, gain) < 0.0 <==> u < 0.0
    ensures RAbs(Curve(w, top, u, gain)) <= gain * RAbs(u)
  {
    CurveShrinks(w, top, u, gain);
    SignOfProduct(w / top, u);
    SignOfProduct(gain, w / top * u);
  }

  lemma CursorIsCurve(m: Trig, gain: real, u: real)
    requires SoundTanh(m)
    ensures Cursor(m, gain, u) == Curve(Share(m, u), Share(m, 0.5), u, gain)
  {
  }

  /** The cursor goes the way of the finger, by at most the gain. */
  lemma CursorFollows(m: Trig, gain: real, u: real)
    requires SoundTanh(m) && gain > 0.0
    ensures Cursor(m, gain, u) > 0.0 <==> u > 0.0
    ensures Cursor(m, gain, u) < 0.0 <==> u < 0.0
    ensures RAbs(Cursor(m, gain, u)) <= gain * RAbs(u)
  {
    WarpIsShare(m, XAxle, u);
    CursorIsCurve(m, gain, u);
    CurveFollows(Share(m, u), Share(m, 0.5), u, gain);
  }

  lemma ProductsGrow(p: real, q: real, w: real, x: real)
    requires 0.0 <= p <= q && 0.0 <= w <= x
    ensures 0.0 <= p * w <= q * x
  {
    assert p * w <= q * w <= q * x;
  }

  lemma CurveGrows(w: real, x: real, top: real, u: real, v: real, gain: real)
    requires gain > 0.0 && 0.0 < w <= x && top > 0.0 && 0.0 <= u <= v
    ensures Curve(w, top, u, gain) <= Curve(x, top, v, gain)
  {
    RatioGrows(w, x, top);
    ProductsGrow(w / top, x / top, u, v);
    ProductsGrow(w / top * u, x / top * v, gain, gain);
  }

  lemma ShareGrows(m: Trig, u: real, v: real)
    requires SoundTanh(m) && 0.0 <= u <= v && (v <= 0.5 || u > 0.5)
    ensures Share(m, u) <= Share(m, v)
  {
    assert u / 0.1 - 1.0 <= v / 0.1 - 1.0;
  }

  /** A faster finger moves the cursor further, as long as both velocities are on the same side of the cap. */
  lemma CursorGrows(m: Trig, gain: real, u: real, v: real)
    requires SoundTanh(m) && gain > 0.0 && 0.0 <= u <= v && (v <= 0.5 || u > 0.5)
    ensures Cursor(m, gain, u) <= Cursor(m, gain, v)
  {
    WarpIsShare(m, XAxle, u);
    WarpIsShare(m, XAxle, 0.5);
    ShareGrows(m, u, v);
    CursorIsCurve(m, gain, u);
    CursorIsCurve(m, gain, v);
    CurveGrows(Share(m, u), Share(m, v), Share(m, 0.5), u, v, gain);
  }

  lemma OverTop(w: real, top: real, u: real)
    requires top > 0.0
    ensures w / top * u == u * w / top
  {
  }

  lemma StrictlyScaled(p: real, q: real, gain: real)
    requires gain > 0.0
    ensures p * gain < q * gain <==> p < q
  {
    SignOfProduct(gain, q - p);
    assert gain * (q - p) == q * gain - p * gain;
  }

  lemma StrictlyDivided(p: real, q: real, top: real)
    requires top > 0.0
    ensures p / top < q / top <==> p < q
  {
    SignOfProduct(top, q / top - p / top);
    assert top * (q / top - p / top) == q - p;
  }

  lemma CurveOrder(w: real, top: real, u: real, v: real, gain: real)
    requires top > 0.0 && gain > 0.0
    ensures Curve(1.0, top, v, gain) < Curve(w, top, u, gain) <==> v < u * w
  {
    OverTop(1.0, top, v);
    OverTop(w, top, u);
    StrictlyDivided(v, u * w, top);
    StrictlyScaled(v / top, u * w / top, gain);
  }

  /** Past the cap the share drops: a finger faster than the cap moves the cursor less than one below it exactly when
      it is not faster by the share that it loses. */
  lemma CursorDropsPastCap(m: Trig, gain: real, u: real, v: real)
    requires SoundTanh(m) && gain > 0.0 && 0.0 <= u <= 0.5 < v
    ensures Cursor(m, gain, v) < Cursor(m, gain, u) <==> v < u * (1.0 + m.tanh(u / 0.1 - 1.0))
  {
    CursorIsCurve(m, gain, u);
    CursorIsCurve(m, gain, v);
    CurveOrder(Share(m, u), Share(m, 0.5), u, v, gain);
  }

  /** One at 0.9 moves it less than one at the cap of 0.5. */
  lemma FasterButLess(m: Trig, gain: real)
    requires SoundTanh(m) && gain > 0.0 && m.tanh(4.0) >= 0.9
    ensures Cursor(m, gain, 0.9) < Cursor(m, gain, 0.5)
  {
    assert 0.5 / 0.1 - 1.0 == 4.0;
    CursorDropsPastCap(m, gain, 0.5, 0.9);
  }

  /** Every pointer frame moves the cursor the way of three steps of the finger, by at most the gain, axis by axis;
      and no other finger-on frame moves it. */
  lemma {:induction false} PointerFollowsFinger(k: Kernel, m: Trig, s: State, i: Input)
    requires Interprets(k, m) && SoundTanh(m) && i.Frame? && i.c.finger == 1
    ensures EmittedGesture(k, s.contact, i.c) == Pointer <==> Points(s.contact, i.c)
    ensures Points(s.contact, i.c) ==>
      var p, d := Displacement(k, s, i).x, StepsX(s.contact, i.c);
      (p > 0.0 <==> d > 0) && (p < 0.0 <==> d < 0) && RAbs(p) <= 4000.0 * 2.0 / 280.0 * Abs(d) as real / 15.0
    ensures Points(s.contact, i.c) ==>
      var p, d := Displacement(k, s, i).y, StepsY(s.contact, i.c);
      (p > 0.0 <==> d > 0) && (p < 0.0 <==> d < 0) && RAbs(p) <= 5000.0 * 2.0 / 280.0 * Abs(d) as real / 15.0
  {
    if Points(s.contact, i.c) {
      PointerMoves(k, m, s, i);
      CursorFollows(m, 4000.0, Velocity(StepsX(s.contact, i.c)));
      CursorFollows(m, 5000.0, Velocity(StepsY(s.contact, i.c)));
    }
  }

  // ---- the events ----

  /** n is a tenth of p, rounded toward zero. */
  predicate IsTenth(n: int, p: real) {
    && 10.0 * Abs(n) as real <= RAbs(p) < 10.0 * Abs(n) as real + 10.0
    && (n > 0 ==> p > 0.0) && (n < 0 ==> p < 0.0)
  }

  lemma ConvertedTwice(p: real)
    ensures IsTenth(Convert(Truncate(p)), p)
  {
    ConvertIsTenth(Truncate(p));
    if p >= 0.0 {
      assert Truncate(p) as real <= p < Truncate(p) as real + 1.0;
    } else {
      assert Truncate(p) as real - 1.0 < p <= Truncate(p) as real;
    }
  }

  lemma TenthWithin(n: int, p: real, d: int, parts: int)
    requires IsTenth(n, p) && (p > 0.0 <==> Velocity(d) > 0.0) && (p < 0.0 <==> Velocity(d) < 0.0)
    requires (parts == 4 || parts == 5) && RAbs(p) <= parts as real * 1000.0 * RAbs(Velocity(d))
    ensures (n > 0 ==> d > 0) && (n < 0 ==> d < 0) && 21 * Abs(n) <= parts * Abs(d)
  {
  }

  /** In normal mode a pointer frame reports one motion per axis: the way of the finger in X, against it in Y, and at
      most 4 and 5 in 21 of its steps. */
  lemma PointerReports(k: Kernel, m: Trig, s: State, i: Input) returns (x: int, y: int)
    requires Interprets(k, m) && i.Frame? && Points(s.contact, i.c) && ModeAfterInput(k, s, i) == ModeNormal
    ensures Added(k, s, i) == [RelX(x), RelY(-y), Syn]
    ensures SoundTanh(m)
    ensures IsTenth(x, Cursor(m, 4000.0, Velocity(StepsX(s.contact, i.c))))
    ensures IsTenth(y, Cursor(m, 5000.0, Velocity(StepsY(s.contact, i.c))))
    ensures var dx := StepsX(s.contact, i.c); (x > 0 ==> dx > 0) && (x < 0 ==> dx < 0) && 21 * Abs(x) <= 4 * Abs(dx)
    ensures var dy := StepsY(s.contact, i.c); (y > 0 ==> dy > 0) && (y < 0 ==> dy < 0) && 21 * Abs(y) <= 5 * Abs(dy)
  {
    KernelSound(k, m);
    PointerMoves(k, m, s, i);
    var dx, dy := StepsX(s.contact, i.c), StepsY(s.contact, i.c);
    var p := Displacement(k, s, i);
    x, y := Convert(Truncate(p.x)), Convert(Truncate(p.y));
    ConvertedTwice(p.x);
    ConvertedTwice(p.y);
    CursorFollows(m, 4000.0, Velocity(dx));
    CursorFollows(m, 5000.0, Velocity(dy));
    TenthWithin(x, p.x, dx, 4);
    TenthWithin(y, p.y, dy, 5);
  }

  /** A finger that keeps its height moves the cursor along X alone, and one that keeps its X along Y alone. */
  lemma {:induction false} OneAxis(k: Kernel, m: Trig, s: State, i: Input)
    requires Interprets(k, m) && i.Frame? && Points(s.contact, i.c) && ModeAfterInput(k, s, i) == ModeNormal
    ensures StepsY(s.contact, i.c) == 0 ==> |Added(k, s, i)| == 3 && Added(k, s, i)[1] == RelY(0)
    ensures StepsX(s.contact, i.c) == 0 ==> |Added(k, s, i)| == 3 && Added(k, s, i)[0] == RelX(0)
  {
    var x, y := PointerReports(k, m, s, i);
  }
}
