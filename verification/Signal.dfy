/** The first half of centroidFilterHistory: smoothing, velocities, polar form and co-trends. */
module Signal {
  import opened Unipoint

  /** One row of the scratch pad. */
  datatype Scratch = Scratch(
    xs: real, ys: real, wys: real,
    x: int, y: real, tip: real,
    dX: int, dY: real, dTip: real,
    magnitude: real, angle: real,
    up: nat, down: nat, none: nat, oppos: nat)

  const X_ALPHA := 0.0
  const Y_ALPHA := 0.5
  const W_ALPHA := 0.5
  const SLOPE_CO_TREND := 10.0
  const NOISE_MAGNITUDE := 5.0

  // ---- what each column of the scratch pad means, as a function of the contact ----

  datatype Axis = AxisX | AxisY | AxisW

  function Raw(c: Sample, axis: Axis): real {
    match axis
    case AxisX => c.x as real
    case AxisY => c.y as real
    case AxisW => c.wy as real
  }

  /** Value of the one-pole low-pass filter after frame i. */
  function Pole(alpha: real, h: seq<Sample>, axis: Axis, i: nat): real
    requires i < |h|
  {
    (if i == 0 then Raw(h[0], axis) else Pole(alpha, h, axis, i - 1)) * alpha + Raw(h[i], axis) * (1.0 - alpha)
  }

  function Y(h: seq<Sample>, i: nat): real
    requires i < |h|
  {
    Pole(Y_ALPHA, h, AxisY, i)
  }

  /** Position of the finger tip: the smoothed centroid moved up by the smoothed width. */
  function Tip(h: seq<Sample>, i: nat): real
    requires i < |h|
  {
    Y(h, i) + Pole(W_ALPHA, h, AxisW, i) / 15.0 * (h[i].ymax as real / 2.0)
  }

  function DX(h: seq<Sample>, i: nat): int
    requires i < |h|
  {
    if i == 0 then 0 else h[i].x - h[i - 1].x
  }

  function DY(h: seq<Sample>, i: nat): real
    requires i < |h|
  {
    if i == 0 then 0.0 else Y(h, i) - Y(h, i - 1)
  }

  function DTip(h: seq<Sample>, i: nat): real
    requires 0 < i < |h|
  {
    Tip(h, i) - Tip(h, i - 1)
  }

  function Hypotenuse(m: Trig, dx: real, dy: real): real {
    m.sqrt(dx * dx + dy * dy)
  }

  /** Length of a step, or 0 when it is no more than noise. */
  function StepMagnitude(m: Trig, dx: real, dy: real): real {
    var mag := if dx == 0.0 && dy == 0.0 then 0.0 else Hypotenuse(m, dx, dy);
    if mag > NOISE_MAGNITUDE then mag else 0.0
  }

  function StepDegrees(m: Trig, dx: real, dy: real): real {
    var radians :=
      if dx == 0.0 && dy == 0.0 then 0.0
      else if dx == 0.0 && dy > 0.0 then 1.5707963267949
      else if dx == 0.0 && dy < 0.0 then -1.5707963267949
      else m.atan2(dy, dx);
    var degrees := radians * (180.0 / 3.1416);
    if degrees < 0.0 then degrees + 360.0 else degrees
  }

  function StepAngle(m: Trig, dx: real, dy: real): real {
    if StepMagnitude(m, dx, dy) > 0.0 then StepDegrees(m, dx, dy) else 0.0
  }

  function Magnitude(m: Trig, h: seq<Sample>, i: nat): real
    requires i < |h|
  {
    StepMagnitude(m, DX(h, i) as real, DY(h, i))
  }

  function Angle(m: Trig, h: seq<Sample>, i: nat): real
    requires i < |h|
  {
    StepAngle(m, DX(h, i) as real, DY(h, i))
  }

  datatype Trend = Rising | Falling | Still | Opposing

  /** Both velocities point the same way, and neither is zero. */
  predicate Together(dy: real, dTip: real) {
    (dy > 0.0 && dTip > 0.0) || (dy < 0.0 && dTip < 0.0)
  }

  /** The code tests the sign of the product. */
  lemma ProductSign(dy: real, dTip: real)
    ensures Together(dy, dTip) <==> dy * dTip > 0.0
  {
    if dy > 0.0 && dTip <= 0.0 {
      assert dy * -dTip >= 0.0;
    } else if dy < 0.0 && dTip >= 0.0 {
      assert -dy * dTip >= 0.0;
    } else if dy < 0.0 && dTip < 0.0 {
      assert -dy * -dTip > 0.0;
    }
  }

  /** How the centroid and the tip moved together into frame i. */
  function TrendAt(h: seq<Sample>, i: nat): Trend
    requires 0 < i < |h|
  {
    if !Together(DY(h, i), DTip(h, i)) then Opposing
    else if DTip(h, i) > SLOPE_CO_TREND then Rising
    else if DTip(h, i) < -SLOPE_CO_TREND then Falling
    else Still
  }

  /** Frames 1..i of the given trend. */
  function Count(h: seq<Sample>, t: Trend, i: nat): nat
    requires i < |h|
  {
    if i == 0 then 0 else Count(h, t, i - 1) + (if TrendAt(h, i) == t then 1 else 0)
  }

  /** Distance the smoothed centroid travelled over the frames 1..i of the given trend. */
  function Dist(h: seq<Sample>, t: Trend, i: nat): real
    requires i < |h|
  {
    if i == 0 then 0.0 else Dist(h, t, i - 1) + (if TrendAt(h, i) == t then DY(h, i) else 0.0)
  }

  // ---- the scratch pad agrees with a contact ----

  ghost predicate SmoothedRow(h: seq<Sample>, s: Scratch, i: nat)
    requires i < |h|
  {
    s.xs == Pole(X_ALPHA, h, AxisX, i) && s.ys == Y(h, i) && s.wys == Pole(W_ALPHA, h, AxisW, i)
  }

  ghost predicate PlacedRow(h: seq<Sample>, s: Scratch, i: nat)
    requires i < |h|
  {
    s.x == h[i].x && s.y == Y(h, i) && s.tip == Tip(h, i)
  }

  ghost predicate SteppedRow(h: seq<Sample>, s: Scratch, i: nat)
    requires i < |h|
  {
    s.dX == DX(h, i) && s.dY == DY(h, i) && (i > 0 ==> s.dTip == DTip(h, i))
  }

  ghost predicate PolarRow(m: Trig, h: seq<Sample>, s: Scratch, i: nat)
    requires i < |h|
  {
    s.magnitude == Magnitude(m, h, i) && s.angle == Angle(m, h, i)
  }

  ghost predicate TrendRow(h: seq<Sample>, s: Scratch, i: nat)
    requires i < |h|
  {
    && s.up == Count(h, Rising, i) && s.down == Count(h, Falling, i)
    && s.none == Count(h, Still, i) && s.oppos == Count(h, Opposing, i)
  }

  ghost predicate Smoothed(h: seq<Sample>, p: seq<Scratch>) {
    |h| <= |p| && forall i :: 0 <= i < |h| ==> SmoothedRow(h, p[i], i)
  }

  ghost predicate Placed(h: seq<Sample>, p: seq<Scratch>) {
    |h| <= |p| && forall i :: 0 <= i < |h| ==> PlacedRow(h, p[i], i)
  }

  ghost predicate Stepped(h: seq<Sample>, p: seq<Scratch>) {
    |h| <= |p| && forall i :: 0 <= i < |h| ==> SteppedRow(h, p[i], i)
  }

  ghost predicate MeasuredRow(m: Trig, h: seq<Sample>, s: Scratch, i: nat)
    requires i < |h|
  {
    PlacedRow(h, s, i) && SteppedRow(h, s, i) && PolarRow(m, h, s, i)
  }

  /** Position, velocity and polar form of every frame are in place. */
  ghost predicate Measured(m: Trig, h: seq<Sample>, p: seq<Scratch>) {
    |h| <= |p| && forall i :: 0 <= i < |h| ==> MeasuredRow(m, h, p[i], i)
  }

  ghost predicate Trended(h: seq<Sample>, p: seq<Scratch>) {
    |h| <= |p| && forall i :: 0 <= i < |h| ==> TrendRow(h, p[i], i)
  }

  // ---- the loops ----

  /** Single-pole low-pass filter over every axis. */
  method Smooth(history: array<Sample>, pad: array<Scratch>, n: nat)
    requires 0 < n <= history.Length && n <= pad.Length
    modifies pad
    ensures Smoothed(history[..n], pad[..])
  {
    ghost var h := history[..n];
    var smoothX := history[0].x as real;
    var smoothY := history[0].y as real;
    var smoothW := history[0].wy as real;
    var i := 0;
    while i < n
      invariant 0 <= i <= n
      invariant smoothX == if i == 0 then Raw(h[0], AxisX) else Pole(X_ALPHA, h, AxisX, i - 1)
      invariant smoothY == if i == 0 then Raw(h[0], AxisY) else Pole(Y_ALPHA, h, AxisY, i - 1)
      invariant smoothW == if i == 0 then Raw(h[0], AxisW) else Pole(W_ALPHA, h, AxisW, i - 1)
      invariant forall k :: 0 <= k < i ==> SmoothedRow(h, pad[k], k)
    {
      smoothX := smoothX * X_ALPHA + history[i].x as real * (1.0 - X_ALPHA);
      smoothY := smoothY * Y_ALPHA + history[i].y as real * (1.0 - Y_ALPHA);
      smoothW := smoothW * W_ALPHA + history[i].wy as real * (1.0 - W_ALPHA);
      pad[i] := pad[i].(xs := smoothX, ys := smoothY, wys := smoothW);
      i := i + 1;
    }
  }

  /** With a zero pole the filter passes the axis through unchanged. */
  lemma {:induction false} ZeroPoleIsExact(h: seq<Sample>, axis: Axis, i: nat)
    requires i < |h|
    ensures Pole(0.0, h, axis, i) == Raw(h[i], axis)
  {
    if i > 0 {
      ZeroPoleIsExact(h, axis, i - 1);
    }
  }

  /** Copies the smoothed position and derives the tip. */
  method Place(history: array<Sample>, pad: array<Scratch>, n: nat)
    requires 0 < n <= history.Length && n <= pad.Length
    requires Smoothed(history[..n], pad[..])
    modifies pad
    ensures Placed(history[..n], pad[..])
  {
    ghost var h := history[..n];
    var i := 0;
    while i < n
      invariant 0 <= i <= n
      invariant forall k :: 0 <= k < i ==> PlacedRow(h, pad[k], k)
      invariant forall k :: i <= k < n ==> SmoothedRow(h, pad[k], k)
    {
      ZeroPoleIsExact(h, AxisX, i);
      assert SmoothedRow(h, pad[i], i);
      var s := pad[i];
      pad[i] := s.(x := s.xs.Floor, y := s.ys, tip := s.ys + s.wys / 15.0 * (history[i].ymax as real / 2.0));
      i := i + 1;
    }
  }

  /** Frame to frame differences; the first frame has none. */
  method Difference(pad: array<Scratch>, n: nat, ghost h: seq<Sample>)
    requires 0 < n == |h| <= pad.Length
    requires Placed(h, pad[..])
    modifies pad
    ensures Placed(h, pad[..]) && Stepped(h, pad[..])
  {
    pad[0] := pad[0].(dX := 0, dY := 0.0);
    var i := 1;
    while i < n
      invariant 1 <= i <= n
      invariant forall k :: 0 <= k < n ==> PlacedRow(h, pad[k], k)
      invariant forall k :: 0 <= k < i ==> SteppedRow(h, pad[k], k)
    {
      assert PlacedRow(h, pad[i], i) && PlacedRow(h, pad[i - 1], i - 1);
      var s, t := pad[i], pad[i - 1];
      pad[i] := s.(dX := s.x - t.x, dY := s.y - t.y, dTip := s.tip - t.tip);
      i := i + 1;
    }
  }

  /** Length and direction of every step. */
  method ToPolar(m: Trig, pad: array<Scratch>, n: nat, ghost h: seq<Sample>)
    requires 0 < n == |h| <= pad.Length
    requires Placed(h, pad[..]) && Stepped(h, pad[..])
    modifies pad
    ensures Measured(m, h, pad[..])
  {
    var i := 0;
    while i < n
      invariant 0 <= i <= n
      invariant forall k :: 0 <= k < n ==> PlacedRow(h, pad[k], k) && SteppedRow(h, pad[k], k)
      invariant forall k :: 0 <= k < i ==> MeasuredRow(m, h, pad[k], k)
    {
      assert SteppedRow(h, pad[i], i);
      var dX, dY := pad[i].dX as real, pad[i].dY;
      var radians;
      if dX == 0.0 && dY == 0.0 {
        radians := 0.0;
      } else if dX == 0.0 && dY > 0.0 {
        radians := 1.5707963267949;
      } else if dX == 0.0 && dY < 0.0 {
        radians := -1.5707963267949;
      } else {
        radians := m.atan2(dY, dX);
      }
      var mag;
      if dX == 0.0 && dY == 0.0 {
        mag := 0.0;
      } else {
        mag := Hypotenuse(m, dX, dY);
      }
      var degrees := radians * (180.0 / 3.1416);
      if degrees < 0.0 {
        degrees := degrees + 360.0;
      }
      var s := pad[i];
      if mag > NOISE_MAGNITUDE {
        s := s.(magnitude := mag, angle := degrees);
      } else {
        s := s.(magnitude := 0.0, angle := 0.0);
      }
      assert MeasuredRow(m, h, s, i);
      pad[i] := s;
      i := i + 1;
    }
  }

  /** The four frame tallies and the three distances. */
  datatype Tallies = Tallies(up: nat, down: nat, none: nat, oppos: nat, upDist: real, downDist: real, noneDist: real)

  function TalliesAt(h: seq<Sample>, i: nat): Tallies
    requires i < |h|
  {
    Tallies(Count(h, Rising, i), Count(h, Falling, i), Count(h, Still, i), Count(h, Opposing, i),
            Dist(h, Rising, i), Dist(h, Falling, i), Dist(h, Still, i))
  }

  function Tally(t: Tallies, trend: Trend, dY: real): Tallies {
    match trend
    case Rising => t.(up := t.up + 1, upDist := t.upDist + dY)
    case Falling => t.(down := t.down + 1, downDist := t.downDist + dY)
    case Still => t.(none := t.none + 1, noneDist := t.noneDist + dY)
    case Opposing => t.(oppos := t.oppos + 1)
  }

  lemma TallyNext(h: seq<Sample>, i: nat)
    requires 0 < i < |h|
    ensures TalliesAt(h, i) == Tally(TalliesAt(h, i - 1), TrendAt(h, i), DY(h, i))
  {
  }

  lemma TallyKeepsRow(m: Trig, h: seq<Sample>, s: Scratch, i: nat, t: Tallies)
    requires i < |h| && MeasuredRow(m, h, s, i) && t == TalliesAt(h, i)
    ensures var r := s.(up := t.up, down := t.down, none := t.none, oppos := t.oppos);
      MeasuredRow(m, h, r, i) && TrendRow(h, r, i)
  {
  }

  /** Tallies the frames, and the distance, over which centroid and tip move together. */
  method CountTrends(m: Trig, pad: array<Scratch>, n: nat, ghost h: seq<Sample>)
    returns (t: Tallies)
    requires 0 < n == |h| <= pad.Length
    requires Measured(m, h, pad[..])
    modifies pad
    ensures Measured(m, h, pad[..]) && Trended(h, pad[..])
    ensures t == TalliesAt(h, n - 1)
  {
    var up, down, none, oppos := 0, 0, 0, 0;
    var upDist, downDist, noneDist := 0.0, 0.0, 0.0;
    TallyKeepsRow(m, h, pad[0], 0, TalliesAt(h, 0));
    pad[0] := pad[0].(up := 0, down := 0, none := 0, oppos := 0);
    var i := 1;
    while i < n
      invariant 1 <= i <= n
      invariant forall k :: 0 <= k < n ==> MeasuredRow(m, h, pad[k], k)
      invariant forall k :: 0 <= k < i ==> TrendRow(h, pad[k], k)
      invariant Tallies(up, down, none, oppos, upDist, downDist, noneDist) == TalliesAt(h, i - 1)
    {
      assert MeasuredRow(m, h, pad[i], i) && TrendRow(h, pad[i - 1], i - 1);
      var before, s := pad[i - 1], pad[i];
      s := s.(up := before.up, down := before.down, none := before.none, oppos := before.oppos);
      var dTip := s.dTip;
      ProductSign(s.dY, dTip);
      if s.dY * dTip > 0.0 {
        if dTip > SLOPE_CO_TREND {
          up := up + 1;
          upDist := upDist + s.dY;
          s := s.(up := up);
        } else if dTip < -SLOPE_CO_TREND {
          down := down + 1;
          downDist := downDist + s.dY;
          s := s.(down := down);
        } else {
          none := none + 1;
          noneDist := noneDist + s.dY;
          s := s.(none := none);
        }
      } else {
        oppos := oppos + 1;
        s := s.(oppos := oppos);
      }
      TallyNext(h, i);
      ghost var after := Tallies(up, down, none, oppos, upDist, downDist, noneDist);
      assert after == Tally(TalliesAt(h, i - 1), TrendAt(h, i), DY(h, i));
      TallyKeepsRow(m, h, pad[i], i, after);
      pad[i] := s;
      i := i + 1;
    }
    assert TrendRow(h, pad[n - 1], n - 1);
    t := Tallies(pad[n - 1].up, pad[n - 1].down, pad[n - 1].none, pad[n - 1].oppos, upDist, downDist, noneDist);
  }
}
