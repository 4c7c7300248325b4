/** The recognizer read off the samples of a contact: a reference that uses none of the features, trends, runs,
    histograms or regions of the other modules, and the proof that every contact is answered with it. */
module Verdicts {
  import opened Unipoint
  import opened Signal
  import opened Trends
  import opened Runs
  import opened Windows
  import opened Slots
  import opened Histogram
  import opened Peaks
  import opened DecisionTree
  import opened Recognizer
  import opened Contacts

  // ---- the vertical path ----

  /** Every sample is averaged with the path before it. */
  function Glide(v: seq<int>, i: nat): real
    requires i < |v|
  {
    if i == 0 then v[0] as real else (Glide(v, i - 1) + v[i] as real) / 2.0
  }

  function Ys(h: seq<Sample>): (v: seq<int>)
    ensures |v| == |h| && forall k :: 0 <= k < |h| ==> v[k] == h[k].y
  {
    seq(|h|, k requires 0 <= k < |h| => h[k].y)
  }

  function Ws(h: seq<Sample>): (v: seq<int>)
    ensures |v| == |h| && forall k :: 0 <= k < |h| ==> v[k] == h[k].wy
  {
    seq(|h|, k requires 0 <= k < |h| => h[k].wy)
  }

  /** A sixteenth step of width moves the tip by a thirtieth of the sensor. */
  function TipHeight(h: seq<Sample>, i: nat): real
    requires i < |h|
  {
    Glide(Ys(h), i) + Glide(Ws(h), i) * h[i].ymax as real / 30.0
  }

  function Lift(h: seq<Sample>, i: nat): real
    requires 0 < i < |h|
  {
    Glide(Ys(h), i) - Glide(Ys(h), i - 1)
  }

  /** The path goes down, and the tip by more than 10. */
  predicate FallsAt(h: seq<Sample>, i: nat)
    requires 0 < i < |h|
  {
    Lift(h, i) < 0.0 && TipHeight(h, i) < TipHeight(h, i - 1) - 10.0
  }

  predicate RisesAt(h: seq<Sample>, i: nat)
    requires 0 < i < |h|
  {
    Lift(h, i) > 0.0 && TipHeight(h, i) > TipHeight(h, i - 1) + 10.0
  }

  function FallCount(h: seq<Sample>, i: nat): nat
    requires i < |h|
  {
    if i == 0 then 0 else FallCount(h, i - 1) + if FallsAt(h, i) then 1 else 0
  }

  /** How far the path goes down in falling frames. */
  function FallSum(h: seq<Sample>, i: nat): real
    requires i < |h|
  {
    if i == 0 then 0.0 else FallSum(h, i - 1) - if FallsAt(h, i) then Lift(h, i) else 0.0
  }

  function RiseSum(h: seq<Sample>, i: nat): real
    requires i < |h|
  {
    if i == 0 then 0.0 else RiseSum(h, i - 1) + if RisesAt(h, i) then Lift(h, i) else 0.0
  }

  /** At least four frames fall, and half of them are not reached by three quarters of the contact. */
  ghost predicate FallsLate(h: seq<Sample>)
    requires |h| > 0
  {
    && FallCount(h, |h| - 1) >= 4
    && forall j :: 0 <= j < |h| && 4 * j <= 3 * |h| ==> FallCount(h, j) < FallCount(h, |h| - 1) / 2
  }

  // ---- the horizontal path ----

  /** The first displacement of greatest size over three steps after the first; 0 below five frames. */
  ghost predicate IsWindow(h: seq<Sample>, w: int) {
    if |h| < 5 then w == 0 else exists k: nat :: IsWindowAt(h, w, k)
  }

  ghost predicate IsWindowAt(h: seq<Sample>, w: int, k: nat) {
    && 1 <= k && k + 3 < |h| && w == h[k + 3].x - h[k].x
    && forall j {:trigger h[j]} :: 1 <= j && j + 3 < |h| ==>
         Abs(h[j + 3].x - h[j].x) <= Abs(w) && (j < k ==> Abs(h[j + 3].x - h[j].x) < Abs(w))
  }

  /** X moves in one direction from frame a to frame e. */
  ghost predicate OneWay(h: seq<Sample>, a: nat, e: nat) {
    && a <= e < |h|
    && (|| (forall j, k :: a <= j <= k <= e ==> h[j].x <= h[k].x)
        || (forall j, k :: a <= j <= k <= e ==> h[j].x >= h[k].x))
  }

  /** No one-way stretch covers more; of those that cover as much none goes left when this one goes right, and
      none in the same direction ends later. */
  ghost predicate IsLongest(h: seq<Sample>, a: nat, e: nat) {
    && OneWay(h, a, e)
    && forall b: nat, f: nat {:trigger OneWay(h, b, f)} :: OneWay(h, b, f) ==>
         var best, other := h[e].x - h[a].x, h[f].x - h[b].x;
         && Abs(other) <= Abs(best)
         && (Abs(other) == Abs(best) ==> best <= other)
         && (other == best ==> f <= e)
  }

  // ---- the ends ----

  /** Distance between the means of the first and of the last up to four values. */
  function EndGap(v: seq<int>): real
    requires |v| >= 2
  {
    var n := |v|;
    if n < 4 then RAbs((v[0] - v[n - 1]) as real)
    else if n < 6 then RAbs((v[0] + v[1] - v[n - 2] - v[n - 1]) as real) / 2.0
    else if n < 8 then RAbs((v[0] + v[1] + v[2] - v[n - 3] - v[n - 2] - v[n - 1]) as real) / 3.0
    else RAbs((v[0] + v[1] + v[2] + v[3] - v[n - 4] - v[n - 3] - v[n - 2] - v[n - 1]) as real) / 4.0
  }

  // ---- the directions ----

  function Length(m: Trig, dx: real, dy: real): real {
    if dx == 0.0 && dy == 0.0 then 0.0 else m.sqrt(dx * dx + dy * dy)
  }

  /** Direction in degrees, from 0 upwards. */
  function Heading(m: Trig, dx: real, dy: real): real {
    var r :=
      if dx != 0.0 then m.atan2(dy, dx)
      else if dy > 0.0 then 1.5707963267949
      else if dy < 0.0 then -1.5707963267949
      else 0.0;
    if r < 0.0 then 360.0 + r * 180.0 / 3.1416 else r * 180.0 / 3.1416
  }

  /** Is the step into frame i longer than 5, in the direction of the b-th sector of 20 degrees? */
  predicate InSector(m: Trig, h: seq<Sample>, b: int, i: nat)
    requires 0 < i < |h|
  {
    var dx, dy := (h[i].x - h[i - 1].x) as real, Lift(h, i);
    Length(m, dx, dy) > 5.0 && 20.0 * b as real <= Heading(m, dx, dy) < 20.0 * b as real + 20.0
  }

  /** Total length of the steps into frames 1..i in a sector. */
  function SectorSum(m: Trig, h: seq<Sample>, b: int, i: nat): real
    requires i < |h|
  {
    if i == 0 then 0.0
    else
      SectorSum(m, h, b, i - 1)
      + if InSector(m, h, b, i) then Length(m, (h[i].x - h[i - 1].x) as real, Lift(h, i)) else 0.0
  }

  function Sector(m: Trig, h: seq<Sample>, b: int): real
    requires |h| > 0
  {
    SectorSum(m, h, b, |h| - 1)
  }

  /** The first of the 18 sectors with the greatest total. */
  ghost predicate IsPeak(m: Trig, h: seq<Sample>, b: int)
    requires |h| > 0
  {
    && 0 <= b < 18
    && forall c :: 0 <= c < 18 ==>
         Sector(m, h, c) <= Sector(m, h, b) && (c < b ==> Sector(m, h, c) < Sector(m, h, b))
  }

  /** The five sectors opposite to b. */
  function BackSum(m: Trig, h: seq<Sample>, b: int): real
    requires |h| > 0
  {
    Sector(m, h, (b + 7) % 18) + Sector(m, h, (b + 8) % 18) + Sector(m, h, (b + 9) % 18)
    + Sector(m, h, (b + 10) % 18) + Sector(m, h, (b + 11) % 18)
  }

  // ---- the verdict ----

  datatype Reading = Reading(
    frames: nat, window: int, edge: int, span: int,
    falls: nat, fallSum: real, riseSum: real, late: bool,
    xGap: real, yGap: real, sector: int, length: real, back: real)

  /** What is read off the horizontal path. */
  ghost predicate ReadsAcross(h: seq<Sample>, r: Reading)
    requires |h| >= 3
  {
    && IsWindow(h, r.window) && r.xGap == EndGap(Xs(h))
    && exists a: nat, e: nat :: IsLongest(h, a, e) && r.edge == h[e].x && r.span == h[e].x - h[a].x
  }

  /** What is read off the vertical path. */
  ghost predicate ReadsAlong(h: seq<Sample>, r: Reading)
    requires |h| >= 3
  {
    && r.falls == FallCount(h, |h| - 1) && r.fallSum == FallSum(h, |h| - 1) && r.riseSum == RiseSum(h, |h| - 1)
    && (r.late <==> FallsLate(h)) && r.yGap == EndGap(Ys(h))
  }

  /** What is read off the directions. */
  ghost predicate ReadsAround(m: Trig, h: seq<Sample>, r: Reading)
    requires |h| >= 3
  {
    IsPeak(m, h, r.sector) && r.length == Sector(m, h, r.sector) && r.back == BackSum(m, h, r.sector)
  }

  /** The reading of a contact; folded. */
  ghost predicate Reads(m: Trig, h: seq<Sample>, r: Reading)
    requires |h| >= 3
  {
    forall key {:trigger Opens(key)} :: Opens(key) && key == ReadKey ==>
      r.frames == |h| && ReadsAcross(h, r) && ReadsAlong(h, r) && ReadsAround(m, h, r)
  }

  function Verdict(r: Reading): Gesture {
    if r.window <= -66 then (if r.sector >= 13 || r.yGap > 430.75 then Down else Left)
    else if r.edge > 264 then
      if r.falls > (if r.span <= 117 then 2 else 6) && (r.span <= 117 || r.edge <= 273) then Down else Right
    else if r.fallSum >= 123.859314 then
      if r.window >= 117 then Right else if r.late then Up else Down
    else if r.riseSum > 60.125 then
      if r.yGap <= 68.75 && r.back > 0.0 then Tap else Up
    else if r.window >= 99 then Right
    else if r.frames <= 8 then
      if r.length <= 39.266991 then Tap else Left
    else if r.xGap <= 46.5 then Tap
    else if r.falls >= 4 then Down else Up
  }

  // ---- the path is the smoothed signal ----

  lemma {:induction false} GlideIsPole(h: seq<Sample>, i: nat)
    requires i < |h|
    ensures Glide(Ys(h), i) == Y(h, i) && Glide(Ws(h), i) == Pole(W_ALPHA, h, AxisW, i)
  {
    if i > 0 {
      GlideIsPole(h, i - 1);
    }
  }

  lemma Thirtieth(w: real, y: real)
    ensures w / 15.0 * (y / 2.0) == w * y / 30.0
  {
  }

  lemma {:induction false} TipIsTip(h: seq<Sample>, i: nat)
    requires i < |h|
    ensures TipHeight(h, i) == Tip(h, i)
  {
    GlideIsPole(h, i);
    Thirtieth(Glide(Ws(h), i), h[i].ymax as real);
  }

  lemma {:induction false} TrendIsReading(h: seq<Sample>, i: nat)
    requires 0 < i < |h|
    ensures Lift(h, i) == DY(h, i)
    ensures FallsAt(h, i) <==> TrendAt(h, i) == Falling
    ensures RisesAt(h, i) <==> TrendAt(h, i) == Rising
  {
    GlideIsPole(h, i);
    GlideIsPole(h, i - 1);
    TipIsTip(h, i);
    TipIsTip(h, i - 1);
  }

  lemma {:induction false} TalliesAreReadings(h: seq<Sample>, i: nat)
    requires i < |h|
    ensures FallCount(h, i) == Count(h, Falling, i)
    ensures FallSum(h, i) == -Dist(h, Falling, i) && RiseSum(h, i) == Dist(h, Rising, i)
  {
    if i > 0 {
      TalliesAreReadings(h, i - 1);
      TrendIsReading(h, i);
    }
  }

  lemma {:induction false} CountsAreCounts(h: seq<Sample>)
    requires |h| > 0
    ensures forall j :: 0 <= j < |h| ==> FallCount(h, j) == Count(h, Falling, j)
  {
    forall j | 0 <= j < |h| ensures FallCount(h, j) == Count(h, Falling, j) {
      TalliesAreReadings(h, j);
    }
  }

  /** A crossing is late exactly when half of the falling frames are not reached by three quarters. */
  lemma {:induction false} CrossingIsLate(h: seq<Sample>)
    requires |h| > 0 && Mark(h, Falling) > 1
    ensures Crossing(h, Falling) > 0 && (FallsLate(h) <==> 4 * Crossing(h, Falling) > 3 * |h|)
  {
    var n, at := |h|, Crossing(h, Falling);
    CountsAreCounts(h);
    if at == 0 {
      NotYetCrossed(h, Falling, n - 1);
      assert false;
    }
    CrossingIsOwnFrame(h, Falling, n - 1);
    assert FallCount(h, at) == FallCount(h, n - 1) / 2;
  }

  /** Late falling is a half crossing beyond three quarters. */
  lemma {:induction false} LateIsLocation(h: seq<Sample>)
    requires |h| > 0
    ensures FallsLate(h) <==> Location(h, Falling) > 0.75
  {
    CountsAreCounts(h);
    if Mark(h, Falling) > 1 {
      CrossingIsLate(h);
      Quarters(Crossing(h, Falling), |h|);
    } else {
      Quarters(0, |h|);
    }
  }

  lemma Quarters(at: nat, n: nat)
    requires n > 0
    ensures at as real / n as real > 0.75 <==> 4 * at > 3 * n
  {
    ShareCompares(at as real, n as real, 0.75);
  }

  // ---- the horizontal readings are the left-right features ----

  lemma {:induction false} WindowIsTrigger(h: seq<Sample>, w: int)
    requires IsWindow(h, w)
    ensures Trigger(Xs(h)) == w
  {
    if |h| >= 5 {
      TriggerIsFirstGreatest(Xs(h));
      var at: nat :| IsFirstGreatest(Xs(h), at, Trigger(Xs(h)));
      var k: nat :| IsWindowAt(h, w, k);
      assert WindowAt(Xs(h), at) == h[at - 1 + 3].x - h[at - 1].x;
      assert WindowAt(Xs(h), k + 1) == h[k + 3].x - h[k].x;
    }
  }

  lemma {:induction false} TriggerIsWindow(h: seq<Sample>)
    ensures IsWindow(h, Trigger(Xs(h)))
  {
    TriggerIsFirstGreatest(Xs(h));
    if |h| >= 5 {
      var w := Trigger(Xs(h));
      var at: nat :| IsFirstGreatest(Xs(h), at, w);
      forall j | 1 <= j && j + 3 < |h|
        ensures Abs(h[j + 3].x - h[j].x) <= Abs(w) && (j < at - 1 ==> Abs(h[j + 3].x - h[j].x) < Abs(w))
      {
        assert WindowAt(Xs(h), j + 1) == h[j + 3].x - h[j].x;
      }
      assert IsWindowAt(h, w, at - 1);
    }
  }

  lemma {:induction false} OneWayIsMonotone(h: seq<Sample>, a: nat, e: nat)
    requires a <= e < |h|
    ensures OneWay(h, a, e) <==> Monotone(Xs(h), a, e)
  {
    var xs := Xs(h);
    if Rises(xs, a, e) {
      forall j, k | a <= j <= k <= e ensures h[j].x <= h[k].x {
        assert xs[j] <= xs[k];
      }
    }
    if Falls(xs, a, e) {
      forall j, k | a <= j <= k <= e ensures h[j].x >= h[k].x {
        assert xs[j] >= xs[k];
      }
    }
  }

  /** The longer of two runs, the leftward one of equals, against a stretch that neither of them falls short of. */
  lemma RunChoice(right: Run, left: Run, other: int, f: nat, rises: bool, falls: bool)
    requires right.dist >= 0 && left.dist >= 0 && (rises || falls) && (other == 0 ==> rises && falls)
    requires rises ==> 0 <= other <= right.dist && (other == right.dist ==> f <= right.end)
    requires falls ==> 0 <= -other <= left.dist && (-other == left.dist ==> f <= left.end)
    ensures var r := if right.dist > left.dist then right else Run(-left.dist, left.end, left.time);
      && Abs(other) <= Abs(r.dist)
      && (Abs(other) == Abs(r.dist) ==> r.dist <= other)
      && (other == r.dist ==> f <= r.end)
  {
  }

  lemma {:induction false} FlatBothWays(xs: seq<int>, b: nat, f: nat)
    requires b <= f < |xs| && Monotone(xs, b, f) && xs[b] == xs[f]
    ensures Rises(xs, b, f) && Falls(xs, b, f)
  {
    forall j, k | b <= j <= k <= f ensures xs[j] == xs[k] {
      if Rises(xs, b, f) {
        assert xs[b] <= xs[j] <= xs[k] <= xs[f];
      } else {
        assert xs[b] >= xs[j] >= xs[k] >= xs[f];
      }
    }
  }

  lemma {:induction false} ClimbBeats(xs: seq<int>, b: nat, f: nat)
    requires b <= f < |xs|
    ensures var r := BestClimb(xs, |xs| - 1);
      && r.dist >= 0
      && (Rises(xs, b, f) ==> 0 <= xs[f] - xs[b] <= r.dist && (xs[f] - xs[b] == r.dist ==> f <= r.end))
  {
    BestClimbIsMaximal(xs, b, f);
    BestClimbIsMaximal(xs, 0, 0);
  }

  lemma {:induction false} FallBeats(xs: seq<int>, b: nat, f: nat)
    requires b <= f < |xs|
    ensures var r := BestClimb(Negate(xs), |xs| - 1);
      && r.dist >= 0
      && (Falls(xs, b, f) ==> 0 <= xs[b] - xs[f] <= r.dist && (xs[b] - xs[f] == r.dist ==> f <= r.end))
  {
    BestFallIsMaximal(xs, b, f);
    BestFallIsMaximal(xs, 0, 0);
  }

  /** Of the one-way stretches none beats the recorded run. */
  lemma {:induction false} RunBeats(xs: seq<int>, b: nat, f: nat)
    requires b <= f < |xs| && Monotone(xs, b, f)
    ensures var r, other := Dominant(xs), xs[f] - xs[b];
      && Abs(other) <= Abs(r.dist)
      && (Abs(other) == Abs(r.dist) ==> r.dist <= other)
      && (other == r.dist ==> f <= r.end)
  {
    var n := |xs| - 1;
    ClimbBeats(xs, b, f);
    FallBeats(xs, b, f);
    if xs[b] == xs[f] {
      FlatBothWays(xs, b, f);
    }
    RunChoice(BestClimb(xs, n), BestClimb(Negate(xs), n), xs[f] - xs[b], f, Rises(xs, b, f), Falls(xs, b, f));
  }

  lemma {:induction false} NoneBeats(h: seq<Sample>, b: nat, f: nat)
    requires OneWay(h, b, f)
    ensures var best, other := LrOf(h).maxTrend, h[f].x - h[b].x;
      Abs(other) <= Abs(best) && (Abs(other) == Abs(best) ==> best <= other) && (other == best ==> f <= DominantEnd(h))
  {
    OneWayIsMonotone(h, b, f);
    RunBeats(Xs(h), b, f);
  }

  /** What the left-right features say of any contact: a longest one-way stretch and where it ended. */
  lemma {:induction false} LrIsLongest(h: seq<Sample>)
    requires |h| > 0
    ensures var e, t := DominantEnd(h), LrOf(h).indexE;
      && t <= e < |h| && IsLongest(h, e - t, e)
      && LrOf(h).maxEX == h[e].x && LrOf(h).maxTrend == h[e].x - h[e - t].x
  {
    var xs, e, t := Xs(h), DominantEnd(h), LrOf(h).indexE;
    DominantIsLongest(xs);
    OneWayIsMonotone(h, e - t, e);
    forall b: nat, f: nat | OneWay(h, b, f)
      ensures var best, other := h[e].x - h[e - t].x, h[f].x - h[b].x;
        Abs(other) <= Abs(best) && (Abs(other) == Abs(best) ==> best <= other) && (other == best ==> f <= e)
    {
      NoneBeats(h, b, f);
    }
  }

  /** And the trigger is a third of the first greatest window. */
  lemma {:induction false} LrHasWindow(h: seq<Sample>) returns (w: int)
    requires |h| > 0
    ensures IsWindow(h, w) && 3.0 * LrOf(h).velTrig == w as real
  {
    TriggerIsWindow(h);
    w := Trigger(Xs(h));
  }

  /** A longest one-way stretch ends where the features say, and covers what they say. */
  lemma LongestIsLr(h: seq<Sample>, a: nat, e: nat)
    requires IsLongest(h, a, e)
    ensures LrOf(h).maxEX == h[e].x && LrOf(h).maxTrend == h[e].x - h[a].x
  {
    LrIsLongest(h);
    assert OneWay(h, DominantEnd(h) - LrOf(h).indexE, DominantEnd(h));
    assert OneWay(h, a, e);
  }

  // ---- the ends are the closures ----

  /** What the first e values exceed the last e by. */
  function Excess(v: seq<int>, e: nat): int
    requires e <= |v|
  {
    if e == 0 then 0 else Excess(v, e - 1) + (v[e - 1] - v[|v| - e])
  }

  lemma {:induction false} ExcessIsSums(h: seq<Sample>, axis: Axis, v: seq<int>, e: nat)
    requires |h| == |v| && e <= |h| && forall k :: 0 <= k < |h| ==> v[k] as real == Raw(h[k], axis)
    ensures Excess(v, e) as real == FirstSum(h, axis, e) - LastSum(h, axis, e)
  {
    if e > 0 {
      ExcessIsSums(h, axis, v, e - 1);
    }
  }

  lemma GapIsExcess(v: seq<int>)
    requires |v| >= 2
    ensures EndGap(v) == RAbs(Excess(v, Ends(|v|)) as real) / Ends(|v|) as real
  {
    assert Excess(v, 1) == Excess(v, 0) + (v[0] - v[|v| - 1]);
    if |v| >= 4 {
      assert Excess(v, 2) == Excess(v, 1) + (v[1] - v[|v| - 2]);
    }
    if |v| >= 6 {
      assert Excess(v, 3) == Excess(v, 2) + (v[2] - v[|v| - 3]);
    }
    if |v| >= 8 {
      assert Excess(v, 4) == Excess(v, 3) + (v[3] - v[|v| - 4]);
    }
  }

  lemma AbsOfQuotient(x: real, d: real)
    requires d >= 1.0
    ensures RAbs(x) / d == RAbs(x / d)
  {
    ShareCompares(x, d, 0.0);
  }

  lemma {:induction false} GapIsClosure(h: seq<Sample>, axis: Axis, v: seq<int>)
    requires |h| == |v| >= 2 && forall k :: 0 <= k < |h| ==> v[k] as real == Raw(h[k], axis)
    ensures EndGap(v) == Closure(h, axis)
  {
    ExcessIsSums(h, axis, v, Ends(|h|));
    GapIsExcess(v);
    AbsOfQuotient(Excess(v, Ends(|h|)) as real, Ends(|h|) as real);
  }

  // ---- the sectors are the raw bins ----

  lemma StepIsLength(m: Trig, dx: real, dy: real)
    ensures StepMagnitude(m, dx, dy) == if Length(m, dx, dy) > 5.0 then Length(m, dx, dy) else 0.0
    ensures StepDegrees(m, dx, dy) == Heading(m, dx, dy)
  {
  }

  lemma BinIsSector(angle: real, b: int)
    ensures Bin(angle) == b <==> 20.0 * b as real <= angle < 20.0 * b as real + 20.0
  {
  }

  lemma {:induction false} SectorIsBin(m: Trig, h: seq<Sample>, b: int, i: nat)
    requires i < |h|
    ensures SectorSum(m, h, b, i) == BinSum(Steps(m, h), AllFrames, b, i)
  {
    if i > 0 {
      SectorIsBin(m, h, b, i - 1);
      TrendIsReading(h, i);
      StepIsLength(m, DX(h, i) as real, DY(h, i));
      BinIsSector(Angle(m, h, i), b);
    }
  }

  lemma {:induction false} SectorIsRaw(m: Trig, h: seq<Sample>, b: int)
    requires |h| > 0 && 0 <= b < 18
    ensures |RawHistogram(Steps(m, h))| == 18 && Sector(m, h, b) == RawHistogram(Steps(m, h))[b]
  {
    SectorIsBin(m, h, b, |h| - 1);
  }

  lemma {:induction false} PeakIsArgMax(m: Trig, h: seq<Sample>, b: int)
    requires |h| > 0 && 0 <= b < 18
    ensures IsPeak(m, h, b) <==> b == ArgMax(RawHistogram(Steps(m, h)), ANGLE_BINS)
  {
    var raw := RawHistogram(Steps(m, h));
    var top := ArgMax(raw, ANGLE_BINS);
    forall c | 0 <= c < 18
      ensures Sector(m, h, c) == raw[c] <= raw[top] && (c < top ==> raw[c] < raw[top])
    {
      SectorIsRaw(m, h, c);
      ArgMaxIsFirstGreatest(raw, ANGLE_BINS, c);
    }
  }

  lemma {:induction false} BackSector(m: Trig, h: seq<Sample>, b: int, d: int)
    requires |h| > 0 && 0 <= b < 18 && 7 <= d <= 11
    ensures Sector(m, h, (b + d) % 18) == RawHistogram(Steps(m, h))[Wrap(b + d)]
  {
    WrapIsModulo(b + d);
    SectorIsRaw(m, h, (b + d) % 18);
  }

  lemma {:induction false} BackIsWindow(m: Trig, h: seq<Sample>, b: int)
    requires |h| > 0 && 0 <= b < 18
    ensures BackSum(m, h, b) == WindowSum(RawHistogram(Steps(m, h)), b + 9)
  {
    BackSector(m, h, b, 7);
    BackSector(m, h, b, 8);
    BackSector(m, h, b, 9);
    BackSector(m, h, b, 10);
    BackSector(m, h, b, 11);
  }

  lemma PeaksOfPeak(raw: seq<real>, norm: seq<real>, b: nat)
    requires |raw| == |norm| == 18 && b == ArgMax(raw, ANGLE_BINS)
    ensures var p := PeaksOf(raw, norm);
      p.weightedPeakAngle == 20.0 * b as real + 10.0 && p.angleMagMax == raw[b] && p.tapPeak == WindowSum(raw, b + 9)
  {
  }

  lemma {:induction false} PeakReadings(m: Trig, h: seq<Sample>, b: int)
    requires |h| > 0 && IsPeak(m, h, b)
    ensures var p := PeaksIn(m, h);
      && p.weightedPeakAngle == 20.0 * b as real + 10.0
      && p.angleMagMax == Sector(m, h, b) && p.tapPeak == BackSum(m, h, b)
  {
    PeakIsArgMax(m, h, b);
    SectorIsRaw(m, h, b);
    BackIsWindow(m, h, b);
    PeaksOfPeak(RawHistogram(Steps(m, h)), NormHistogram(Steps(m, h)), b);
  }

  lemma {:induction false} PeakExists(m: Trig, h: seq<Sample>) returns (b: int)
    requires |h| > 0
    ensures IsPeak(m, h, b)
  {
    b := ArgMax(RawHistogram(Steps(m, h)), ANGLE_BINS);
    PeakIsArgMax(m, h, b);
  }

  // ---- every contact is answered with its verdict ----

  /** The tree on features that agree with a reading. */
  lemma TreeIsVerdict(f: Features, r: Reading)
    requires f.frameCount == r.frames && f.lr.velTrig == r.window as real / 3.0
    requires f.lr.maxEX == r.edge && f.lr.maxTrend == r.span
    requires f.trends.down == r.falls && f.trends.downDist == -r.fallSum && f.trends.upDist == r.riseSum
    requires (f.slots.downLocation > 0.75 <==> r.late) && (f.slots.downCode > 0 <==> r.falls >= 4)
    requires f.xClosure == r.xGap && f.yClosure == r.yGap
    requires f.peaks.weightedPeakAngle == 20.0 * r.sector as real + 10.0
    requires f.peaks.angleMagMax == r.length && f.peaks.tapPeak == r.back
    ensures Decision(f) == Verdict(r)
  {
    RegionsPartition(f);
  }

  lemma {:induction false} HorizontalReadings(h: seq<Sample>, r: Reading)
    requires |h| >= 3 && ReadsAcross(h, r)
    ensures LrOf(h).velTrig == r.window as real / 3.0 && LrOf(h).maxEX == r.edge && LrOf(h).maxTrend == r.span
    ensures Closure(h, AxisX) == r.xGap
  {
    WindowIsTrigger(h, r.window);
    var a: nat, e: nat :| IsLongest(h, a, e) && r.edge == h[e].x && r.span == h[e].x - h[a].x;
    LongestIsLr(h, a, e);
    GapIsClosure(h, AxisX, Xs(h));
  }

  lemma {:induction false} VerticalReadings(h: seq<Sample>, r: Reading)
    requires |h| >= 3 && ReadsAlong(h, r)
    ensures var t, slots := TalliesAt(h, |h| - 1), SlotsOf(h);
      && t.down == r.falls && t.downDist == -r.fallSum && t.upDist == r.riseSum
      && (slots.downLocation > 0.75 <==> r.late) && (slots.downCode > 0 <==> r.falls >= 4)
    ensures Closure(h, AxisY) == r.yGap
  {
    TalliesAreReadings(h, |h| - 1);
    LateIsLocation(h);
    SlotNeedsFour(h, Falling);
    GapIsClosure(h, AxisY, Ys(h));
  }

  /** A contact is answered with the verdict on its reading, whatever the contact. */
  lemma {:induction false} AnswerIsVerdict(k: Kernel, m: Trig, h: seq<Sample>, r: Reading)
    requires Interprets(k, m) && |h| >= 3 && Reads(m, h, r)
    ensures Answered(k, h) == Verdict(r)
  {
    assert Opens(ReadKey);
    KernelRecognizes(k, m, h);
    HorizontalReadings(h, r);
    VerticalReadings(h, r);
    PeakReadings(m, h, r.sector);
    TreeIsVerdict(FeaturesOf(m, h), r);
  }

  lemma {:induction false} AcrossExists(h: seq<Sample>) returns (window: int, edge: int, span: int)
    requires |h| >= 3
    ensures IsWindow(h, window)
    ensures exists a: nat, e: nat :: IsLongest(h, a, e) && edge == h[e].x && span == h[e].x - h[a].x
  {
    TriggerIsWindow(h);
    LrIsLongest(h);
    var e := DominantEnd(h);
    var a: nat := e - LrOf(h).indexE;
    window, edge, span := Trigger(Xs(h)), h[e].x, h[e].x - h[a].x;
    assert IsLongest(h, a, e) && edge == h[e].x && span == h[e].x - h[a].x;
  }

  /** Every contact has a reading. */
  lemma {:induction false} ReadingExists(m: Trig, h: seq<Sample>) returns (r: Reading)
    requires |h| >= 3
    ensures Reads(m, h, r)
  {
    var n := |h| - 1;
    var window, edge, span := AcrossExists(h);
    var b := PeakExists(m, h);
    r := Reading(|h|, window, edge, span, FallCount(h, n), FallSum(h, n), RiseSum(h, n), FallsLate(h),
                 EndGap(Xs(h)), EndGap(Ys(h)), b, Sector(m, h, b), BackSum(m, h, b));
  }
}
