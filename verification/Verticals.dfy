/** Contacts that move along one axis, from their samples to the gesture: straight falls, straight rises, and strokes
    at constant height that may turn back. */
module Verticals {
  import opened Unipoint
  import opened Signal
  import opened Trends
  import opened Runs
  import opened Recognizer
  import opened Contacts
  import opened Touch
  import opened TouchRuns
  import opened Strokes
  import opened Verdicts

  // ---- straight falls and rises, on the smoothed path s(0) = v(0), s(i) = (s(i - 1) + v(i)) / 2 ----

  /** Total of the drops of the path by more than t into frames 1..i. */
  function Drops(v: seq<int>, t: real, i: nat): real
    requires i < |v|
  {
    if i == 0 then 0.0
    else
      var d := Glide(v, i - 1) - Glide(v, i);
      Drops(v, t, i - 1) + if d > t then d else 0.0
  }

  function DropCount(v: seq<int>, t: real, i: nat): nat
    requires i < |v|
  {
    if i == 0 then 0 else DropCount(v, t, i - 1) + if Glide(v, i - 1) - Glide(v, i) > t then 1 else 0
  }

  /** Total of the climbs of the path by more than t into frames 1..i. */
  function Climbs(v: seq<int>, t: real, i: nat): real
    requires i < |v|
  {
    if i == 0 then 0.0
    else
      var d := Glide(v, i) - Glide(v, i - 1);
      Climbs(v, t, i - 1) + if d > t then d else 0.0
  }

  /** X, width and sensor height stay the same. */
  ghost predicate Straight(h: seq<Sample>) {
    forall k :: 0 <= k < |h| ==> h[k].x == h[0].x && h[k].wy == h[0].wy && h[k].ymax == h[0].ymax
  }

  ghost predicate GoesDownwards(h: seq<Sample>) {
    forall j, k :: 0 <= j <= k < |h| ==> h[j].y >= h[k].y
  }

  ghost predicate GoesUpwards(h: seq<Sample>) {
    forall j, k :: 0 <= j <= k < |h| ==> h[j].y <= h[k].y
  }

  /** Of at least four drops by more than 10, half come after three quarters of the contact. */
  ghost predicate DropsLate(v: seq<int>)
    requires |v| > 0
  {
    && DropCount(v, 10.0, |v| - 1) >= 4
    && forall j :: 0 <= j < |v| && 4 * j <= 3 * |v| ==> DropCount(v, 10.0, j) < DropCount(v, 10.0, |v| - 1) / 2
  }

  /** What a straight fall is. */
  ghost function FallGesture(h: seq<Sample>): Gesture
    requires |h| > 0
  {
    var v, n := Ys(h), |h| - 1;
    if h[0].x > 264 then (if DropCount(v, 10.0, n) > 2 then Down else Right)
    else if Drops(v, 10.0, n) >= 123.859314 then (if DropsLate(v) then Up else Down)
    else if |h| <= 8 && Drops(v, 5.0, n) > 39.266991 then Left else Tap
  }

  /** What a straight rise is. */
  function RiseGesture(h: seq<Sample>): Gesture
    requires |h| > 0
  {
    var v, n := Ys(h), |h| - 1;
    if h[0].x > 264 then Right
    else if Climbs(v, 10.0, n) > 60.125 then Up
    else if |h| <= 8 && Climbs(v, 5.0, n) > 39.266991 then Left else Tap
  }

  lemma {:induction false} GlideOfConstant(v: seq<int>, i: nat)
    requires i < |v| && forall k :: 0 <= k < |v| ==> v[k] == v[0]
    ensures Glide(v, i) == v[0] as real
  {
    if i > 0 {
      GlideOfConstant(v, i - 1);
    }
  }

  /** The path follows a monotone Y without turning back. */
  lemma {:induction false} GlideFollows(h: seq<Sample>, i: nat)
    requires 0 < i < |h|
    ensures GoesDownwards(h) ==> Lift(h, i) <= 0.0 && Glide(Ys(h), i) >= h[i].y as real
    ensures GoesUpwards(h) ==> Lift(h, i) >= 0.0 && Glide(Ys(h), i) <= h[i].y as real
  {
    if i > 1 {
      GlideFollows(h, i - 1);
    }
    if GoesDownwards(h) {
      assert h[i - 1].y >= h[i].y;
    }
    if GoesUpwards(h) {
      assert h[i - 1].y <= h[i].y;
    }
  }

  /** At constant width the tip moves as the path does. */
  lemma {:induction false} TipMovesAlong(h: seq<Sample>, i: nat)
    requires 0 < i < |h| && Straight(h)
    ensures TipHeight(h, i) - TipHeight(h, i - 1) == Lift(h, i)
  {
    GlideOfConstant(Ws(h), i);
    GlideOfConstant(Ws(h), i - 1);
  }

  lemma {:induction false} StraightSums(h: seq<Sample>, i: nat)
    requires i < |h| && Straight(h)
    ensures FallCount(h, i) == DropCount(Ys(h), 10.0, i) && FallSum(h, i) == Drops(Ys(h), 10.0, i)
    ensures RiseSum(h, i) == Climbs(Ys(h), 10.0, i)
  {
    if i > 0 {
      StraightSums(h, i - 1);
      TipMovesAlong(h, i);
    }
  }

  lemma VerticalLength(m: Trig, dy: real)
    requires SoundRoots(m)
    ensures Length(m, 0.0, dy) == RAbs(dy)
  {
    if dy != 0.0 {
      assert Opens(TrigKey);
      var square := 0.0 * 0.0 + dy * dy;
      assert square == RAbs(dy) * RAbs(dy);
      Positive(RAbs(dy), RAbs(dy));
      assert m.sqrt(square) >= 0.0 && m.sqrt(square) * m.sqrt(square) == square;
      SameSquare(m.sqrt(square), RAbs(dy));
    }
  }

  /** A vertical step longer than 5 goes to the fifth sector when it goes up, to the fourteenth when down. */
  lemma VerticalSector(m: Trig, h: seq<Sample>, b: int, i: nat)
    requires SoundRoots(m) && 0 < i < |h| && Straight(h) && 0 <= b < 18
    ensures InSector(m, h, b, i) <==> (b == 4 && Lift(h, i) > 5.0) || (b == 13 && Lift(h, i) < -5.0)
    ensures Length(m, (h[i].x - h[i - 1].x) as real, Lift(h, i)) == RAbs(Lift(h, i))
  {
    VerticalLength(m, Lift(h, i));
    assert h[i].x - h[i - 1].x == 0;
  }

  lemma {:induction false} StraightSectors(m: Trig, h: seq<Sample>, b: int, i: nat)
    requires SoundRoots(m) && i < |h| && Straight(h) && 0 <= b < 18
    ensures SectorSum(m, h, b, i) ==
      if b == 4 then Climbs(Ys(h), 5.0, i) else if b == 13 then Drops(Ys(h), 5.0, i) else 0.0
  {
    if i > 0 {
      StraightSectors(m, h, b, i - 1);
      VerticalSector(m, h, b, i);
    }
  }

  lemma {:induction false} DropsGrow(v: seq<int>, i: nat)
    requires i < |v|
    ensures 0.0 <= Drops(v, 10.0, i) <= Drops(v, 5.0, i) && 0.0 <= Climbs(v, 10.0, i) <= Climbs(v, 5.0, i)
  {
    if i > 0 {
      DropsGrow(v, i - 1);
    }
  }

  /** A path in one direction has no moves in the other. */
  lemma {:induction false} OneDirection(h: seq<Sample>, t: real, i: nat)
    requires i < |h| && t >= 0.0
    ensures GoesDownwards(h) ==> Climbs(Ys(h), t, i) == 0.0
    ensures GoesUpwards(h) ==> Drops(Ys(h), t, i) == 0.0 && DropCount(Ys(h), t, i) == 0
  {
    if i > 0 {
      OneDirection(h, t, i - 1);
      GlideFollows(h, i);
    }
  }

  /** Without motion in X every window and every one-way stretch is empty. */
  lemma {:induction false} StillWindow(h: seq<Sample>, w: int)
    requires Straight(h) && IsWindow(h, w)
    ensures w == 0
  {
    if |h| >= 5 {
      var k: nat :| IsWindowAt(h, w, k);
    }
  }

  lemma {:induction false} StillAcross(h: seq<Sample>, r: Reading)
    requires |h| >= 3 && Straight(h) && ReadsAcross(h, r)
    ensures r.window == 0 && r.edge == h[0].x && r.span == 0 && r.xGap == 0.0
  {
    StillWindow(h, r.window);
    StillGap(h);
    var a: nat, e: nat :| IsLongest(h, a, e) && r.edge == h[e].x && r.span == h[e].x - h[a].x;
    assert OneWay(h, a, e);
    assert h[e].x == h[0].x && h[a].x == h[0].x;
  }

  lemma {:induction false} StillGap(h: seq<Sample>)
    requires |h| >= 3 && Straight(h)
    ensures EndGap(Xs(h)) == 0.0
  {
    forall k | 0 <= k < |h| ensures Xs(h)[k] == h[0].x {
    }
  }

  /** What is read off a straight contact. */
  lemma {:induction false} StraightReading(m: Trig, h: seq<Sample>, r: Reading)
    requires |h| >= 3 && Straight(h) && Reads(m, h, r)
    ensures r.frames == |h| && r.window == 0 && r.edge == h[0].x && r.span == 0 && r.xGap == 0.0
    ensures r.falls == DropCount(Ys(h), 10.0, |h| - 1) && (r.late <==> DropsLate(Ys(h)))
    ensures r.fallSum == Drops(Ys(h), 10.0, |h| - 1) && r.riseSum == Climbs(Ys(h), 10.0, |h| - 1)
    ensures ReadsAround(m, h, r)
  {
    assert Opens(ReadKey);
    StraightSums(h, |h| - 1);
    StraightLate(h);
    StillAcross(h, r);
  }

  lemma {:induction false} StraightLate(h: seq<Sample>)
    requires |h| > 0 && Straight(h)
    ensures FallsLate(h) <==> DropsLate(Ys(h))
  {
    forall j | 0 <= j < |h| ensures FallCount(h, j) == DropCount(Ys(h), 10.0, j) {
      StraightSums(h, j);
    }
  }

  /** All lengths lie in one sector. */
  ghost predicate OnlySector(m: Trig, h: seq<Sample>, s: int, total: real)
    requires |h| > 0
  {
    0 <= s < 18 && total >= 0.0 && forall c :: 0 <= c < 18 ==> Sector(m, h, c) == if c == s then total else 0.0
  }

  /** Then it is the peak, unless there are no lengths, and nothing lies opposite to it. */
  lemma {:induction false} OnlySectorPeaks(m: Trig, h: seq<Sample>, s: int, total: real, b: int)
    requires |h| > 0 && OnlySector(m, h, s, total) && IsPeak(m, h, b)
    ensures Sector(m, h, b) == total && (total > 0.0 ==> b == s && BackSum(m, h, b) == 0.0)
  {
    assert Sector(m, h, s) <= Sector(m, h, b);
  }

  lemma {:induction false} FallSector(m: Trig, h: seq<Sample>)
    requires SoundRoots(m) && |h| > 0 && Straight(h) && GoesDownwards(h)
    ensures OnlySector(m, h, 13, Drops(Ys(h), 5.0, |h| - 1))
  {
    OneDirection(h, 5.0, |h| - 1);
    DropsGrow(Ys(h), |h| - 1);
    forall c | 0 <= c < 18 ensures Sector(m, h, c) == if c == 13 then Drops(Ys(h), 5.0, |h| - 1) else 0.0 {
      StraightSectors(m, h, c, |h| - 1);
    }
  }

  lemma {:induction false} RiseSector(m: Trig, h: seq<Sample>)
    requires SoundRoots(m) && |h| > 0 && Straight(h) && GoesUpwards(h)
    ensures OnlySector(m, h, 4, Climbs(Ys(h), 5.0, |h| - 1))
  {
    OneDirection(h, 5.0, |h| - 1);
    DropsGrow(Ys(h), |h| - 1);
    forall c | 0 <= c < 18 ensures Sector(m, h, c) == if c == 4 then Climbs(Ys(h), 5.0, |h| - 1) else 0.0 {
      StraightSectors(m, h, c, |h| - 1);
    }
  }

  lemma {:induction false} FallVerdict(h: seq<Sample>, r: Reading)
    requires |h| > 0 && r.frames == |h| && r.window == 0 && r.edge == h[0].x && r.span == 0 && r.xGap == 0.0
    requires r.falls == DropCount(Ys(h), 10.0, |h| - 1) && (r.late <==> DropsLate(Ys(h)))
    requires r.fallSum == Drops(Ys(h), 10.0, |h| - 1) && r.riseSum == 0.0 && r.length == Drops(Ys(h), 5.0, |h| - 1)
    ensures Verdict(r) == FallGesture(h)
  {
  }

  lemma {:induction false} RiseVerdict(h: seq<Sample>, r: Reading)
    requires |h| > 0 && r.frames == |h| && r.window == 0 && r.edge == h[0].x && r.span == 0 && r.xGap == 0.0
    requires r.falls == 0 && r.fallSum == 0.0 && r.riseSum == Climbs(Ys(h), 10.0, |h| - 1)
    requires r.length == Climbs(Ys(h), 5.0, |h| - 1) && (r.riseSum > 0.0 ==> r.back == 0.0)
    ensures Verdict(r) == RiseGesture(h)
  {
  }

  /** A contact straight down is answered as its drops tell. */
  lemma {:induction false} StraightFall(k: Kernel, m: Trig, h: seq<Sample>)
    requires Interprets(k, m) && SoundRoots(m) && |h| >= 3 && Straight(h) && GoesDownwards(h)
    ensures Answered(k, h) == FallGesture(h)
  {
    var r := ReadingExists(m, h);
    AnswerIsVerdict(k, m, h, r);
    StraightReading(m, h, r);
    OneDirection(h, 10.0, |h| - 1);
    FallSector(m, h);
    OnlySectorPeaks(m, h, 13, Drops(Ys(h), 5.0, |h| - 1), r.sector);
    FallVerdict(h, r);
  }

  /** A contact straight up is answered as its climbs tell. */
  lemma {:induction false} StraightRise(k: Kernel, m: Trig, h: seq<Sample>)
    requires Interprets(k, m) && SoundRoots(m) && |h| >= 3 && Straight(h) && GoesUpwards(h)
    ensures Answered(k, h) == RiseGesture(h)
  {
    var r := ReadingExists(m, h);
    AnswerIsVerdict(k, m, h, r);
    StraightReading(m, h, r);
    OneDirection(h, 10.0, |h| - 1);
    DropsGrow(Ys(h), |h| - 1);
    RiseSector(m, h);
    OnlySectorPeaks(m, h, 4, Climbs(Ys(h), 5.0, |h| - 1), r.sector);
    RiseVerdict(h, r);
  }

  // ---- strokes at constant height, whichever way they turn ----

  /** Total of the steps to the right longer than 5 into frames 1..i. */
  function RightSteps(h: seq<Sample>, i: nat): nat
    requires i < |h|
  {
    if i == 0 then 0 else RightSteps(h, i - 1) + if h[i].x > h[i - 1].x + 5 then h[i].x - h[i - 1].x else 0
  }

  function LeftSteps(h: seq<Sample>, i: nat): nat
    requires i < |h|
  {
    if i == 0 then 0 else LeftSteps(h, i - 1) + if h[i].x < h[i - 1].x - 5 then h[i - 1].x - h[i].x else 0
  }

  ghost predicate Level(h: seq<Sample>) {
    forall k :: 0 <= k < |h| ==> h[k].y == h[0].y
  }

  /** What a stroke at constant height is, by its strongest window and the X at which its longest one-way stretch
      ends. */
  function LevelGesture(h: seq<Sample>, window: int, edge: int): Gesture
    requires |h| >= 2
  {
    if window <= -66 then Left
    else if edge > 264 || window >= 99 then Right
    else if |h| <= 8 then (if RightSteps(h, |h| - 1) < 40 && LeftSteps(h, |h| - 1) < 40 then Tap else Left)
    else if EndGap(Xs(h)) <= 46.5 then Tap else Up
  }

  lemma {:induction false} LevelLift(h: seq<Sample>, i: nat)
    requires 0 < i < |h| && Level(h)
    ensures Lift(h, i) == 0.0
  {
    GlideOfConstant(Ys(h), i);
    GlideOfConstant(Ys(h), i - 1);
  }

  lemma {:induction false} LevelSums(h: seq<Sample>, i: nat)
    requires i < |h| && Level(h)
    ensures FallCount(h, i) == 0 && FallSum(h, i) == 0.0 && RiseSum(h, i) == 0.0
  {
    if i > 0 {
      LevelSums(h, i - 1);
      LevelLift(h, i);
    }
  }

  lemma LevelLength(m: Trig, dx: int)
    requires SoundRoots(m)
    ensures Length(m, dx as real, 0.0) == Abs(dx) as real
  {
    if dx != 0 {
      HorizontalLength(m, dx as real);
      assert Length(m, dx as real, 0.0) == Hypotenuse(m, dx as real, 0.0);
    }
  }

  /** A level step goes to the first sector when it goes right, to the ninth when left. */
  lemma LevelSector(m: Trig, x: real, b: int)
    requires SoundAngles(m) && 0 <= b < 18 && x != 0.0
    ensures 20.0 * b as real <= Heading(m, x, 0.0) < 20.0 * b as real + 20.0 <==> b == if x > 0.0 then 0 else 8
  {
    assert Opens(TrigKey);
    if x > 0.0 {
      assert m.atan2(0.0, x) == 0.0;
    } else {
      assert 3.14 < m.atan2(0.0, x) < 3.1416;
    }
  }

  lemma {:induction false} LevelSectors(m: Trig, h: seq<Sample>, b: int, i: nat)
    requires SoundAngles(m) && SoundRoots(m) && i < |h| && Level(h) && 0 <= b < 18
    ensures SectorSum(m, h, b, i) ==
      if b == 0 then RightSteps(h, i) as real else if b == 8 then LeftSteps(h, i) as real else 0.0
  {
    if i > 0 {
      LevelSectors(m, h, b, i - 1);
      LevelLift(h, i);
      var dx := h[i].x - h[i - 1].x;
      LevelLength(m, dx);
      if dx != 0 {
        LevelSector(m, dx as real, b);
      }
    }
  }

  lemma {:induction false} LevelPeak(m: Trig, h: seq<Sample>, b: int)
    requires SoundAngles(m) && SoundRoots(m) && |h| > 0 && Level(h) && IsPeak(m, h, b)
    ensures var right, left := RightSteps(h, |h| - 1), LeftSteps(h, |h| - 1);
      b <= 8 && Sector(m, h, b) == (if right >= left then right else left) as real
  {
    LevelSectors(m, h, 0, |h| - 1);
    LevelSectors(m, h, 8, |h| - 1);
    LevelSectors(m, h, b, |h| - 1);
    assert Sector(m, h, 0) <= Sector(m, h, b) && Sector(m, h, 8) <= Sector(m, h, b);
  }

  lemma {:induction false} LevelGap(h: seq<Sample>)
    requires |h| >= 2 && Level(h)
    ensures EndGap(Ys(h)) == 0.0
  {
    forall k | 0 <= k < |h| ensures Ys(h)[k] == h[0].y {
    }
  }

  /** What is read off a stroke at constant height. */
  lemma {:induction false} LevelReading(m: Trig, h: seq<Sample>, r: Reading, window: int, a: nat, e: nat)
    requires SoundAngles(m) && SoundRoots(m) && |h| >= 3 && Level(h) && Reads(m, h, r)
    requires IsWindow(h, window) && IsLongest(h, a, e)
    ensures r.frames == |h| && r.window == window && r.edge == h[e].x && r.xGap == EndGap(Xs(h)) && r.yGap == 0.0
    ensures r.falls == 0 && r.fallSum == 0.0 && r.riseSum == 0.0 && r.sector <= 8
    ensures var right, left := RightSteps(h, |h| - 1), LeftSteps(h, |h| - 1);
      r.length == (if right >= left then right else left) as real
  {
    assert Opens(ReadKey);
    LevelSums(h, |h| - 1);
    LevelGap(h);
    LevelPeak(m, h, r.sector);
    SameAcross(h, r, window, a, e);
  }

  lemma {:induction false} SameAcross(h: seq<Sample>, r: Reading, window: int, a: nat, e: nat)
    requires |h| >= 3 && ReadsAcross(h, r) && IsWindow(h, window) && IsLongest(h, a, e)
    ensures r.window == window && r.edge == h[e].x
  {
    WindowIsTrigger(h, window);
    LongestIsLr(h, a, e);
    HorizontalReadings(h, r);
    assert r.window as real == window as real by {
      WindowIsTrigger(h, r.window);
    }
  }

  lemma LevelVerdict(h: seq<Sample>, r: Reading, window: int, edge: int, right: nat, left: nat)
    requires |h| >= 3 && right == RightSteps(h, |h| - 1) && left == LeftSteps(h, |h| - 1)
    requires r.frames == |h| && r.window == window && r.edge == edge && r.xGap == EndGap(Xs(h)) && r.yGap == 0.0
    requires r.falls == 0 && r.fallSum == 0.0 && r.riseSum == 0.0 && r.sector <= 8
    requires r.length == (if right >= left then right else left) as real
    ensures Verdict(r) == LevelGesture(h, window, edge)
  {
  }

  /** A stroke at constant height is answered by its strongest window and its longest one-way stretch, whichever way
      it turns. */
  lemma {:induction false} LevelStroke(k: Kernel, m: Trig, h: seq<Sample>, window: int, a: nat, e: nat)
    requires Interprets(k, m) && SoundRoots(m) && |h| >= 3 && Level(h)
    requires IsWindow(h, window) && IsLongest(h, a, e)
    ensures Answered(k, h) == LevelGesture(h, window, h[e].x)
  {
    KernelSound(k, m);
    var r := ReadingExists(m, h);
    AnswerIsVerdict(k, m, h, r);
    LevelReading(m, h, r, window, a, e);
    LevelVerdict(h, r, window, h[e].x, RightSteps(h, |h| - 1), LeftSteps(h, |h| - 1));
  }

  // ---- what is emitted ----

  /** The gesture of any contact long enough for one and too short for the pointer is the verdict on its reading. */
  lemma {:induction false} VerdictEmits(k: Kernel, m: Trig, s: Contact, cs: seq<Sample>, lift: Sample, r: Reading)
    requires Interprets(k, m) && Gestures(s, cs, lift) && Reads(m, Downs(cs), r)
    ensures Emitted(k, s, cs, lift) == Verdict(r)
  {
    KernelAnswers(k, m);
    LiftAnswers(k, s, cs, lift);
    AnswerIsVerdict(k, m, Downs(cs), r);
  }

  lemma {:induction false} FallEmits(k: Kernel, m: Trig, s: Contact, cs: seq<Sample>, lift: Sample)
    requires Interprets(k, m) && SoundRoots(m) && Gestures(s, cs, lift)
    requires Straight(Downs(cs)) && GoesDownwards(Downs(cs))
    ensures Emitted(k, s, cs, lift) == FallGesture(Downs(cs))
  {
    KernelAnswers(k, m);
    LiftAnswers(k, s, cs, lift);
    StraightFall(k, m, Downs(cs));
  }

  lemma {:induction false} RiseEmits(k: Kernel, m: Trig, s: Contact, cs: seq<Sample>, lift: Sample)
    requires Interprets(k, m) && SoundRoots(m) && Gestures(s, cs, lift)
    requires Straight(Downs(cs)) && GoesUpwards(Downs(cs))
    ensures Emitted(k, s, cs, lift) == RiseGesture(Downs(cs))
  {
    KernelAnswers(k, m);
    LiftAnswers(k, s, cs, lift);
    StraightRise(k, m, Downs(cs));
  }

  lemma {:induction false} LevelEmits(k: Kernel, m: Trig, s: Contact, cs: seq<Sample>, lift: Sample,
                                      window: int, a: nat, e: nat)
    requires Interprets(k, m) && SoundRoots(m) && Gestures(s, cs, lift) && Level(Downs(cs))
    requires IsWindow(Downs(cs), window) && IsLongest(Downs(cs), a, e)
    ensures Emitted(k, s, cs, lift) == LevelGesture(Downs(cs), window, Downs(cs)[e].x)
  {
    KernelAnswers(k, m);
    LiftAnswers(k, s, cs, lift);
    LevelStroke(k, m, Downs(cs), window, a, e);
  }

  // ---- inputs ----

  /** One frame of the path, for those that count drops by hand. */
  lemma {:induction false} NextDrop(v: seq<int>, i: nat)
    requires 0 < i < |v|
    ensures Glide(v, 0) == v[0] as real && Glide(v, i) == (Glide(v, i - 1) + v[i] as real) / 2.0
    ensures Drops(v, 10.0, 0) == Climbs(v, 10.0, 0) == 0.0 && DropCount(v, 10.0, 0) == 0
    ensures var d := Glide(v, i - 1) - Glide(v, i);
      && Drops(v, 10.0, i) == Drops(v, 10.0, i - 1) + (if d > 10.0 then d else 0.0)
      && DropCount(v, 10.0, i) == DropCount(v, 10.0, i - 1) + (if d > 10.0 then 1 else 0)
      && Climbs(v, 10.0, i) == Climbs(v, 10.0, i - 1) + (if -d > 10.0 then -d else 0.0)
  {
  }

  /** Five frames straight down, by 100 each: DOWN. */
  lemma {:induction false} HundredsFall(k: Kernel, m: Trig, h: seq<Sample>)
    requires Interprets(k, m) && SoundRoots(m) && |h| == 5 && Straight(h) && h[0].x <= 264
    requires forall i :: 0 <= i < 5 ==> h[i].y == 400 - 100 * i
    ensures Answered(k, h) == Down
  {
    var v := Ys(h);
    NextDrop(v, 1);
    NextDrop(v, 2);
    NextDrop(v, 3);
    NextDrop(v, 4);
    assert Glide(v, 0) == 400.0 && Glide(v, 1) == 350.0 && Glide(v, 2) == 275.0 && Glide(v, 3) == 187.5;
    assert Drops(v, 10.0, 4) == 306.25;
    assert DropCount(v, 10.0, 2) == 2 && DropCount(v, 10.0, 4) == 4;
    StraightFall(k, m, h);
  }

  /** Five frames straight up, by 100 each: UP. */
  lemma {:induction false} HundredsRise(k: Kernel, m: Trig, h: seq<Sample>)
    requires Interprets(k, m) && SoundRoots(m) && |h| == 5 && Straight(h) && h[0].x <= 264
    requires forall i :: 0 <= i < 5 ==> h[i].y == 100 * i
    ensures Answered(k, h) == Up
  {
    var v := Ys(h);
    NextDrop(v, 1);
    NextDrop(v, 2);
    NextDrop(v, 3);
    NextDrop(v, 4);
    assert Glide(v, 0) == 0.0 && Glide(v, 1) == 50.0 && Glide(v, 2) == 125.0 && Glide(v, 3) == 212.5;
    assert Climbs(v, 10.0, 4) == 306.25;
    StraightRise(k, m, h);
  }

  lemma {:induction false} StillStart(v: seq<int>, i: nat)
    requires i < |v| && forall k :: 0 <= k <= i ==> v[k] == v[0]
    ensures Glide(v, i) == v[0] as real && Drops(v, 10.0, i) == 0.0 && DropCount(v, 10.0, i) == 0
  {
    if i > 0 {
      StillStart(v, i - 1);
    }
  }

  /** Twenty frames of which the last four go straight down, by 100 each: UP, for half of the drops come after three
      quarters of the contact. */
  lemma {:induction false} LateFallIsUp(k: Kernel, m: Trig, h: seq<Sample>)
    requires Interprets(k, m) && SoundRoots(m) && |h| == 20 && Straight(h) && h[0].x <= 264
    requires forall i :: 0 <= i < 20 ==> h[i].y == if i < 16 then 1000 else 1000 - 100 * (i - 15)
    ensures GoesDownwards(h) && Answered(k, h) == Up
  {
    var v := Ys(h);
    LateDrops(v);
    forall j | 0 <= j <= 15 ensures DropCount(v, 10.0, j) == 0 {
      StillStart(v, j);
    }
    StraightFall(k, m, h);
  }

  lemma {:induction false} LateDrops(v: seq<int>)
    requires |v| == 20 && forall i :: 0 <= i < 20 ==> v[i] == if i < 16 then 1000 else 1000 - 100 * (i - 15)
    ensures Drops(v, 10.0, 19) == 306.25 && DropCount(v, 10.0, 19) == 4
  {
    StillStart(v, 15);
    NextDrop(v, 16);
    NextDrop(v, 17);
    NextDrop(v, 18);
    NextDrop(v, 19);
    assert Glide(v, 16) == 950.0 && Glide(v, 17) == 875.0 && Glide(v, 18) == 787.5 && Glide(v, 19) == 693.75;
    assert Drops(v, 10.0, 17) == 125.0 && DropCount(v, 10.0, 17) == 2;
  }

  /** Four frames at X = 240, 255, 270, 255: RIGHT, for the stretch to the right ends beyond 264, though the last
      frame does not. */
  lemma {:induction false} TurnBackIsRight(k: Kernel, m: Trig, h: seq<Sample>)
    requires Interprets(k, m) && SoundRoots(m) && |h| == 4 && Level(h)
    requires h[0].x == 240 && h[1].x == 255 && h[2].x == 270 && h[3].x == 255
    ensures Answered(k, h) == Right
  {
    TurnBackEnds(h);
    LevelStroke(k, m, h, 0, 0, 2);
  }

  lemma {:induction false} TurnBackEnds(h: seq<Sample>)
    requires |h| == 4 && h[0].x == 240 && h[1].x == 255 && h[2].x == 270 && h[3].x == 255
    ensures IsLongest(h, 0, 2)
  {
    assert OneWay(h, 0, 2);
    forall b: nat, f: nat | OneWay(h, b, f)
      ensures var other := h[f].x - h[b].x;
        Abs(other) <= 30 && (Abs(other) == 30 ==> 30 <= other) && (other == 30 ==> f <= 2)
    {
    }
  }
}
