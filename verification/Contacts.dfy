/** What whole contacts are recognized as: theorems through every stage from samples to gesture. */
module Contacts {
  import opened Unipoint
  import opened Signal
  import opened Trends
  import opened Runs
  import opened Windows
  import opened Slots
  import opened Histogram
  import opened Peaks
  import opened DecisionTree
  import opened Recognizer

  /** The feature vector the tree decides on. */
  function FeaturesOf(m: Trig, h: seq<Sample>): Features
    requires |h| >= 3
  {
    Motion(h).(peaks := PeaksIn(m, h))
  }

  /** The greatest raw bin of a contact, folded. */
  ghost predicate PeakIs(m: Trig, h: seq<Sample>, peak: real)
    requires |h| > 0
  {
    forall key {:trigger Opens(key)} :: Opens(key) && key == PeakKey ==> PeaksIn(m, h).angleMagMax == peak
  }

  /** What the recognizer answers when a contact has been filtered. */
  function Answered(k: Kernel, h: seq<Sample>): Gesture {
    k.answer(k.memoryOf(h))
  }

  ghost predicate NonIncreasing(h: seq<Sample>, axis: Axis) {
    forall j, k :: 0 <= j <= k < |h| ==> Raw(h[j], axis) >= Raw(h[k], axis)
  }

  lemma {:induction false} PeakIsBin(m: Trig, h: seq<Sample>, top: nat, peak: real)
    requires |h| > 0 && top == ArgMax(RawHistogram(Steps(m, h)), ANGLE_BINS)
    requires BinSum(Steps(m, h), AllFrames, top, |h| - 1) == peak
    ensures PeakIs(m, h, peak)
  {
  }

  // ---- contacts that move along X only ----

  /** Some three-step window of the contact moves right by at least t. */
  ghost predicate SweepsRight(h: seq<Sample>, t: int) {
    exists k: nat :: 1 <= k && k + 3 < |h| && Xs(h)[k + 3] - Xs(h)[k] >= t
  }

  ghost predicate SweepsLeft(h: seq<Sample>, t: int) {
    exists k: nat :: 1 <= k && k + 3 < |h| && Xs(h)[k] - Xs(h)[k + 3] >= t
  }

  lemma XsRise(h: seq<Sample>)
    requires |h| > 0
    ensures NonDecreasing(h, AxisX) ==> Rises(Xs(h), 0, |h| - 1)
    ensures NonIncreasing(h, AxisX) ==> Falls(Xs(h), 0, |h| - 1)
  {
    if NonDecreasing(h, AxisX) {
      forall j, k | 0 <= j <= k <= |h| - 1 ensures Xs(h)[j] <= Xs(h)[k] {
        assert Raw(h[j], AxisX) <= Raw(h[k], AxisX);
      }
    }
    if NonIncreasing(h, AxisX) {
      forall j, k | 0 <= j <= k <= |h| - 1 ensures Xs(h)[j] >= Xs(h)[k] {
        assert Raw(h[j], AxisX) >= Raw(h[k], AxisX);
      }
    }
  }

  /** Constant Y leaves every trend feature empty. */
  lemma {:induction false} FlatTrends(h: seq<Sample>)
    requires |h| >= 3 && Constant(h, AxisY)
    ensures Motion(h).trends == Tallies(0, 0, 0, |h| - 1, 0.0, 0.0, 0.0)
    ensures Motion(h).slots.downCode == 0
  {
    ConstantYOnlyOpposes(h, |h| - 1);
    SlotNeedsFour(h, Falling);
  }

  /** What is neither flicked nor raised nor at the edge is told apart by its length. */
  function SlowGesture(frames: nat, angleMagMax: real, xClosure: real): Gesture {
    if frames <= 8 then (if angleMagMax <= 39.266991 then Tap else Left)
    else if xClosure <= 46.5 then Tap else Up
  }

  /** The tree on a contact without any falling frame. */
  lemma DecisionWithoutFall(f: Features)
    requires f.trends.down == 0 && f.trends.downDist == 0.0 && f.slots.downCode == 0
    ensures Decision(f) == Down <==> FlickedLeft(f) && (f.peaks.weightedPeakAngle > 250.0 || f.yClosure > 430.75)
    ensures Decision(f) == Right <==>
      !FlickedLeft(f) && (AtRightEdge(f) || (!Raised(f) && f.lr.velTrig > 32.666668))
    ensures Decision(f) == Left <==>
      || (FlickedLeft(f) && f.peaks.weightedPeakAngle <= 250.0 && f.yClosure <= 430.75)
      || (Quiet(f) && f.frameCount <= 8 && f.peaks.angleMagMax > 39.266991)
    ensures !Raised(f) && !FlickedLeft(f) && Decision(f) != Right ==>
      Decision(f) == SlowGesture(f.frameCount, f.peaks.angleMagMax, f.xClosure)
  {
    RegionsPartition(f);
  }

  lemma {:induction false} RiseFeatures(h: seq<Sample>)
    requires |h| >= 3 && NonDecreasing(h, AxisX)
    ensures LrOf(h).maxEX == h[|h| - 1].x && LrOf(h).maxTrend == h[|h| - 1].x - h[0].x
    ensures LrOf(h).velTrig >= 0.0
    ensures LrOf(h).velTrig > 32.666668 <==> SweepsRight(h, 99)
  {
    var xs := Xs(h);
    XsRise(h);
    RiseIsDominant(xs);
    RiseTriggers(xs, 99);
  }

  /** The tree on the features of a stroke at constant height. */
  lemma StrokeDecision(f: Features)
    requires f.trends.down == 0 && f.trends.downDist == 0.0 && f.trends.upDist == 0.0 && f.slots.downCode == 0
    requires f.lr.velTrig > -22.0 || (f.peaks.weightedPeakAngle <= 170.0 && f.yClosure == 0.0)
    ensures Decision(f) ==
      if f.lr.velTrig <= -22.0 then Left
      else if f.lr.maxEX > 264 || f.lr.velTrig > 32.666668 then Right
      else SlowGesture(f.frameCount, f.peaks.angleMagMax, f.xClosure)
  {
    DecisionWithoutFall(f);
  }

  /** The tree on a rightward stroke at constant height, down to the peak. */
  lemma {:induction false} RightByPeak(k: Kernel, m: Trig, h: seq<Sample>, peak: real)
    requires Interprets(k, m) && |h| >= 3 && Constant(h, AxisY) && NonDecreasing(h, AxisX) && PeakIs(m, h, peak)
    ensures Answered(k, h) ==
      if h[|h| - 1].x > 264 || SweepsRight(h, 99) then Right
      else SlowGesture(|h|, peak, Closure(h, AxisX))
  {
    KernelRecognizes(k, m, h);
    assert Opens(PeakKey);
    FlatTrends(h);
    RiseFeatures(h);
    StrokeDecision(FeaturesOf(m, h));
  }

  lemma {:induction false} ClosureOfConstant(h: seq<Sample>, axis: Axis, e: nat)
    requires e <= |h| && |h| > 0 && Constant(h, axis)
    ensures FirstSum(h, axis, e) == LastSum(h, axis, e)
  {
    if e > 0 {
      ClosureOfConstant(h, axis, e - 1);
    }
  }

  lemma ConstantCloses(h: seq<Sample>, axis: Axis)
    requires |h| >= 2 && Constant(h, axis)
    ensures Closure(h, axis) == 0.0
  {
    ClosureOfConstant(h, axis, Ends(|h|));
  }

  lemma {:induction false} FallFeatures(h: seq<Sample>)
    requires |h| >= 3 && NonIncreasing(h, AxisX)
    ensures LrOf(h).maxEX == h[|h| - 1].x && LrOf(h).maxTrend == h[|h| - 1].x - h[0].x
    ensures LrOf(h).velTrig <= 0.0
    ensures LrOf(h).velTrig <= -22.0 <==> SweepsLeft(h, 66)
  {
    var xs := Xs(h);
    XsRise(h);
    FallIsDominant(xs);
    FallTriggers(xs, 66);
  }

  /** The tree on a leftward stroke at constant height, down to the peak. */
  lemma {:induction false} LeftByPeak(k: Kernel, m: Trig, h: seq<Sample>, peak: real)
    requires Interprets(k, m) && |h| >= 3 && Constant(h, AxisY) && NonIncreasing(h, AxisX) && PeakIs(m, h, peak)
    ensures Answered(k, h) ==
      if SweepsLeft(h, 66) then Left
      else if h[|h| - 1].x > 264 then Right
      else SlowGesture(|h|, peak, Closure(h, AxisX))
  {
    KernelRecognizes(k, m, h);
    KernelSound(k, m);
    assert Opens(PeakKey);
    FlatTrends(h);
    FallFeatures(h);
    ConstantIsRise(h);
    RisePeakAngle(m, h);
    ConstantCloses(h, AxisY);
    StrokeDecision(FeaturesOf(m, h));
  }

  lemma ConstantIsRise(h: seq<Sample>)
    requires Constant(h, AxisY)
    ensures NonDecreasing(h, AxisY)
  {
  }

  // ---- the peak of a horizontal stroke ----

  /** Total length of the steps into frames 1..i that are longer than noise. */
  function Coarse(h: seq<Sample>, i: nat): nat
    requires i < |h|
  {
    if i == 0 then 0 else Coarse(h, i - 1) + if Abs(DX(h, i)) > 5 then Abs(DX(h, i)) else 0
  }

  lemma Positive(x: real, y: real)
    requires x > 0.0 && y > 0.0
    ensures x * y > 0.0
  {
  }

  lemma Below(r: real, v: real)
    requires 0.0 <= r < v
    ensures r * r < v * v
  {
    Positive(v - r, v + r);
    assert (v - r) * (v + r) == v * v - r * r;
  }

  lemma SameSquare(r: real, v: real)
    requires r >= 0.0 && v >= 0.0 && r * r == v * v
    ensures r == v
  {
    if r < v {
      Below(r, v);
    } else if v < r {
      Below(v, r);
    }
  }

  lemma HorizontalLength(m: Trig, dx: real)
    requires SoundRoots(m) && dx != 0.0
    ensures Hypotenuse(m, dx, 0.0) == RAbs(dx)
  {
    assert Opens(TrigKey);
    var square := dx * dx + 0.0 * 0.0;
    assert square == RAbs(dx) * RAbs(dx);
    Positive(RAbs(dx), RAbs(dx));
    assert m.sqrt(square) >= 0.0 && m.sqrt(square) * m.sqrt(square) == square;
    SameSquare(m.sqrt(square), RAbs(dx));
  }

  /** A horizontal step counts with its own length, in the first bin when it goes right, in the ninth when left. */
  lemma HorizontalStep(m: Trig, dx: int)
    requires SoundAngles(m) && SoundRoots(m)
    ensures StepMagnitude(m, dx as real, 0.0) == if Abs(dx) > 5 then Abs(dx) as real else 0.0
    ensures dx >= 0 ==> Bin(StepAngle(m, dx as real, 0.0)) == 0
    ensures dx < -5 ==> Bin(StepAngle(m, dx as real, 0.0)) == 8
  {
    if dx != 0 {
      HorizontalLength(m, dx as real);
    }
    if dx > 0 {
      assert Opens(TrigKey);
      assert m.atan2(0.0, dx as real) == 0.0;
    }
    if dx < -5 {
      assert Opens(TrigKey);
      assert 3.14 < m.atan2(0.0, dx as real) < 3.1416;
      assert 160.0 <= StepDegrees(m, dx as real, 0.0) < 180.0;
    }
  }

  /** When all steps of any length fall in one bin, it holds the whole path. */
  lemma {:induction false} OneBin(steps: seq<Step>, b: int, c: int, i: nat)
    requires i < |steps| && forall k :: 0 < k <= i ==> Bin(steps[k].angle) == b || steps[k].magnitude == 0.0
    ensures BinSum(steps, AllFrames, c, i) == if c == b then MagSum(steps, AllFrames, i) else 0.0
  {
    if i > 0 {
      OneBin(steps, b, c, i - 1);
    }
  }

  lemma {:induction false} CoarseIsPath(m: Trig, h: seq<Sample>, i: nat)
    requires SoundAngles(m) && SoundRoots(m) && i < |h| && Constant(h, AxisY)
    ensures MagSum(Steps(m, h), AllFrames, i) == Coarse(h, i) as real
  {
    if i > 0 {
      CoarseIsPath(m, h, i - 1);
      ConstantYOnlyOpposes(h, i);
      HorizontalStep(m, DX(h, i));
    }
  }

  /** So the peak of a stroke in one direction is its length without the noise. */
  lemma {:induction false} StrokePeak(m: Trig, h: seq<Sample>)
    requires SoundAngles(m) && SoundRoots(m) && |h| >= 3 && Constant(h, AxisY)
    requires NonDecreasing(h, AxisX) || NonIncreasing(h, AxisX)
    ensures PeakIs(m, h, Coarse(h, |h| - 1) as real)
  {
    var steps, n := Steps(m, h), |h| - 1;
    var raw := RawHistogram(steps);
    var b := if NonDecreasing(h, AxisX) then 0 else 8;
    forall i | 0 < i <= n ensures Bin(steps[i].angle) == b || steps[i].magnitude == 0.0 {
      ConstantYOnlyOpposes(h, i);
      HorizontalStep(m, DX(h, i));
      StepGoesWithStroke(h, i);
    }
    CoarseIsPath(m, h, n);
    var top := ArgMax(raw, ANGLE_BINS);
    OneBin(steps, b, b, n);
    OneBin(steps, b, top, n);
    ArgMaxIsFirstGreatest(raw, ANGLE_BINS, b);
  }

  lemma StepGoesWithStroke(h: seq<Sample>, i: nat)
    requires 0 < i < |h|
    ensures NonDecreasing(h, AxisX) ==> DX(h, i) >= 0
    ensures NonIncreasing(h, AxisX) ==> DX(h, i) <= 0
  {
    if NonDecreasing(h, AxisX) {
      assert Raw(h[i - 1], AxisX) <= Raw(h[i], AxisX);
    }
    if NonIncreasing(h, AxisX) {
      assert Raw(h[i - 1], AxisX) >= Raw(h[i], AxisX);
    }
  }

  // ---- horizontal strokes on their samples ----

  /** What a horizontal stroke without a flick is: up to eight frames a TAP, or LEFT from 40 units of steps
      longer than noise on; later a TAP when its ends are close, else UP. */
  function Unflicked(h: seq<Sample>): Gesture
    requires |h| >= 2
  {
    if |h| <= 8 then (if Coarse(h, |h| - 1) < 40 then Tap else Left)
    else if Closure(h, AxisX) <= 46.5 then Tap else Up
  }

  /** A rightward stroke at constant height is RIGHT exactly when it ends beyond X = 264 or
      covers 99 units in some three steps after the first; otherwise its length and coarseness decide. */
  lemma RightStroke(k: Kernel, m: Trig, h: seq<Sample>)
    requires Interprets(k, m) && SoundRoots(m) && |h| >= 3 && Constant(h, AxisY) && NonDecreasing(h, AxisX)
    ensures Answered(k, h) == if h[|h| - 1].x > 264 || SweepsRight(h, 99) then Right else Unflicked(h)
  {
    KernelSound(k, m);
    StrokePeak(m, h);
    RightByPeak(k, m, h, Coarse(h, |h| - 1) as real);
  }

  /** A leftward stroke at constant height is LEFT when it covers 66 units in some three steps after the first;
      otherwise RIGHT when it ends beyond X = 264, or else as its length and coarseness decide. */
  lemma LeftStroke(k: Kernel, m: Trig, h: seq<Sample>)
    requires Interprets(k, m) && SoundRoots(m) && |h| >= 3 && Constant(h, AxisY) && NonIncreasing(h, AxisX)
    ensures Answered(k, h) ==
      if SweepsLeft(h, 66) then Left else if h[|h| - 1].x > 264 then Right else Unflicked(h)
  {
    KernelSound(k, m);
    StrokePeak(m, h);
    LeftByPeak(k, m, h, Coarse(h, |h| - 1) as real);
  }

  /** A rightward stroke can be taken for LEFT: exactly when it is short and coarse, without a sweep, and ends
      by X = 264. */
  lemma RightwardReadsLeft(k: Kernel, m: Trig, h: seq<Sample>)
    requires Interprets(k, m) && SoundRoots(m) && |h| >= 3 && Constant(h, AxisY) && NonDecreasing(h, AxisX)
    ensures Answered(k, h) == Left <==>
      h[|h| - 1].x <= 264 && !SweepsRight(h, 99) && |h| <= 8 && Coarse(h, |h| - 1) >= 40
  {
    RightStroke(k, m, h);
  }

  /** Five frames at X = 0, 20, 40, 60, 80 are taken for LEFT. */
  lemma TwentiesReadLeft(k: Kernel, m: Trig, h: seq<Sample>)
    requires Interprets(k, m) && SoundRoots(m) && |h| == 5 && Constant(h, AxisY)
    requires forall i :: 0 <= i < 5 ==> h[i].x == 20 * i
    ensures NonDecreasing(h, AxisX) && Answered(k, h) == Left
  {
    assert Coarse(h, 0) == 0 && Coarse(h, 1) == 20 && Coarse(h, 2) == 40 && Coarse(h, 3) == 60;
    RightwardReadsLeft(k, m, h);
  }

  // ---- contacts that move up ----

  /** A contact whose Y never decreases has empty falling features. */
  lemma {:induction false} RiseLeavesFallEmpty(h: seq<Sample>)
    requires |h| >= 3 && NonDecreasing(h, AxisY)
    ensures TalliesAt(h, |h| - 1).down == 0 && TalliesAt(h, |h| - 1).downDist == 0.0
    ensures SlotCode(h, Falling) == 0
  {
    RiseNeverFalls(h, |h| - 1);
    SlotNeedsFour(h, Falling);
  }

  /** Steps that do not go down point to the upper half turn, so the histogram peaks in its first half. */
  lemma {:induction false} RisePeakAngle(m: Trig, h: seq<Sample>)
    requires SoundAngles(m) && |h| >= 3 && NonDecreasing(h, AxisY)
    ensures PeaksIn(m, h).weightedPeakAngle <= 170.0
  {
    var steps := Steps(m, h);
    forall i | 0 < i < |h| ensures 0.0 <= steps[i].angle < 180.0 {
      FilterFollowsRise(h, i);
      RisingAngle(m, DX(h, i) as real, DY(h, i));
    }
    StepsInRange(m, h);
    RawConserves(steps);
    var raw := RawHistogram(steps);
    UpperBinsEmpty(steps, ArgMax(raw, ANGLE_BINS), |h| - 1);
    ArgMaxIsFirstGreatest(raw, ANGLE_BINS, 0);
  }

  lemma RisingAngle(m: Trig, dx: real, dy: real)
    requires SoundAngles(m) && dy >= 0.0
    ensures 0.0 <= StepAngle(m, dx, dy) < 180.0
  {
    assert Opens(TrigKey);
    assert 0.0 <= m.atan2(dy, dx) < 3.1416;
  }

  lemma {:induction false} UpperBinsEmpty(steps: seq<Step>, b: int, i: nat)
    requires i < |steps| && forall k :: 0 < k <= i ==> 0.0 <= steps[k].angle < 180.0
    ensures b >= 9 ==> BinSum(steps, AllFrames, b, i) == 0.0
  {
    if i > 0 {
      UpperBinsEmpty(steps, b, i - 1);
    }
  }

  lemma TriggerScales(h: seq<Sample>)
    requires |h| > 0
    ensures VelTrig(h) <= -22.0 <==> Trigger(Xs(h)) <= -66
  {
  }

  /** So it is DOWN exactly when its strongest window goes left by 66 units and its ends lie far apart in Y. */
  lemma {:induction false} RiseIsDown(k: Kernel, m: Trig, h: seq<Sample>)
    requires Interprets(k, m) && |h| >= 3 && NonDecreasing(h, AxisY)
    ensures Answered(k, h) == Down <==> Trigger(Xs(h)) <= -66 && Closure(h, AxisY) > 430.75
  {
    KernelRecognizes(k, m, h);
    KernelSound(k, m);
    RiseLeavesFallEmpty(h);
    RisePeakAngle(m, h);
    TriggerScales(h);
    DecisionWithoutFall(FeaturesOf(m, h));
  }

  // ---- contacts that do not move ----

  lemma {:induction false} StillBinsEmpty(m: Trig, h: seq<Sample>, b: int, i: nat)
    requires i < |h| && Constant(h, AxisX) && Constant(h, AxisY)
    ensures BinSum(Steps(m, h), AllFrames, b, i) == 0.0
  {
    if i > 0 {
      StillBinsEmpty(m, h, b, i - 1);
      ConstantYOnlyOpposes(h, i);
      assert Raw(h[i], AxisX) == Raw(h[0], AxisX) == Raw(h[i - 1], AxisX);
      assert Magnitude(m, h, i) == 0.0;
    }
  }

  lemma {:induction false} StillPeak(m: Trig, h: seq<Sample>)
    requires |h| >= 3 && Constant(h, AxisX) && Constant(h, AxisY)
    ensures PeakIs(m, h, 0.0)
  {
    var top := ArgMax(RawHistogram(Steps(m, h)), ANGLE_BINS);
    StillBinsEmpty(m, h, top, |h| - 1);
    PeakIsBin(m, h, top, 0.0);
  }

  /** A finger that does not move is a TAP, whatever its width and pressure do; right of X = 264 it is a RIGHT. */
  lemma StillContact(k: Kernel, m: Trig, h: seq<Sample>)
    requires Interprets(k, m) && |h| >= 3 && Constant(h, AxisX) && Constant(h, AxisY)
    ensures Answered(k, h) == if h[0].x <= 264 then Tap else Right
  {
    StillPeak(m, h);
    RightByPeak(k, m, h, 0.0);
    ConstantCloses(h, AxisX);
    forall k | 0 <= k < |h| ensures Xs(h)[k] == h[0].x {
      assert Raw(h[k], AxisX) == Raw(h[0], AxisX);
    }
  }
}
