/** The longest left and right runs of a contact: one pass over the steps against all segments. */
module Runs {
  import opened Unipoint
  import opened Signal

  /** A stretch of X ending at frame `end`: it covers `time` steps and moves by `dist`. */
  datatype Run = Run(dist: int, end: nat, time: nat)

  function Xs(h: seq<Sample>): (xs: seq<int>)
    ensures |xs| == |h| && forall k :: 0 <= k < |h| ==> xs[k] == h[k].x
  {
    seq(|h|, k requires 0 <= k < |h| => h[k].x)
  }

  function Negate(xs: seq<int>): (ys: seq<int>)
    ensures |ys| == |xs| && forall k :: 0 <= k < |xs| ==> ys[k] == -xs[k]
  {
    seq(|xs|, k requires 0 <= k < |xs| => -xs[k])
  }

  /** Steps in the rising run that ends at frame b, counted from its first strict rise. */
  function Climb(xs: seq<int>, b: nat): (t: nat)
    requires b < |xs|
    ensures t <= b
  {
    if b == 0 || xs[b] < xs[b - 1] then 0
    else if xs[b] > xs[b - 1] || Climb(xs, b - 1) > 0 then Climb(xs, b - 1) + 1
    else 0
  }

  function Gain(xs: seq<int>, b: nat): int
    requires b < |xs|
  {
    xs[b] - xs[b - Climb(xs, b)]
  }

  /** The rising run of greatest gain among those ending at frames 0..b, the latest of equals. */
  function BestClimb(xs: seq<int>, b: nat): Run
    requires b < |xs|
  {
    if b == 0 then Run(0, 0, 0)
    else
      var prev := BestClimb(xs, b - 1);
      if Gain(xs, b) >= prev.dist then Run(Gain(xs, b), b, Climb(xs, b)) else prev
  }

  /** The longer of the best rightward and the best leftward run. */
  function Dominant(xs: seq<int>): Run
    requires |xs| > 0
  {
    var right := BestClimb(xs, |xs| - 1);
    var left := BestClimb(Negate(xs), |xs| - 1);
    if right.dist > left.dist then right else Run(-left.dist, left.end, left.time)
  }

  // ---- the quadratic reading ----

  ghost predicate Rises(xs: seq<int>, a: nat, b: nat)
    requires a <= b < |xs|
  {
    forall j, k :: a <= j <= k <= b ==> xs[j] <= xs[k]
  }

  lemma {:induction false} ClimbRises(xs: seq<int>, b: nat)
    requires b < |xs|
    ensures Rises(xs, b - Climb(xs, b), b)
    ensures Climb(xs, b) > 0 ==> xs[b - Climb(xs, b)] < xs[b - Climb(xs, b) + 1]
    ensures Gain(xs, b) >= 0 && (Gain(xs, b) == 0 <==> Climb(xs, b) == 0)
  {
    if b > 0 {
      ClimbRises(xs, b - 1);
    }
  }

  /** No rising segment ending at b gains more than the run the scan tracks. */
  lemma {:induction false} ClimbIsLongest(xs: seq<int>, a: nat, b: nat)
    requires a <= b < |xs| && Rises(xs, a, b)
    ensures xs[b] - xs[a] <= Gain(xs, b)
  {
    ClimbRises(xs, b);
    if a < b {
      ClimbIsLongest(xs, a, b - 1);
      ClimbRises(xs, b - 1);
      assert xs[b - 1] <= xs[b];
    }
  }

  lemma {:induction false} BestClimbBounds(xs: seq<int>, b: nat, c: nat)
    requires c <= b < |xs|
    ensures Gain(xs, c) <= BestClimb(xs, b).dist
    ensures BestClimb(xs, b).end <= b
    ensures BestClimb(xs, b).dist == Gain(xs, BestClimb(xs, b).end)
    ensures BestClimb(xs, b).time == Climb(xs, BestClimb(xs, b).end)
    ensures Gain(xs, c) == BestClimb(xs, b).dist ==> c <= BestClimb(xs, b).end
  {
    if b > 0 {
      BestClimbBounds(xs, b - 1, if c < b then c else b - 1);
    }
  }

  /** The recorded climb is attained on its segment; any other rising segment gains no more,
      and one that gains as much does not end later. */
  lemma BestClimbIsMaximal(xs: seq<int>, a: nat, b: nat)
    requires a <= b < |xs|
    ensures var r := BestClimb(xs, |xs| - 1);
      && r.time <= r.end < |xs|
      && Rises(xs, r.end - r.time, r.end) && xs[r.end] - xs[r.end - r.time] == r.dist
      && (Rises(xs, a, b) ==> xs[b] - xs[a] <= r.dist && (xs[b] - xs[a] == r.dist ==> b <= r.end))
  {
    var n := |xs| - 1;
    BestClimbBounds(xs, n, b);
    ClimbRises(xs, BestClimb(xs, n).end);
    if Rises(xs, a, b) {
      ClimbIsLongest(xs, a, b);
    }
  }

  ghost predicate Falls(xs: seq<int>, a: nat, b: nat)
    requires a <= b < |xs|
  {
    forall j, k :: a <= j <= k <= b ==> xs[j] >= xs[k]
  }

  lemma FallsMirror(xs: seq<int>, a: nat, b: nat)
    requires a <= b < |xs|
    ensures Rises(Negate(xs), a, b) <==> Falls(xs, a, b)
  {
    var ys := Negate(xs);
    if Rises(ys, a, b) {
      forall j, k | a <= j <= k <= b ensures xs[j] >= xs[k] {
        assert ys[j] <= ys[k];
      }
    }
  }

  /** The longest fall is the longest rise of the mirrored contact. */
  lemma BestFallIsMaximal(xs: seq<int>, a: nat, b: nat)
    requires a <= b < |xs|
    ensures var r := BestClimb(Negate(xs), |xs| - 1);
      && r.time <= r.end < |xs|
      && Falls(xs, r.end - r.time, r.end) && xs[r.end] - xs[r.end - r.time] == -r.dist
      && (Falls(xs, a, b) ==> xs[a] - xs[b] <= r.dist && (xs[a] - xs[b] == r.dist ==> b <= r.end))
  {
    var r := BestClimb(Negate(xs), |xs| - 1);
    BestClimbIsMaximal(Negate(xs), a, b);
    FallsMirror(xs, r.end - r.time, r.end);
    FallsMirror(xs, a, b);
  }

  ghost predicate Monotone(xs: seq<int>, a: nat, b: nat)
    requires a <= b < |xs|
  {
    Rises(xs, a, b) || Falls(xs, a, b)
  }

  lemma MonotoneIsBounded(xs: seq<int>, a: nat, b: nat)
    requires a <= b < |xs| && Monotone(xs, a, b)
    ensures Abs(xs[b] - xs[a]) <= Abs(Dominant(xs).dist)
  {
    if Rises(xs, a, b) {
      BestClimbIsMaximal(xs, a, b);
    } else {
      FallsMirror(xs, a, b);
      BestFallIsMaximal(xs, a, b);
    }
    BestClimbBounds(xs, |xs| - 1, 0);
    BestClimbBounds(Negate(xs), |xs| - 1, 0);
  }

  /** The recorded run spans from X[end - time] to X[end], is monotone, and no monotone segment is longer. */
  lemma DominantIsLongest(xs: seq<int>)
    requires |xs| > 0
    ensures var r := Dominant(xs);
      && r.time <= r.end < |xs|
      && xs[r.end] - xs[r.end - r.time] == r.dist
      && Monotone(xs, r.end - r.time, r.end)
    ensures forall a: nat, b: nat {:trigger Monotone(xs, a, b)} | a <= b < |xs| && Monotone(xs, a, b) ::
      Abs(xs[b] - xs[a]) <= Abs(Dominant(xs).dist)
  {
    forall a: nat, b: nat | a <= b < |xs| && Monotone(xs, a, b)
      ensures Abs(xs[b] - xs[a]) <= Abs(Dominant(xs).dist)
    {
      MonotoneIsBounded(xs, a, b);
    }
    if BestClimb(xs, |xs| - 1).dist > BestClimb(Negate(xs), |xs| - 1).dist {
      BestClimbIsMaximal(xs, 0, 0);
    } else {
      BestFallIsMaximal(xs, 0, 0);
    }
  }

  /** For X that never decreases the run ends on the last frame and covers the whole displacement. */
  lemma RiseIsDominant(xs: seq<int>)
    requires |xs| > 0 && Rises(xs, 0, |xs| - 1)
    ensures Dominant(xs).end == |xs| - 1 && Dominant(xs).dist == xs[|xs| - 1] - xs[0]
  {
    var n := |xs| - 1;
    if xs[n] == xs[0] {
      FlatHasNoRun(xs, n);
    } else {
      RiseHasNoFall(xs);
      var right := BestClimb(xs, n);
      BestClimbIsMaximal(xs, 0, n);
    }
  }

  /** And dually for X that never increases. */
  lemma FallIsDominant(xs: seq<int>)
    requires |xs| > 0 && Falls(xs, 0, |xs| - 1)
    ensures Dominant(xs).end == |xs| - 1 && Dominant(xs).dist == xs[|xs| - 1] - xs[0]
  {
    var n := |xs| - 1;
    BestFallIsMaximal(xs, 0, n);
    BestClimbIsMaximal(xs, 0, 0);
    BestClimbBounds(Negate(xs), n, 0);
    var left, right := BestClimb(Negate(xs), n), BestClimb(xs, n);
    assert Falls(xs, right.end - right.time, right.end);
    assert xs[right.end - right.time] >= xs[right.end];
    assert xs[0] >= xs[left.end - left.time] && xs[left.end] >= xs[n];
  }

  lemma RiseHasNoFall(xs: seq<int>)
    requires |xs| > 0 && Rises(xs, 0, |xs| - 1)
    ensures BestClimb(Negate(xs), |xs| - 1).dist == 0
  {
    BestFallIsMaximal(xs, 0, 0);
    BestClimbBounds(Negate(xs), |xs| - 1, 0);
    var left := BestClimb(Negate(xs), |xs| - 1);
    assert Rises(xs, left.end - left.time, left.end);
  }

  lemma {:induction false} FlatHasNoRun(xs: seq<int>, b: nat)
    requires b < |xs| && Rises(xs, 0, |xs| - 1) && xs[|xs| - 1] == xs[0]
    ensures BestClimb(xs, b) == BestClimb(Negate(xs), b) == Run(0, b, 0)
    ensures Climb(xs, b) == Climb(Negate(xs), b) == 0
  {
    if b > 0 {
      FlatHasNoRun(xs, b - 1);
    }
  }

  // ---- the single pass ----

  /** What the scan knows after frame b: the run in progress and the two best runs it has closed. */
  datatype Scan = Scan(distance: int, direction: int, time: nat, right: Run, left: Run)

  /** The run in progress, seen from the direction in which it counts as a climb. */
  ghost predicate Tracks(xs: seq<int>, b: nat, distance: int, direction: int, time: nat)
    requires b < |xs|
  {
    if direction > 0 then Climb(xs, b) == time > 0 && Gain(xs, b) == distance > 0
    else Climb(xs, b) == 0 && (direction == 0 ==> distance == 0 && time == 0)
  }

  /** The closed best together with the run in progress is the best climb so far. */
  ghost predicate Holds(xs: seq<int>, b: nat, distance: int, direction: int, time: nat, best: Run)
    requires b < |xs|
  {
    var r := BestClimb(xs, b);
    && best.dist >= 0
    && (direction == 0 ==> best == Run(0, 0, 0) && r == Run(0, b, 0))
    && (if direction > 0 && distance >= best.dist then r == Run(distance, b, time)
        else r.dist == best.dist && (best.dist > 0 ==> r == best))
  }

  /** The scan of the mirrored contact. */
  function Mirror(s: Scan): Scan {
    Scan(-s.distance, -s.direction, s.time, s.left.(dist := -s.left.dist), s.right.(dist := -s.right.dist))
  }

  /** The run in progress is tracked and the best climb is held; folded. */
  ghost predicate Climbing(xs: seq<int>, b: nat, s: Scan)
    requires b < |xs|
  {
    forall key {:trigger Opens(key)} :: Opens(key) && key == ScanKey ==>
      Tracks(xs, b, s.distance, s.direction, s.time) && Holds(xs, b, s.distance, s.direction, s.time, s.right)
  }

  ghost predicate Scanned(xs: seq<int>, b: nat, s: Scan)
    requires b < |xs|
  {
    Climbing(xs, b, s) && Climbing(Negate(xs), b, Mirror(s))
  }

  /** Nothing has been seen at frame 0. */
  lemma ScanStarts(xs: seq<int>)
    requires |xs| > 0
    ensures Scanned(xs, 0, Scan(0, 0, 0, Run(0, 0, 0), Run(0, 0, 0)))
  {
  }

  function CloseRight(s: Scan, end: nat): Run {
    if s.distance >= s.right.dist then Run(s.distance, end, s.time) else s.right
  }

  function CloseLeft(s: Scan, end: nat): Run {
    if s.distance <= s.left.dist then Run(s.distance, end, s.time) else s.left
  }

  /** One step of d into frame b: it extends the run, starts the first one, or closes it and turns. */
  function ScanStep(s: Scan, d: int, b: nat): Scan
    requires b > 0
  {
    if s.direction == 0 then
      (if d == 0 then s else s.(distance := d, direction := if d > 0 then 1 else -1, time := 1))
    else if d == 0 || (d > 0) == (s.direction > 0) then s.(distance := s.distance + d, time := s.time + 1)
    else if d < 0 then s.(right := CloseRight(s, b - 1), distance := d, direction := -1, time := 1)
    else s.(left := CloseLeft(s, b - 1), distance := d, direction := 1, time := 1)
  }

  lemma StepMirrors(s: Scan, d: int, b: nat)
    requires b > 0
    ensures ScanStep(Mirror(s), -d, b) == Mirror(ScanStep(s, d, b))
  {
  }

  /** A step keeps what the scan knows of rightward runs. */
  lemma StepClimbs(xs: seq<int>, b: nat, s: Scan, d: int)
    requires 0 < b < |xs| && d == xs[b] - xs[b - 1] && Climbing(xs, b - 1, s)
    ensures Climbing(xs, b, ScanStep(s, d, b))
  {
    assert Opens(ScanKey);
    if s.direction == 0 {
    } else if s.direction > 0 {
    } else {
    }
  }

  lemma ScanStepTracks(xs: seq<int>, b: nat, s: Scan, d: int)
    requires 0 < b < |xs| && d == xs[b] - xs[b - 1] && Scanned(xs, b - 1, s)
    ensures Scanned(xs, b, ScanStep(s, d, b))
  {
    StepClimbs(xs, b, s, d);
    StepClimbs(Negate(xs), b, Mirror(s), -d);
    StepMirrors(s, d, b);
  }

  /** Closing the run in progress leaves the best climb, or an empty one when there is none. */
  lemma ClimbEnds(xs: seq<int>, s: Scan)
    requires |xs| > 0 && Climbing(xs, |xs| - 1, s) && (s.direction < 0 ==> s.distance < 0)
    ensures var best, closed := BestClimb(xs, |xs| - 1), CloseRight(s, |xs| - 1);
      && best.dist == closed.dist >= 0 && (closed.dist > 0 ==> best == closed)
      && (s.direction > 0 ==> closed.dist > 0)
      && (s.direction == 0 ==> best == closed)
  {
    assert Opens(ScanKey);
  }

  lemma ClimbGains(xs: seq<int>, b: nat, s: Scan)
    requires b < |xs| && Climbing(xs, b, s)
    ensures s.direction > 0 ==> s.distance > 0
  {
    assert Opens(ScanKey);
  }

  lemma CloseMirrors(s: Scan, end: nat)
    ensures CloseRight(Mirror(s), end) == CloseLeft(s, end).(dist := -CloseLeft(s, end).dist)
  {
  }

  lemma ScanEnds(xs: seq<int>, s: Scan)
    requires |xs| > 0 && Scanned(xs, |xs| - 1, s)
    ensures var right, left := CloseRight(s, |xs| - 1), CloseLeft(s, |xs| - 1);
      Dominant(xs) == if Abs(right.dist) > Abs(left.dist) then right else left
  {
    ClimbGains(xs, |xs| - 1, s);
    ClimbGains(Negate(xs), |xs| - 1, Mirror(s));
    ClimbEnds(xs, s);
    ClimbEnds(Negate(xs), Mirror(s));
    CloseMirrors(s, |xs| - 1);
  }

  /** Collects everything that moves in a single direction, left or right. */
  method CollectRuns(pad: array<Scratch>, n: nat, ghost h: seq<Sample>) returns (run: Run)
    requires 0 < n == |h| <= pad.Length
    requires Stepped(h, pad[..])
    ensures run == Dominant(Xs(h))
  {
    ghost var xs := Xs(h);
    var maxLeft, idxLeft, cntLeft := 0, 0, 0;
    var maxRight, idxRight, cntRight := 0, 0, 0;
    var runDistance, runDirection, runTime := 0, 0, 0;
    ghost var s := Scan(0, 0, 0, Run(0, 0, 0), Run(0, 0, 0));
    var i := 1;
    ScanStarts(xs);
    while i < n
      invariant 1 <= i <= n
      invariant s == Scan(runDistance, runDirection, runTime,
                          Run(maxRight, idxRight, cntRight), Run(maxLeft, idxLeft, cntLeft))
      invariant Scanned(xs, i - 1, s)
    {
      assert SteppedRow(h, pad[i], i);
      var thisValue := pad[i].dX;
      ScanStepTracks(xs, i, s, thisValue);
      s := ScanStep(s, thisValue, i);
      if thisValue > 0 && runDirection > 0 {
        runDistance := runDistance + thisValue;
        runTime := runTime + 1;
      } else if thisValue < 0 && runDirection < 0 {
        runDistance := runDistance + thisValue;
        runTime := runTime + 1;
      } else if thisValue < 0 && runDirection > 0 {
        if runDistance >= maxRight {
          maxRight, idxRight, cntRight := runDistance, i - 1, runTime;
        }
        runDistance, runDirection, runTime := thisValue, -1, 1;
      } else if thisValue > 0 && runDirection < 0 {
        if runDistance <= maxLeft {
          maxLeft, idxLeft, cntLeft := runDistance, i - 1, runTime;
        }
        runDistance, runDirection, runTime := thisValue, 1, 1;
      } else if thisValue == 0 {
        if runDirection != 0 {
          runTime := runTime + 1;
        }
      }
      if runDirection == 0 && thisValue != 0 {
        runDirection := if thisValue > 0 then 1 else -1;
        runTime := 1;
        runDistance := thisValue;
      }
      i := i + 1;
    }
    ScanEnds(xs, s);
    if runDistance >= maxRight {
      maxRight, idxRight, cntRight := runDistance, n - 1, runTime;
    }
    if runDistance <= maxLeft {
      maxLeft, idxLeft, cntLeft := runDistance, n - 1, runTime;
    }
    if Abs(maxRight) > Abs(maxLeft) {
      run := Run(maxRight, idxRight, cntRight);
    } else {
      run := Run(maxLeft, idxLeft, cntLeft);
    }
  }
}
