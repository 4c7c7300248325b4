/** The sliding trigger window over the X velocities, and its tie to the longest run. */
module Windows {
  import opened Unipoint
  import opened Signal
  import opened Runs

  const TRIGGER_WINDOW_SIZE := 4

  /** X displacement over the three steps that start into frame i. */
  function WindowAt(xs: seq<int>, i: nat): int
    requires 1 <= i && i + 2 < |xs|
  {
    xs[i + 2] - xs[i - 1]
  }

  /** The first window of greatest absolute value among those at 2..i. */
  function Strongest(xs: seq<int>, i: nat): int
    requires 2 <= i ==> i + 2 < |xs|
  {
    if i < 2 then 0
    else
      var prev := Strongest(xs, i - 1);
      if Abs(WindowAt(xs, i)) > Abs(prev) then WindowAt(xs, i) else prev
  }

  /** The window a contact of |xs| frames triggers on; four frames or fewer have none. */
  function Trigger(xs: seq<int>): int {
    if |xs| < 5 then 0 else Strongest(xs, |xs| - 3)
  }

  ghost predicate IsFirstGreatest(xs: seq<int>, at: nat, w: int) {
    && 2 <= at && at + 2 < |xs| && WindowAt(xs, at) == w
    && (forall k {:trigger WindowAt(xs, k)} :: 2 <= k && k + 2 < |xs| ==>
          Abs(WindowAt(xs, k)) <= Abs(w) && (k < at ==> Abs(WindowAt(xs, k)) < Abs(w)))
  }

  lemma {:induction false} StrongestWitness(xs: seq<int>, i: nat) returns (at: nat)
    requires 2 <= i && i + 2 < |xs|
    ensures 2 <= at <= i && WindowAt(xs, at) == Strongest(xs, i)
    ensures forall k {:trigger WindowAt(xs, k)} :: 2 <= k <= i ==>
      Abs(WindowAt(xs, k)) <= Abs(WindowAt(xs, at)) && (k < at ==> Abs(WindowAt(xs, k)) < Abs(WindowAt(xs, at)))
  {
    if i == 2 {
      at := 2;
    } else {
      at := StrongestWitness(xs, i - 1);
      if Abs(WindowAt(xs, i)) > Abs(Strongest(xs, i - 1)) {
        at := i;
      }
    }
  }

  /** The trigger is the first window of greatest absolute value, whenever there is a window at all. */
  lemma TriggerIsFirstGreatest(xs: seq<int>)
    ensures |xs| < 5 ==> Trigger(xs) == 0
    ensures |xs| >= 5 ==> exists at: nat :: IsFirstGreatest(xs, at, Trigger(xs))
  {
    if |xs| >= 5 {
      var at := StrongestWitness(xs, |xs| - 3);
      assert IsFirstGreatest(xs, at, Trigger(xs));
    }
  }

  /** For X that never decreases the trigger reaches t exactly when some window does. */
  lemma RiseTriggers(xs: seq<int>, t: int)
    requires |xs| > 0 && Rises(xs, 0, |xs| - 1) && t > 0
    ensures Trigger(xs) >= 0
    ensures Trigger(xs) >= t <==> exists k: nat :: 1 <= k && k + 3 < |xs| && xs[k + 3] - xs[k] >= t
  {
    if |xs| >= 5 {
      var at := StrongestWitness(xs, |xs| - 3);
      assert WindowAt(xs, at) == xs[(at - 1) + 3] - xs[at - 1] >= 0;
      forall k: nat | 1 <= k && k + 3 < |xs| && xs[k + 3] - xs[k] >= t ensures Trigger(xs) >= t {
        assert WindowAt(xs, k + 1) == xs[k + 3] - xs[k];
      }
    }
  }

  /** For X that never increases the trigger falls to -t exactly when some window does. */
  lemma FallTriggers(xs: seq<int>, t: int)
    requires |xs| > 0 && Falls(xs, 0, |xs| - 1) && t > 0
    ensures Trigger(xs) <= 0
    ensures Trigger(xs) <= -t <==> exists k: nat :: 1 <= k && k + 3 < |xs| && xs[k] - xs[k + 3] >= t
  {
    if |xs| >= 5 {
      var at := StrongestWitness(xs, |xs| - 3);
      assert WindowAt(xs, at) == xs[(at - 1) + 3] - xs[at - 1] <= 0;
      forall k: nat | 1 <= k && k + 3 < |xs| && xs[k] - xs[k + 3] >= t ensures Trigger(xs) <= -t {
        assert WindowAt(xs, k + 1) == xs[k + 3] - xs[k];
      }
    }
  }

  /** Three steps hold at most two runs of one direction, so a window never exceeds twice the longest run. */
  lemma WindowWithinTwoRuns(xs: seq<int>, i: nat)
    requires 1 <= i && i + 2 < |xs|
    ensures Abs(WindowAt(xs, i)) <= 2 * Abs(Dominant(xs).dist)
  {
    StepWithinRun(xs, i - 1);
    StepWithinRun(xs, i);
    StepWithinRun(xs, i + 1);
    var a, b := xs[i] - xs[i - 1], xs[i + 1] - xs[i];
    if (a >= 0 && b >= 0) || (a <= 0 && b <= 0) {
      PairIsMonotone(xs, i);
      MonotoneIsBounded(xs, i - 1, i + 1);
    }
    TwoRuns(a, b, xs[i + 2] - xs[i + 1], Abs(Dominant(xs).dist));
  }

  lemma PairIsMonotone(xs: seq<int>, i: nat)
    requires 1 <= i && i + 1 < |xs|
    requires xs[i - 1] <= xs[i] <= xs[i + 1] || xs[i - 1] >= xs[i] >= xs[i + 1]
    ensures Monotone(xs, i - 1, i + 1)
  {
  }

  /** Opposite steps cancel in part, so only a pair of like steps needs its own bound. */
  lemma TwoRuns(a: int, b: int, c: int, d: nat)
    requires Abs(a) <= d && Abs(b) <= d && Abs(c) <= d
    requires (a >= 0 && b >= 0) || (a <= 0 && b <= 0) ==> Abs(a + b) <= d
    ensures Abs(a + b + c) <= 2 * d
  {
  }

  lemma StepWithinRun(xs: seq<int>, k: nat)
    requires k + 1 < |xs|
    ensures Abs(xs[k + 1] - xs[k]) <= Abs(Dominant(xs).dist)
  {
    assert Monotone(xs, k, k + 1);
    MonotoneIsBounded(xs, k, k + 1);
  }

  /** The two features the loops compute apart from each other stay in proportion. */
  lemma TriggerWithinTwoRuns(xs: seq<int>)
    requires |xs| > 0
    ensures Abs(Trigger(xs)) <= 2 * Abs(Dominant(xs).dist)
  {
    if |xs| >= 5 {
      var at := StrongestWitness(xs, |xs| - 3);
      WindowWithinTwoRuns(xs, at);
    }
  }

  /** Sum of the steps into frames i..i+size-1 telescopes. */
  method SlidingWindow(pad: array<Scratch>, n: nat, ghost h: seq<Sample>) returns (velTrig: real)
    requires 3 <= n == |h| <= pad.Length
    requires Stepped(h, pad[..])
    ensures velTrig == if n == 3 then 0.0 else Trigger(Xs(h)) as real / 3.0
  {
    ghost var xs := Xs(h);
    var maxWindow := 0;
    var size := if TRIGGER_WINDOW_SIZE < n then TRIGGER_WINDOW_SIZE - 1 else n - 1;
    var i := 2;
    while i < n - (size - 1)
      invariant 2 <= i && (i == 2 || i <= n - (size - 1))
      invariant maxWindow == if i == 2 then 0 else Strongest(xs, i - 1)
    {
      var thisWindow := 0;
      var j := 0;
      while j < size
        invariant 0 <= j <= size
        invariant thisWindow == xs[i + j - 1] - xs[i - 1]
      {
        assert SteppedRow(h, pad[j + i], j + i);
        thisWindow := thisWindow + pad[j + i].dX;
        j := j + 1;
      }
      if Abs(thisWindow) > Abs(maxWindow) {
        maxWindow := thisWindow;
      }
      i := i + 1;
    }
    velTrig := maxWindow as real / size as real;
  }
}
