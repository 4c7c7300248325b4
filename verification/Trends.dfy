/** Laws of the smoothing filter and of the co-trend tallies. */
module Trends {
  import opened Unipoint
  import opened Signal

  ghost predicate NonDecreasing(h: seq<Sample>, axis: Axis) {
    forall j, k :: 0 <= j <= k < |h| ==> Raw(h[j], axis) <= Raw(h[k], axis)
  }

  ghost predicate Constant(h: seq<Sample>, axis: Axis) {
    forall k :: 0 <= k < |h| ==> Raw(h[k], axis) == Raw(h[0], axis)
  }

  /** The low-pass filter of the Y axis lags behind a rising Y and never turns back. */
  lemma {:induction false} FilterFollowsRise(h: seq<Sample>, i: nat)
    requires i < |h| && NonDecreasing(h, AxisY)
    ensures Y(h, i) <= Raw(h[i], AxisY)
    ensures i > 0 ==> Y(h, i - 1) <= Y(h, i)
  {
    if i > 0 {
      FilterFollowsRise(h, i - 1);
      assert Raw(h[i - 1], AxisY) <= Raw(h[i], AxisY);
    }
  }

  lemma {:induction false} PoleKeepsConstant(alpha: real, h: seq<Sample>, axis: Axis, i: nat)
    requires i < |h| && Constant(h, axis)
    ensures Pole(alpha, h, axis, i) == Raw(h[i], axis)
  {
    if i > 0 {
      PoleKeepsConstant(alpha, h, axis, i - 1);
      assert Raw(h[i - 1], axis) == Raw(h[i], axis);
    }
  }

  // ---- conservation ----

  /** Every frame belongs to exactly one trend, so the tallies partition the frames. */
  lemma {:induction false} CountsPartition(h: seq<Sample>, i: nat)
    requires i < |h|
    ensures Count(h, Rising, i) + Count(h, Falling, i) + Count(h, Still, i) + Count(h, Opposing, i) == i
    ensures i > 0 ==> exists t ::
      Count(h, t, i) == Count(h, t, i - 1) + 1 && forall u :: u != t ==> Count(h, u, i) == Count(h, u, i - 1)
  {
    if i > 0 {
      CountsPartition(h, i - 1);
      var t := TrendAt(h, i);
      assert Count(h, t, i) == Count(h, t, i - 1) + 1 && forall u :: u != t ==> Count(h, u, i) == Count(h, u, i - 1);
    }
  }

  /** The trend distances together are the whole displacement of the smoothed centroid. */
  lemma {:induction false} DistancesTelescope(h: seq<Sample>, i: nat)
    requires i < |h|
    ensures Dist(h, Rising, i) + Dist(h, Falling, i) + Dist(h, Still, i) + Dist(h, Opposing, i) == Y(h, i) - Y(h, 0)
  {
    if i > 0 {
      DistancesTelescope(h, i - 1);
    }
  }

  /** The up distance is positive exactly when an up frame was seen, and never negative; dually for down. */
  lemma {:induction false} DistanceSigns(h: seq<Sample>, i: nat)
    requires i < |h|
    ensures Dist(h, Rising, i) >= 0.0 && (Dist(h, Rising, i) == 0.0 <==> Count(h, Rising, i) == 0)
    ensures Dist(h, Falling, i) <= 0.0 && (Dist(h, Falling, i) == 0.0 <==> Count(h, Falling, i) == 0)
  {
    if i > 0 {
      DistanceSigns(h, i - 1);
    }
  }

  // ---- contacts that move one way in Y ----

  /** A contact whose Y never decreases has no falling frame. */
  lemma {:induction false} RiseNeverFalls(h: seq<Sample>, i: nat)
    requires i < |h| && NonDecreasing(h, AxisY)
    ensures Count(h, Falling, i) == 0 && Dist(h, Falling, i) == 0.0
  {
    if i > 0 {
      RiseNeverFalls(h, i - 1);
      FilterFollowsRise(h, i);
    }
  }

  /** A contact with constant Y has only opposing frames, whatever its width does. */
  lemma {:induction false} ConstantYOnlyOpposes(h: seq<Sample>, i: nat)
    requires i < |h| && Constant(h, AxisY)
    ensures Count(h, Opposing, i) == i
    ensures forall t :: t != Opposing ==> Count(h, t, i) == 0 && Dist(h, t, i) == 0.0
    ensures DY(h, i) == 0.0
  {
    if i > 0 {
      ConstantYOnlyOpposes(h, i - 1);
      PoleKeepsConstant(Y_ALPHA, h, AxisY, i - 1);
      PoleKeepsConstant(Y_ALPHA, h, AxisY, i);
      assert Raw(h[i - 1], AxisY) == Raw(h[i], AxisY);
      assert !Together(0.0, DTip(h, i));
    }
  }
}
