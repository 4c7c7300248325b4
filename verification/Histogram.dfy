/** Histograms of step directions, weighted by step length. */
module Histogram {
  import opened Unipoint
  import opened Signal

  // ---- sums ----

  function Sum(s: seq<real>): real {
    if |s| == 0 then 0.0 else Sum(s[..|s| - 1]) + s[|s| - 1]
  }

  lemma {:induction false} SumUpdate(s: seq<real>, k: nat, v: real)
    requires k < |s|
    ensures Sum(s[k := v]) == Sum(s) - s[k] + v
  {
    var n := |s| - 1;
    if k == n {
      assert s[k := v][..n] == s[..n];
    } else {
      assert s[k := v][..n] == s[..n][k := v];
      SumUpdate(s[..n], k, v);
    }
  }

  lemma {:induction false} SumZero(s: seq<real>)
    requires forall k :: 0 <= k < |s| ==> s[k] == 0.0
    ensures Sum(s) == 0.0
  {
    if |s| > 0 {
      SumZero(s[..|s| - 1]);
    }
  }

  lemma {:induction false} SumDivided(s: seq<real>, t: seq<real>, d: real)
    requires |s| == |t| && d != 0.0
    requires forall k :: 0 <= k < |s| ==> t[k] == s[k] / d
    ensures Sum(t) == Sum(s) / d
  {
    if |s| > 0 {
      SumDivided(s[..|s| - 1], t[..|s| - 1], d);
    }
  }

  // ---- the direction of a step ----

  /** What the histograms see of a frame. */
  datatype Step = Step(magnitude: real, angle: real, trend: Trend)

  function Steps(m: Trig, h: seq<Sample>): (steps: seq<Step>)
    ensures |steps| == |h|
  {
    seq(|h|, i requires 0 <= i < |h| =>
      Step(Magnitude(m, h, i), Angle(m, h, i), if i == 0 then Opposing else TrendAt(h, i)))
  }

  /** A frame's direction falls in [0, 360); its length is never negative. */
  ghost predicate InRange(steps: seq<Step>) {
    forall i :: 0 <= i < |steps| ==> 0.0 <= steps[i].angle < 360.0 && steps[i].magnitude >= 0.0
  }

  lemma StepsInRange(m: Trig, h: seq<Sample>)
    requires SoundAngles(m)
    ensures InRange(Steps(m, h))
  {
    forall i | 0 <= i < |h| ensures 0.0 <= Angle(m, h, i) < 360.0 && Magnitude(m, h, i) >= 0.0 {
      StepInRange(m, DX(h, i) as real, DY(h, i));
    }
  }

  lemma StepInRange(m: Trig, dx: real, dy: real)
    requires SoundAngles(m)
    ensures 0.0 <= StepAngle(m, dx, dy) < 360.0
    ensures StepMagnitude(m, dx, dy) >= 0.0
  {
    assert Opens(TrigKey);
    assert -3.1416 < m.atan2(dy, dx) < 3.1416;
  }

  /** The bin a direction falls in. */
  function Bin(angle: real): int {
    (angle / ANGLE_BIN_SIZE).Floor
  }

  // ---- what the bins hold ----

  /** Which frames a histogram is taken over. */
  datatype Frames = AllFrames | MovingFrames | OpposingFrames

  predicate Takes(f: Frames, t: Trend) {
    match f
    case AllFrames => true
    case MovingFrames => t != Opposing
    case OpposingFrames => t == Opposing
  }

  /** Magnitude of the frames 1..i that the histogram takes. */
  function MagSum(steps: seq<Step>, f: Frames, i: nat): real
    requires i < |steps|
  {
    if i == 0 then 0.0
    else MagSum(steps, f, i - 1) + (if Takes(f, steps[i].trend) then steps[i].magnitude else 0.0)
  }

  /** The part of it whose direction falls in bin b. */
  function BinSum(steps: seq<Step>, f: Frames, b: int, i: nat): real
    requires i < |steps|
  {
    if i == 0 then 0.0
    else BinSum(steps, f, b, i - 1) +
         (if Takes(f, steps[i].trend) && Bin(steps[i].angle) == b then steps[i].magnitude else 0.0)
  }

  function Bins(steps: seq<Step>, f: Frames, i: nat): (s: seq<real>)
    requires i < |steps|
    ensures |s| == ANGLE_BINS && forall b :: 0 <= b < ANGLE_BINS ==> s[b] == BinSum(steps, f, b, i)
  {
    seq(ANGLE_BINS, b => BinSum(steps, f, b, i))
  }

  function Share(part: real, total: real): real {
    if total != 0.0 then part / total else 0.0
  }

  function Shares(parts: seq<real>, total: real): (shares: seq<real>)
    ensures |shares| == |parts| && forall k :: 0 <= k < |parts| ==> shares[k] == Share(parts[k], total)
  {
    seq(|parts|, k requires 0 <= k < |parts| => Share(parts[k], total))
  }

  /** Every step, by direction. */
  function RawHistogram(steps: seq<Step>): seq<real>
    requires |steps| > 0
  {
    Bins(steps, AllFrames, |steps| - 1)
  }

  /** The steps of the moving frames, as shares of their total. */
  function NormHistogram(steps: seq<Step>): seq<real>
    requires |steps| > 0
  {
    Shares(Bins(steps, MovingFrames, |steps| - 1), MagSum(steps, MovingFrames, |steps| - 1))
  }

  // ---- laws ----

  lemma BinsNext(steps: seq<Step>, f: Frames, i: nat)
    requires InRange(steps) && 0 < i < |steps|
    ensures var b := Bin(steps[i].angle);
      && 0 <= b < ANGLE_BINS
      && Bins(steps, f, i) ==
         if Takes(f, steps[i].trend) then Bins(steps, f, i - 1)[b := Bins(steps, f, i - 1)[b] + steps[i].magnitude]
         else Bins(steps, f, i - 1)
  {
  }

  /** Nothing is lost between the frames and the bins. */
  lemma {:induction false} BinsConserve(steps: seq<Step>, f: Frames, i: nat)
    requires InRange(steps) && i < |steps|
    ensures Sum(Bins(steps, f, i)) == MagSum(steps, f, i)
  {
    if i == 0 {
      SumZero(Bins(steps, f, 0));
    } else {
      BinsConserve(steps, f, i - 1);
      BinsNext(steps, f, i);
      if Takes(f, steps[i].trend) {
        var s, b := Bins(steps, f, i - 1), Bin(steps[i].angle);
        SumUpdate(s, b, s[b] + steps[i].magnitude);
      }
    }
  }

  /** All frames are the moving ones and the opposing ones. */
  lemma {:induction false} FramesSplit(steps: seq<Step>, b: int, i: nat)
    requires InRange(steps) && i < |steps|
    ensures MagSum(steps, AllFrames, i) == MagSum(steps, MovingFrames, i) + MagSum(steps, OpposingFrames, i)
    ensures BinSum(steps, AllFrames, b, i) == BinSum(steps, MovingFrames, b, i) + BinSum(steps, OpposingFrames, b, i)
    ensures BinSum(steps, MovingFrames, b, i) >= 0.0 && BinSum(steps, OpposingFrames, b, i) >= 0.0
    ensures MagSum(steps, MovingFrames, i) >= 0.0 && MagSum(steps, OpposingFrames, i) >= 0.0
  {
    if i > 0 {
      FramesSplit(steps, b, i - 1);
    }
  }

  /** The raw bins hold the length of the whole path; what the trend filter drops is the opposing part. */
  lemma RawConserves(steps: seq<Step>)
    requires InRange(steps) && |steps| > 0
    ensures Sum(RawHistogram(steps)) == MagSum(steps, AllFrames, |steps| - 1)
    ensures Sum(RawHistogram(steps)) - MagSum(steps, MovingFrames, |steps| - 1)
         == MagSum(steps, OpposingFrames, |steps| - 1)
    ensures forall b :: 0 <= b < ANGLE_BINS ==> RawHistogram(steps)[b] >= 0.0
  {
    BinsConserve(steps, AllFrames, |steps| - 1);
    FramesSplit(steps, 0, |steps| - 1);
    forall b | 0 <= b < ANGLE_BINS ensures RawHistogram(steps)[b] >= 0.0 {
      FramesSplit(steps, b, |steps| - 1);
    }
  }

  lemma ShareBounds(part: real, total: real, share: real)
    requires part >= 0.0 && total >= 0.0 && share == Share(part, total)
    ensures share >= 0.0
    ensures total > 0.0 ==> share * total == part
  {
    if total > 0.0 {
      Quotient(part, total);
    }
  }

  lemma Quotient(x: real, d: real)
    requires x >= 0.0 && d > 0.0
    ensures x / d >= 0.0 && x / d * d == x
  {
  }

  lemma SharesMakeWhole(parts: seq<real>, total: real)
    requires forall k :: 0 <= k < |parts| ==> parts[k] >= 0.0
    requires Sum(parts) == total >= 0.0
    ensures forall k :: 0 <= k < |parts| ==> Shares(parts, total)[k] >= 0.0
    ensures if total != 0.0 then Sum(Shares(parts, total)) == 1.0
            else forall k :: 0 <= k < |parts| ==> Shares(parts, total)[k] == 0.0
  {
    forall k | 0 <= k < |parts| ensures Shares(parts, total)[k] >= 0.0 {
      ShareBounds(parts[k], total, Shares(parts, total)[k]);
    }
    if total != 0.0 {
      SumDivided(parts, Shares(parts, total), total);
      Whole(total);
    }
  }

  lemma Whole(d: real)
    requires d != 0.0
    ensures d / d == 1.0
  {
  }

  /** The normalised bins are shares of a whole, or all empty. */
  lemma NormIsShares(steps: seq<Step>)
    requires InRange(steps) && |steps| > 0
    ensures |NormHistogram(steps)| == ANGLE_BINS
    ensures forall b :: 0 <= b < ANGLE_BINS ==> NormHistogram(steps)[b] >= 0.0
    ensures if MagSum(steps, MovingFrames, |steps| - 1) != 0.0 then Sum(NormHistogram(steps)) == 1.0
            else forall b :: 0 <= b < ANGLE_BINS ==> NormHistogram(steps)[b] == 0.0
  {
    var kept := Bins(steps, MovingFrames, |steps| - 1);
    forall b | 0 <= b < ANGLE_BINS ensures kept[b] >= 0.0 {
      FramesSplit(steps, b, |steps| - 1);
    }
    FramesSplit(steps, 0, |steps| - 1);
    BinsConserve(steps, MovingFrames, |steps| - 1);
    SharesMakeWhole(kept, MagSum(steps, MovingFrames, |steps| - 1));
  }

  lemma ScaledBack(whole: real, part: real, total: real, share: real)
    requires whole >= part >= 0.0 && total >= 0.0 && share == Share(part, total)
    ensures whole >= share * total
  {
    if total > 0.0 {
      ShareBounds(part, total, share);
    } else {
      assert share * total == 0.0;
    }
  }

  /** A normalised bin scaled back never exceeds the raw bin. */
  lemma RawDominatesNorm(steps: seq<Step>, b: nat)
    requires InRange(steps) && |steps| > 0 && b < ANGLE_BINS
    ensures RawHistogram(steps)[b] >= NormHistogram(steps)[b] * MagSum(steps, MovingFrames, |steps| - 1)
  {
    var part, total := BinSum(steps, MovingFrames, b, |steps| - 1), MagSum(steps, MovingFrames, |steps| - 1);
    FramesSplit(steps, b, |steps| - 1);
    ScaledBack(RawHistogram(steps)[b], part, total, NormHistogram(steps)[b]);
  }

  // ---- the loops ----

  /** Row i of the scratch pad shows step i: its polar form, and whether a trend counter moved. */
  ghost predicate ShowsStep(steps: seq<Step>, p: seq<Scratch>, i: nat)
    requires 0 < i < |steps| <= |p|
  {
    && p[i].magnitude == steps[i].magnitude && p[i].angle == steps[i].angle
    && (steps[i].trend != Opposing <==> p[i].down > p[i - 1].down || p[i].up > p[i - 1].up || p[i].none > p[i - 1].none)
  }

  ghost predicate Shows(steps: seq<Step>, p: seq<Scratch>) {
    0 < |steps| <= |p| && forall i :: 0 < i < |steps| ==> ShowsStep(steps, p, i)
  }

  lemma PadShowsSteps(m: Trig, h: seq<Sample>, p: seq<Scratch>)
    requires 0 < |h| <= |p| && Measured(m, h, p) && Trended(h, p)
    ensures Shows(Steps(m, h), p)
  {
    forall i | 0 < i < |h| ensures ShowsStep(Steps(m, h), p, i) {
      assert MeasuredRow(m, h, p[i], i) && TrendRow(h, p[i], i) && TrendRow(h, p[i - 1], i - 1);
    }
  }

  /** Fills both histograms from the scratch pad. */
  method FillHistograms(pad: array<Scratch>, n: nat, raw: array<real>, norm: array<real>, ghost steps: seq<Step>)
    requires 0 < n == |steps| && raw.Length == norm.Length == ANGLE_BINS && raw != norm
    requires InRange(steps) && Shows(steps, pad[..])
    modifies raw, norm
    ensures raw[..] == RawHistogram(steps) && norm[..] == NormHistogram(steps)
  {
    ClearHistograms(raw, norm);
    AddSteps(pad, n, raw, steps);
    assert norm[..] == Bins(steps, MovingFrames, 0);
    var total := AddMovingSteps(pad, n, norm, steps);
    Normalise(norm, total);
  }

  method ClearHistograms(raw: array<real>, norm: array<real>)
    requires raw.Length == norm.Length == ANGLE_BINS
    modifies raw, norm
    ensures forall b :: 0 <= b < ANGLE_BINS ==> raw[b] == 0.0 && norm[b] == 0.0
  {
    var i := 0;
    while i < ANGLE_BINS
      invariant 0 <= i <= ANGLE_BINS
      invariant forall b :: 0 <= b < i ==> raw[b] == 0.0 && norm[b] == 0.0
    {
      raw[i] := 0.0;
      norm[i] := 0.0;
      i := i + 1;
    }
  }

  /** Turns frame to frame angles into a histogram. */
  method AddSteps(pad: array<Scratch>, n: nat, raw: array<real>, ghost steps: seq<Step>)
    requires 0 < n == |steps| && raw.Length == ANGLE_BINS
    requires InRange(steps) && Shows(steps, pad[..])
    requires forall b :: 0 <= b < ANGLE_BINS ==> raw[b] == 0.0
    modifies raw
    ensures raw[..] == Bins(steps, AllFrames, n - 1)
  {
    var i := 1;
    while i < n
      invariant 1 <= i <= n
      invariant raw[..] == Bins(steps, AllFrames, i - 1)
    {
      assert ShowsStep(steps, pad[..], i);
      BinsNext(steps, AllFrames, i);
      var b := Bin(pad[i].angle);
      raw[b] := raw[b] + pad[i].magnitude;
      i := i + 1;
    }
  }

  /** The same over the frames at which a trend counter moved. */
  method AddMovingSteps(pad: array<Scratch>, n: nat, norm: array<real>, ghost steps: seq<Step>) returns (total: real)
    requires 0 < n == |steps| && norm.Length == ANGLE_BINS
    requires InRange(steps) && Shows(steps, pad[..])
    requires norm[..] == Bins(steps, MovingFrames, 0)
    modifies norm
    ensures norm[..] == Bins(steps, MovingFrames, n - 1) && total == MagSum(steps, MovingFrames, n - 1)
  {
    total := 0.0;
    var i := 1;
    while i < n
      invariant 1 <= i <= n
      invariant norm[..] == Bins(steps, MovingFrames, i - 1) && total == MagSum(steps, MovingFrames, i - 1)
    {
      assert ShowsStep(steps, pad[..], i);
      BinsNext(steps, MovingFrames, i);
      if pad[i].down > pad[i - 1].down || pad[i].up > pad[i - 1].up || pad[i].none > pad[i - 1].none {
        var b := Bin(pad[i].angle);
        norm[b] := norm[b] + pad[i].magnitude;
        total := total + pad[i].magnitude;
      }
      i := i + 1;
    }
  }

  method Normalise(norm: array<real>, total: real)
    modifies norm
    ensures norm[..] == Shares(old(norm[..]), total)
  {
    var i := 0;
    while i < norm.Length
      invariant 0 <= i <= norm.Length
      invariant forall b :: 0 <= b < i ==> norm[b] == Share(old(norm[b]), total)
      invariant forall b :: i <= b < norm.Length ==> norm[b] == old(norm[b])
    {
      if total != 0.0 {
        norm[i] := norm[i] / total;
      } else {
        norm[i] := 0.0;
      }
      i := i + 1;
    }
  }
}
