/** The first half of classifyGesture: the peaks of the two angle histograms, read as circles. */
module Peaks {
  import opened Unipoint
  import opened Histogram

  const SMOOTHER := 2

  datatype PeakFeatures = PeakFeatures(
    weightedPeak: real, weightedPeakAngle: real,
    tapPeak: real, angleMagMax: real,
    peakedness: real, peakednessAngle: real,
    dullPeak: real, dullPeakAngle: real)

  ghost predicate Histogram18(s: seq<real>) {
    |s| == ANGLE_BINS && forall b :: 0 <= b < ANGLE_BINS ==> s[b] >= 0.0
  }

  /** First index of the greatest of s[0..i]. */
  function ArgMax(s: seq<real>, i: nat): (k: nat)
    requires 0 < i <= |s|
    ensures k < i
  {
    if i == 1 then 0
    else
      var k := ArgMax(s, i - 1);
      if s[i - 1] > s[k] then i - 1 else k
  }

  /** Index arithmetic of the circular loops. */
  function Wrap(i: int): int {
    if i > ANGLE_BINS - 1 then i - ANGLE_BINS else if i < 0 then ANGLE_BINS + i else i
  }

  /** Within one turn on either side the wrapped index is the index modulo the number of bins. */
  lemma WrapIsModulo(i: int)
    requires -ANGLE_BINS <= i < 2 * ANGLE_BINS
    ensures Wrap(i) == i % ANGLE_BINS
  {
  }

  /** The circular neighbourhood of five bins around a centre that may lie off the end. */
  function WindowSum(s: seq<real>, centre: nat): real
    requires |s| == ANGLE_BINS && centre + SMOOTHER < 2 * ANGLE_BINS
  {
    s[Wrap(centre - 2)] + s[Wrap(centre - 1)] + s[Wrap(centre)]
    + s[Wrap(centre + 1)] + s[Wrap(centre + 2)]
  }

  /** A bin with its two circular neighbours. */
  function Sharpness(s: seq<real>, i: nat): real
    requires |s| == ANGLE_BINS && i < ANGLE_BINS
  {
    s[Wrap(i - 1)] + s[i] + s[Wrap(i + 1)]
  }

  /** Last index of the sharpest of the bins below i. */
  function Dullest(s: seq<real>, i: nat): (k: nat)
    requires |s| == ANGLE_BINS && 0 < i <= ANGLE_BINS
    ensures k < i
  {
    if i == 1 then 0
    else
      var k := Dullest(s, i - 1);
      if Sharpness(s, i - 1) >= Sharpness(s, k) then i - 1 else k
  }

  function BinAngle(b: int): real {
    b as real * ANGLE_BIN_SIZE + ANGLE_BIN_SIZE / 2.0
  }

  function PeaksOf(raw: seq<real>, norm: seq<real>): PeakFeatures
    requires |raw| == |norm| == ANGLE_BINS
  {
    var peak := ArgMax(raw, ANGLE_BINS);
    var dull := Dullest(norm, ANGLE_BINS);
    PeakFeatures(WindowSum(raw, peak), BinAngle(peak),
                 WindowSum(raw, peak + ANGLE_BINS / 2), raw[peak],
                 Sharpness(norm, peak), BinAngle(peak),
                 Sharpness(norm, dull), BinAngle(dull))
  }

  // ---- laws ----

  lemma {:induction false} ArgMaxIsFirstGreatest(s: seq<real>, i: nat, j: nat)
    requires 0 < i <= |s| && j < i
    ensures s[j] <= s[ArgMax(s, i)]
    ensures j < ArgMax(s, i) ==> s[j] < s[ArgMax(s, i)]
  {
    if i > 1 {
      ArgMaxIsFirstGreatest(s, i - 1, if j < i - 1 then j else 0);
      if j < i - 1 && ArgMax(s, i) == i - 1 {
        ArgMaxIsFirstGreatest(s, i - 1, j);
      }
    }
  }

  lemma {:induction false} DullestIsLastGreatest(s: seq<real>, i: nat, j: nat)
    requires |s| == ANGLE_BINS && 0 < i <= ANGLE_BINS && j < i
    ensures Sharpness(s, j) <= Sharpness(s, Dullest(s, i))
    ensures j > Dullest(s, i) ==> Sharpness(s, j) < Sharpness(s, Dullest(s, i))
  {
    if i > 1 {
      DullestIsLastGreatest(s, i - 1, if j < i - 1 then j else 0);
    }
  }

  /** A bin and those next to it on the circle. */
  function Near(s: seq<real>, c: nat): real
    requires |s| == 18 && c < 18
  {
    s[(c + 17) % 18] + s[c] + s[(c + 1) % 18]
  }

  ghost predicate IsTopBin(s: seq<real>, b: nat) {
    |s| == 18 && b < 18 && forall c: nat :: c < 18 ==> s[c] <= s[b] && (c < b ==> s[c] < s[b])
  }

  ghost predicate IsLastSharpest(s: seq<real>, d: nat) {
    |s| == 18 && d < 18 && forall c: nat :: c < 18 ==> Near(s, c) <= Near(s, d) && (c > d ==> Near(s, c) < Near(s, d))
  }

  /** The five bins from number b on. */
  function FiveFrom(s: seq<real>, b: nat): real
    requires |s| == 18
  {
    s[b % 18] + s[(b + 1) % 18] + s[(b + 2) % 18] + s[(b + 3) % 18] + s[(b + 4) % 18]
  }

  lemma WindowIsFive(s: seq<real>, c: nat)
    requires |s| == 18 && c < 33
    ensures WindowSum(s, c) == FiveFrom(s, c + 16)
  {
    WrapIsModulo(c - 2);
    WrapIsModulo(c - 1);
    WrapIsModulo(c);
    WrapIsModulo(c + 1);
    WrapIsModulo(c + 2);
  }

  lemma {:induction false} PeakIsFirst(s: seq<real>, b: nat)
    requires IsTopBin(s, b)
    ensures ArgMax(s, 18) == b
  {
    ArgMaxIsFirstGreatest(s, 18, b);
    assert s[ArgMax(s, 18)] <= s[b];
  }

  /** All eight features, for the first greatest raw bin b and the last sharpest normalised neighbourhood d. */
  lemma {:induction false} PeaksInNumbers(raw: seq<real>, norm: seq<real>, b: nat, d: nat)
    requires IsTopBin(raw, b) && IsLastSharpest(norm, d)
    ensures var p := PeaksOf(raw, norm);
      && p.angleMagMax == raw[b] && p.weightedPeak == FiveFrom(raw, b + 16) && p.tapPeak == FiveFrom(raw, b + 7)
      && p.peakedness == Near(norm, b) && p.dullPeak == Near(norm, d)
      && p.weightedPeakAngle == p.peakednessAngle == 20.0 * b as real + 10.0
      && p.dullPeakAngle == 20.0 * d as real + 10.0
  {
    PeakIsFirst(raw, b);
    DullestIsNear(norm, d);
    WindowIsFive(raw, b);
    WindowIsFive(raw, b + 9);
    TurnedFive(raw, b + 7);
    NearIsSharpness(norm, b);
    NearIsSharpness(norm, d);
  }

  lemma TurnedFive(s: seq<real>, b: nat)
    requires |s| == 18
    ensures FiveFrom(s, b + 18) == FiveFrom(s, b)
  {
  }

  lemma NearIsSharpness(s: seq<real>, c: nat)
    requires |s| == 18 && c < 18
    ensures Near(s, c) == Sharpness(s, c)
  {
  }

  lemma {:induction false} DullestIsNear(s: seq<real>, d: nat)
    requires IsLastSharpest(s, d)
    ensures Dullest(s, 18) == d
  {
    DullestIsLastGreatest(s, 18, d);
    NearIsSharpness(s, d);
    NearIsSharpness(s, Dullest(s, 18));
    assert Near(s, Dullest(s, 18)) <= Near(s, d);
  }

  lemma {:induction false} SumConcat(s: seq<real>, t: seq<real>)
    ensures Sum(s + t) == Sum(s) + Sum(t)
  {
    if |t| == 0 {
      assert s + t == s;
    } else {
      assert (s + t)[..|s + t| - 1] == s + t[..|t| - 1];
      SumConcat(s, t[..|t| - 1]);
    }
  }

  lemma {:induction false} SumNonNegative(s: seq<real>)
    requires forall k :: 0 <= k < |s| ==> s[k] >= 0.0
    ensures Sum(s) >= 0.0
  {
    if |s| > 0 {
      SumNonNegative(s[..|s| - 1]);
    }
  }

  /** The circle cut open at k. */
  function Turn(s: seq<real>, k: nat): (r: seq<real>)
    requires |s| == ANGLE_BINS && k < ANGLE_BINS
    ensures |r| == ANGLE_BINS && forall j :: 0 <= j < ANGLE_BINS ==> r[j] == s[Wrap(k + j)]
  {
    s[k..] + s[..k]
  }

  lemma TurnKeepsSum(s: seq<real>, k: nat)
    requires |s| == ANGLE_BINS && k < ANGLE_BINS
    ensures Sum(Turn(s, k)) == Sum(s)
  {
    SumConcat(s[k..], s[..k]);
    SumConcat(s[..k], s[k..]);
    assert s[..k] + s[k..] == s;
  }

  lemma SumOfFive(s: seq<real>)
    requires |s| == 5
    ensures Sum(s) == s[0] + s[1] + s[2] + s[3] + s[4]
  {
    assert s[..4][..3] == s[..3] && s[..3][..2] == s[..2] && s[..2][..1] == s[..1] && s[..1][..0] == [];
    assert Sum(s[..1]) == s[0];
    assert Sum(s[..2]) == s[0] + s[1];
    assert Sum(s[..3]) == s[0] + s[1] + s[2];
    assert Sum(s[..4]) == s[0] + s[1] + s[2] + s[3];
  }

  lemma SumOfFiveParts(s: seq<real>)
    requires Histogram18(s)
    ensures Sum(s[..5]) + Sum(s[9..14]) <= Sum(s)
  {
    assert s == s[..5] + s[5..9] + s[9..14] + s[14..];
    SumConcat(s[..5] + s[5..9] + s[9..14], s[14..]);
    SumConcat(s[..5] + s[5..9], s[9..14]);
    SumConcat(s[..5], s[5..9]);
    SumNonNegative(s[5..9]);
    SumNonNegative(s[14..]);
  }

  /** A window is the first five bins of the circle cut open at its left end. */
  lemma WindowIsCut(s: seq<real>, centre: nat)
    requires |s| == ANGLE_BINS && centre + SMOOTHER < 2 * ANGLE_BINS
    ensures WindowSum(s, centre) == Sum(Turn(s, Wrap(centre - 2))[..5])
  {
    var r := Turn(s, Wrap(centre - 2));
    SumOfFive(r[..5]);
    assert r[0] == s[Wrap(centre - 2)] && r[1] == s[Wrap(centre - 1)] && r[2] == s[Wrap(centre)];
    assert r[3] == s[Wrap(centre + 1)] && r[4] == s[Wrap(centre + 2)];
  }

  lemma HalfTurn(s: seq<real>, k: nat)
    requires |s| == ANGLE_BINS && k < ANGLE_BINS
    ensures Turn(s, Wrap(k + 9))[..5] == Turn(s, k)[9..14]
  {
  }

  /** The peak window and the window half a turn away share no bin. */
  lemma WindowsAreDisjoint(s: seq<real>, centre: nat)
    requires Histogram18(s) && centre < ANGLE_BINS
    ensures WindowSum(s, centre) + WindowSum(s, centre + ANGLE_BINS / 2) <= Sum(s)
  {
    var k := Wrap(centre - 2);
    WindowIsCut(s, centre);
    WindowIsCut(s, centre + ANGLE_BINS / 2);
    HalfTurn(s, k);
    assert Wrap(k + 9) == Wrap(centre + 7);
    TurnKeepsSum(s, k);
    SumOfFiveParts(Turn(s, k));
  }

  /** The greatest bin bounds its window from both sides, and the two windows fit in the histogram. */
  lemma PeakBounds(raw: seq<real>, norm: seq<real>)
    requires Histogram18(raw) && |norm| == ANGLE_BINS
    ensures var p := PeaksOf(raw, norm);
      && (forall b :: 0 <= b < ANGLE_BINS ==> raw[b] <= p.angleMagMax)
      && p.angleMagMax <= p.weightedPeak <= 5.0 * p.angleMagMax
      && p.weightedPeak + p.tapPeak <= Sum(raw)
  {
    forall b | 0 <= b < ANGLE_BINS ensures raw[b] <= raw[ArgMax(raw, ANGLE_BINS)] {
      ArgMaxIsFirstGreatest(raw, ANGLE_BINS, b);
    }
    WindowsAreDisjoint(raw, ArgMax(raw, ANGLE_BINS));
  }

  lemma SharpnessWithinSum(s: seq<real>, i: nat)
    requires Histogram18(s) && i < ANGLE_BINS
    ensures Sharpness(s, i) <= Sum(s)
  {
    var k := Wrap(i - 1);
    var r := Turn(s, k);
    TurnKeepsSum(s, k);
    SumOfFiveParts(r);
    SumOfFive(r[..5]);
    SumNonNegative(r[9..14]);
    assert r[0] == s[Wrap(i - 1)] && r[1] == s[i] && r[2] == s[Wrap(i + 1)];
  }

  lemma {:induction false} SumOfThree(s: seq<real>, a: seq<real>, b: seq<real>, c: seq<real>)
    requires |s| == |a| == |b| == |c|
    requires forall k :: 0 <= k < |s| ==> s[k] == a[k] + b[k] + c[k]
    ensures Sum(s) == Sum(a) + Sum(b) + Sum(c)
  {
    if |s| > 0 {
      var n := |s| - 1;
      SumOfThree(s[..n], a[..n], b[..n], c[..n]);
    }
  }

  lemma {:induction false} SumWithinMax(s: seq<real>, top: real)
    requires forall k :: 0 <= k < |s| ==> s[k] <= top
    ensures Sum(s) <= |s| as real * top
  {
    if |s| > 0 {
      SumWithinMax(s[..|s| - 1], top);
    }
  }

  /** The sharpest neighbourhood holds at least a sixth of the histogram, since the eighteen cover it three times. */
  lemma DullPeakHoldsASixth(s: seq<real>)
    requires Histogram18(s)
    ensures Sum(s) <= 6.0 * Sharpness(s, Dullest(s, ANGLE_BINS))
  {
    var top := Sharpness(s, Dullest(s, ANGLE_BINS));
    var all := seq(ANGLE_BINS, i requires 0 <= i < ANGLE_BINS => Sharpness(s, i));
    forall k | 0 <= k < ANGLE_BINS ensures all[k] <= top {
      DullestIsLastGreatest(s, ANGLE_BINS, k);
    }
    SumWithinMax(all, top);
    var before, after := Turn(s, ANGLE_BINS - 1), Turn(s, 1);
    forall k | 0 <= k < ANGLE_BINS ensures all[k] == before[k] + s[k] + after[k] {
      
    }
    SumOfThree(all, before, s, after);
    TurnKeepsSum(s, ANGLE_BINS - 1);
    TurnKeepsSum(s, 1);
  }

  /** The peakedness is one of the neighbourhoods the dull peak is the greatest of, and shares stay within the whole. */
  lemma DullPeakBounds(raw: seq<real>, norm: seq<real>)
    requires |raw| == ANGLE_BINS && Histogram18(norm)
    requires Sum(norm) == 1.0 || forall b :: 0 <= b < ANGLE_BINS ==> norm[b] == 0.0
    ensures var p := PeaksOf(raw, norm);
      && 0.0 <= p.peakedness <= p.dullPeak <= 1.0
      && (Sum(norm) == 1.0 ==> p.dullPeak >= 1.0 / 6.0)
  {
    DullestIsLastGreatest(norm, ANGLE_BINS, ArgMax(raw, ANGLE_BINS));
    SharpnessWithinSum(norm, Dullest(norm, ANGLE_BINS));
    DullPeakHoldsASixth(norm);
    if Sum(norm) != 1.0 {
      SumZero(norm);
    }
  }

  // ---- the loops ----

  /** Sum of the five cells from centre - 2 to centre + 2 in loop order. */
  function CellSum(s: seq<real>, centre: nat, k: nat): real
    requires |s| == ANGLE_BINS && centre + SMOOTHER < 2 * ANGLE_BINS && k <= 5
  {
    if k == 0 then 0.0 else CellSum(s, centre, k - 1) + s[Wrap(centre - 3 + k)]
  }

  lemma CellsMakeWindow(s: seq<real>, centre: nat)
    requires |s| == ANGLE_BINS && centre + SMOOTHER < 2 * ANGLE_BINS
    ensures CellSum(s, centre, 5) == WindowSum(s, centre)
  {
    assert CellSum(s, centre, 1) == s[Wrap(centre - 2)];
    assert CellSum(s, centre, 2) == CellSum(s, centre, 1) + s[Wrap(centre - 1)];
    assert CellSum(s, centre, 3) == CellSum(s, centre, 2) + s[Wrap(centre)];
    assert CellSum(s, centre, 4) == CellSum(s, centre, 3) + s[Wrap(centre + 1)];
    assert CellSum(s, centre, 5) == CellSum(s, centre, 4) + s[Wrap(centre + 2)];
  }

  method SumWindow(raw: array<real>, centre: int) returns (sum: real)
    requires raw.Length == ANGLE_BINS && 0 <= centre && centre + SMOOTHER < 2 * ANGLE_BINS
    ensures sum == WindowSum(raw[..], centre)
  {
    sum := 0.0;
    var i := centre - SMOOTHER;
    while i <= centre + SMOOTHER
      invariant centre - SMOOTHER <= i <= centre + SMOOTHER + 1
      invariant sum == CellSum(raw[..], centre, i - centre + 2)
    {
      sum := sum + raw[Wrap(i)];
      i := i + 1;
    }
    CellsMakeWindow(raw[..], centre);
  }

  method FindPeak(raw: array<real>) returns (top: real, at: int)
    requires raw.Length == ANGLE_BINS && Histogram18(raw[..])
    ensures at == ArgMax(raw[..], ANGLE_BINS) && top == raw[at]
  {
    top, at := -1.0, -1;
    var i := 0;
    while i < ANGLE_BINS
      invariant 0 <= i <= ANGLE_BINS
      invariant if i == 0 then top == -1.0 else at == ArgMax(raw[..], i) && top == raw[at]
    {
      assert raw[..][i] >= 0.0;
      if raw[i] > top {
        top, at := raw[i], i;
      }
      i := i + 1;
    }
  }

  method FindDullPeak(norm: array<real>) returns (dullPeak: real, dullIndex: int)
    requires norm.Length == ANGLE_BINS && Histogram18(norm[..])
    ensures dullIndex == Dullest(norm[..], ANGLE_BINS) && dullPeak == Sharpness(norm[..], dullIndex)
  {
    dullPeak, dullIndex := 0.0, -1;
    var i := 0;
    while i < ANGLE_BINS
      invariant 0 <= i <= ANGLE_BINS
      invariant if i == 0 then dullPeak == 0.0
                else dullIndex == Dullest(norm[..], i) && dullPeak == Sharpness(norm[..], dullIndex)
    {
      var left := if i - 1 < 0 then ANGLE_BINS - 1 else i - 1;
      var right := if i + 1 > ANGLE_BINS - 1 then 0 else i + 1;
      var peakedness := norm[left] + norm[i] + norm[right];
      assert peakedness == Sharpness(norm[..], i) >= 0.0;
      if peakedness >= dullPeak {
        dullPeak, dullIndex := peakedness, i;
      }
      i := i + 1;
    }
  }

  /** All peak features of the current histograms. */
  method MeasurePeaks(raw: array<real>, norm: array<real>) returns (p: PeakFeatures)
    requires raw.Length == norm.Length == ANGLE_BINS
    requires Histogram18(raw[..]) && Histogram18(norm[..])
    ensures p == PeaksOf(raw[..], norm[..])
  {
    var angleMagMax, peak := FindPeak(raw);
    var weightedPeak := SumWindow(raw, peak);
    var tapPeak := SumWindow(raw, peak + ANGLE_BINS / 2);
    var left := if peak - 1 < 0 then ANGLE_BINS - 1 else peak - 1;
    var right := if peak + 1 > ANGLE_BINS - 1 then 0 else peak + 1;
    var peakedness := norm[left] + norm[peak] + norm[right];
    var dullPeak, dullIndex := FindDullPeak(norm);
    p := PeakFeatures(weightedPeak, BinAngle(peak), tapPeak, angleMagMax,
                      peakedness, BinAngle(peak), dullPeak, BinAngle(dullIndex));
  }
}
