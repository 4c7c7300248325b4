/** The order in which the trends reach half of their final count. */
module Slots {
  import opened Unipoint
  import opened Signal
  import opened Trends

  datatype SlotFeatures = SlotFeatures(
    upCode: nat, noneCode: nat, downCode: nat,
    upLocation: real, noneLocation: real, downLocation: real,
    sequenceHash: int, locationHash: int)

  /** Half of the final count of a trend. */
  function Mark(h: seq<Sample>, t: Trend): nat
    requires |h| > 0
  {
    Count(h, t, |h| - 1) / 2
  }

  /** The first frame of 1..i at which a trend has reached its half, if its half is worth a slot. */
  function CrossedBy(h: seq<Sample>, t: Trend, i: nat): (at: nat)
    requires i < |h|
    ensures at <= i
  {
    if i == 0 || Mark(h, t) <= 1 then 0
    else if CrossedBy(h, t, i - 1) > 0 then CrossedBy(h, t, i - 1)
    else if Count(h, t, i) >= Mark(h, t) then i
    else 0
  }

  /** The half-crossing frame of a trend, 0 when it has none. */
  function Crossing(h: seq<Sample>, t: Trend): nat
    requires |h| > 0
  {
    CrossedBy(h, t, |h| - 1)
  }

  function Before(at: nat, other: nat): nat {
    if 0 < other < at then 1 else 0
  }

  /** The rank of a trend's crossing among the crossings up to frame i, 0 when it has not crossed. */
  function RankBy(h: seq<Sample>, t: Trend, i: nat): nat
    requires i < |h|
  {
    var at := CrossedBy(h, t, i);
    if at == 0 then 0
    else
      1 + Before(at, CrossedBy(h, Rising, i)) + Before(at, CrossedBy(h, Still, i))
        + Before(at, CrossedBy(h, Falling, i))
  }

  function SlotCode(h: seq<Sample>, t: Trend): nat
    requires |h| > 0
  {
    RankBy(h, t, |h| - 1)
  }

  function Clamp(location: real, low: real): real {
    if location < 0.05 then low else if location > 0.94 then 0.94 else location
  }

  function Location(h: seq<Sample>, t: Trend): real
    requires |h| > 0
  {
    Clamp(Fraction(Crossing(h, t), |h|), if t == Rising then 0.5 else 0.05)
  }

  function Digit(location: real): int {
    (location * 10.0 + 0.5).Floor
  }

  function SlotsOf(h: seq<Sample>): SlotFeatures
    requires |h| > 0
  {
    SlotFeatures(SlotCode(h, Rising), SlotCode(h, Still), SlotCode(h, Falling),
                 Location(h, Rising), Location(h, Still), Location(h, Falling),
                 SlotCode(h, Rising) * 100 + SlotCode(h, Still) * 10 + SlotCode(h, Falling),
                 Digit(Location(h, Rising)) * 100 + Digit(Location(h, Still)) * 10 + Digit(Location(h, Falling)))
  }

  // ---- laws ----

  /** A trend that crosses at a frame belongs to that frame. */
  lemma {:induction false} CrossingIsOwnFrame(h: seq<Sample>, t: Trend, i: nat)
    requires i < |h| && CrossedBy(h, t, i) > 0
    ensures Mark(h, t) > 1 && TrendAt(h, CrossedBy(h, t, i)) == t
    ensures Count(h, t, CrossedBy(h, t, i)) == Mark(h, t)
    ensures forall k :: 0 <= k < CrossedBy(h, t, i) ==> Count(h, t, k) < Mark(h, t)
  {
    if CrossedBy(h, t, i - 1) > 0 {
      CrossingIsOwnFrame(h, t, i - 1);
    } else {
      NotYetCrossed(h, t, i - 1);
    }
  }

  lemma {:induction false} NotYetCrossed(h: seq<Sample>, t: Trend, i: nat)
    requires i < |h| && Mark(h, t) > 1 && CrossedBy(h, t, i) == 0
    ensures forall k :: 0 <= k <= i ==> Count(h, t, k) < Mark(h, t)
  {
    if i > 0 {
      NotYetCrossed(h, t, i - 1);
    }
  }

  /** Crossing frames of different trends never coincide. */
  lemma CrossingsAreDistinct(h: seq<Sample>, t: Trend, u: Trend, i: nat)
    requires i < |h| && t != u && CrossedBy(h, t, i) > 0
    ensures CrossedBy(h, t, i) != CrossedBy(h, u, i)
  {
    CrossingIsOwnFrame(h, t, i);
    if CrossedBy(h, u, i) > 0 {
      CrossingIsOwnFrame(h, u, i);
    }
  }

  /** A trend gets a slot exactly when its final count is at least four. */
  lemma SlotNeedsFour(h: seq<Sample>, t: Trend)
    requires |h| > 0
    ensures SlotCode(h, t) > 0 <==> Count(h, t, |h| - 1) >= 4
  {
    if Crossing(h, t) > 0 {
      CrossingIsOwnFrame(h, t, |h| - 1);
    }
  }

  function Slotted(h: seq<Sample>): nat
    requires |h| > 0
  {
    (if SlotCode(h, Rising) > 0 then 1 else 0) + (if SlotCode(h, Still) > 0 then 1 else 0)
    + (if SlotCode(h, Falling) > 0 then 1 else 0)
  }

  /** The nonzero codes are exactly 1..k, in the order of the crossing frames. */
  lemma CodesRankCrossings(h: seq<Sample>, t: Trend, u: Trend)
    requires |h| > 0 && t != Opposing && u != Opposing
    ensures SlotCode(h, t) <= Slotted(h)
    ensures t != u && SlotCode(h, t) > 0 ==>
      SlotCode(h, t) != SlotCode(h, u) &&
      (SlotCode(h, u) > 0 ==> (SlotCode(h, t) < SlotCode(h, u) <==> Crossing(h, t) < Crossing(h, u)))
  {
    var n := |h| - 1;
    if Crossing(h, Rising) > 0 {
      CrossingsAreDistinct(h, Rising, Still, n);
      CrossingsAreDistinct(h, Rising, Falling, n);
    }
    if Crossing(h, Still) > 0 {
      CrossingsAreDistinct(h, Still, Rising, n);
      CrossingsAreDistinct(h, Still, Falling, n);
    }
    if Crossing(h, Falling) > 0 {
      CrossingsAreDistinct(h, Falling, Rising, n);
      CrossingsAreDistinct(h, Falling, Still, n);
    }
  }

  lemma CodeRange(h: seq<Sample>, t: Trend)
    requires |h| > 0
    ensures 0 <= SlotCode(h, t) <= 4
    ensures t != Opposing ==> SlotCode(h, t) <= 3
  {
    if t != Opposing {
      CodesRankCrossings(h, t, t);
    }
  }

  lemma ShareCompares(c: real, m: real, a: real)
    requires m > 0.0
    ensures c / m < a <==> c < a * m
    ensures c / m > a <==> c > a * m
    ensures c / m * m == c
  {
    var q := c / m;
    assert q * m == c;
    if q < a {
      ScaledOrder(q, a, m);
    } else if q > a {
      ScaledOrder(a, q, m);
    }
  }

  lemma ScaledOrder(a: real, b: real, m: real)
    requires m > 0.0 && a < b
    ensures a * m < b * m
  {
  }

  lemma FractionInNumbers(c: nat, n: nat)
    requires n > 0
    ensures Fraction(c, n) < 0.05 <==> 20 * c < n
    ensures Fraction(c, n) > 0.94 <==> 50 * c > 47 * n
    ensures Fraction(c, n) * n as real == c as real
  {
    ShareCompares(c as real, n as real, 0.05);
    ShareCompares(c as real, n as real, 0.94);
  }

  /** A location is the share of the contact before the half-crossing, kept between 0.05 and 0.94; a trend that
      crosses too early or never is at 0.05, or in the middle when it is the rising one. */
  lemma LocationInNumbers(h: seq<Sample>, t: Trend)
    requires |h| > 0
    ensures 20 * Crossing(h, t) < |h| ==> Location(h, t) == if t == Rising then 0.5 else 0.05
    ensures 50 * Crossing(h, t) > 47 * |h| ==> Location(h, t) == 0.94
    ensures 20 * Crossing(h, t) >= |h| && 50 * Crossing(h, t) <= 47 * |h| ==>
      Location(h, t) * |h| as real == Crossing(h, t) as real
  {
    FractionInNumbers(Crossing(h, t), |h|);
  }

  /** The published codes say which trends take part and which of two is half through first. */
  lemma CodesAreOrder(h: seq<Sample>)
    requires |h| > 0
    ensures var f := SlotsOf(h);
      && (f.upCode > 0 <==> Count(h, Rising, |h| - 1) >= 4) && (f.noneCode > 0 <==> Count(h, Still, |h| - 1) >= 4)
      && (f.downCode > 0 <==> Count(h, Falling, |h| - 1) >= 4)
      && (f.upCode > 0 && f.noneCode > 0 ==> (f.upCode < f.noneCode <==> Crossing(h, Rising) < Crossing(h, Still)))
      && (f.upCode > 0 && f.downCode > 0 ==> (f.upCode < f.downCode <==> Crossing(h, Rising) < Crossing(h, Falling)))
      && (f.noneCode > 0 && f.downCode > 0 ==> (f.noneCode < f.downCode <==> Crossing(h, Still) < Crossing(h, Falling)))
  {
    SlotNeedsFour(h, Rising);
    SlotNeedsFour(h, Still);
    SlotNeedsFour(h, Falling);
    CodesRankCrossings(h, Rising, Still);
    CodesRankCrossings(h, Rising, Falling);
    CodesRankCrossings(h, Still, Falling);
  }

  /** Location digits are tenths, rounded to the nearest, from 1 to 9. */
  lemma DigitRange(h: seq<Sample>, t: Trend)
    requires |h| > 0
    ensures 1 <= Digit(Location(h, t)) <= 9
    ensures 10.0 * Location(h, t) - 0.5 < Digit(Location(h, t)) as real <= 10.0 * Location(h, t) + 0.5
  {
    var v := Location(h, t);
    assert 0.05 <= v <= 0.94;
    assert 1.0 <= v * 10.0 + 0.5 <= 9.9;
  }

  /** So every code from 1 to their number is taken. */
  lemma CodesAreTaken(h: seq<Sample>, code: nat)
    requires |h| > 0 && 1 <= code <= Slotted(h)
    ensures code == SlotCode(h, Rising) || code == SlotCode(h, Still) || code == SlotCode(h, Falling)
  {
    CodesRankCrossings(h, Rising, Still);
    CodesRankCrossings(h, Still, Falling);
    CodesRankCrossings(h, Falling, Rising);
  }

  function DigitsOf(hash: int): (int, int, int) {
    (hash / 100, hash / 10 % 10, hash % 10)
  }

  lemma ThreeDigits(a: int, b: int, c: int)
    requires 0 <= a <= 9 && 0 <= b <= 9 && 0 <= c <= 9
    ensures DigitsOf(a * 100 + b * 10 + c) == (a, b, c)
  {
    var hash := a * 100 + b * 10 + c;
    Hundreds(a, b * 10 + c);
    Tens(a * 10 + b, c);
    assert hash == (a * 10 + b) * 10 + c;
    Tens(a, b);
  }

  lemma Tens(q: int, r: int)
    requires 0 <= r <= 9
    ensures (q * 10 + r) / 10 == q && (q * 10 + r) % 10 == r
  {
  }

  lemma Hundreds(q: int, r: int)
    requires 0 <= r <= 99
    ensures (q * 100 + r) / 100 == q
  {
  }

  /** The decimal digits of either hash are its three parts, up, none, down. */
  lemma HashesDecode(h: seq<Sample>)
    requires |h| > 0
    ensures var f := SlotsOf(h);
      && DigitsOf(f.sequenceHash) == (f.upCode, f.noneCode, f.downCode)
      && DigitsOf(f.locationHash) == (Digit(f.upLocation), Digit(f.noneLocation), Digit(f.downLocation))
  {
    forall t ensures SlotCode(h, t) <= 4 {
      CodeRange(h, t);
    }
    forall t ensures 1 <= Digit(Location(h, t)) <= 9 {
      DigitRange(h, t);
    }
    ThreeDigits(SlotCode(h, Rising), SlotCode(h, Still), SlotCode(h, Falling));
    ThreeDigits(Digit(Location(h, Rising)), Digit(Location(h, Still)), Digit(Location(h, Falling)));
  }

  // ---- the loop ----

  /** What the loop remembers of one trend: where it crossed, where that is in the contact, its code. */
  datatype Slot = Slot(at: int, location: real, code: nat)

  function Fraction(i: int, n: nat): real
    requires n > 0
  {
    i as real / n as real
  }

  ghost function SlotBy(h: seq<Sample>, t: Trend, i: nat): Slot
    requires i < |h|
  {
    var at := CrossedBy(h, t, i);
    if at == 0 then Slot(-1, 0.0, 0) else Slot(at, Fraction(at, |h|), RankBy(h, t, i))
  }

  ghost function NextSlot(h: seq<Sample>, i: nat): nat
    requires i < |h|
  {
    1 + (if CrossedBy(h, Rising, i) > 0 then 1 else 0) + (if CrossedBy(h, Still, i) > 0 then 1 else 0)
      + (if CrossedBy(h, Falling, i) > 0 then 1 else 0)
  }

  /** Only the trend of frame i can cross at frame i. */
  lemma CrossesAt(h: seq<Sample>, t: Trend, i: nat)
    requires 0 < i < |h|
    ensures CrossedBy(h, t, i) ==
      if CrossedBy(h, t, i - 1) == 0 && Mark(h, t) > 1 && Count(h, t, i) >= Mark(h, t) then i
      else CrossedBy(h, t, i - 1)
    ensures CrossedBy(h, t, i) == i ==> TrendAt(h, i) == t
  {
    if CrossedBy(h, t, i) == i {
      CrossingIsOwnFrame(h, t, i);
    }
  }

  /** Does the trend with this count cross its half here for the first time? */
  predicate Crosses(count: nat, mark: nat, s: Slot) {
    count >= mark && s.at < 0 && mark > 1
  }

  /** At most one trend takes the next code at frame i; the others keep their slots. */
  lemma SlotsNext(h: seq<Sample>, t: Trend, i: nat)
    requires 0 < i < |h| && t != Opposing
    ensures SlotBy(h, t, i) ==
      if Crosses(Count(h, t, i), Mark(h, t), SlotBy(h, t, i - 1)) then Slot(i, Fraction(i, |h|), NextSlot(h, i - 1))
      else SlotBy(h, t, i - 1)
    ensures NextSlot(h, i) == NextSlot(h, i - 1) + if exists u :: u != Opposing && CrossedBy(h, u, i) == i then 1 else 0
    ensures Crosses(Count(h, t, i), Mark(h, t), SlotBy(h, t, i - 1)) ==> TrendAt(h, i) == t && CrossedBy(h, t, i) == i
    ensures CrossedBy(h, t, i) == i ==> Crosses(Count(h, t, i), Mark(h, t), SlotBy(h, t, i - 1))
  {
    CrossesAt(h, Rising, i);
    CrossesAt(h, Still, i);
    CrossesAt(h, Falling, i);
  }

  /** Orders the trends by the frame at which each reaches half of its final count. */
  method AssignSlots(pad: array<Scratch>, n: nat, ghost h: seq<Sample>) returns (f: SlotFeatures)
    requires 0 < n == |h| <= pad.Length
    requires Trended(h, pad[..])
    ensures f == SlotsOf(h)
  {
    assert TrendRow(h, pad[n - 1], n - 1);
    var nextSlot := 1;
    var up, none, down := Slot(-1, 0.0, 0), Slot(-1, 0.0, 0), Slot(-1, 0.0, 0);
    var upMark, noneMark, downMark := pad[n - 1].up / 2, pad[n - 1].none / 2, pad[n - 1].down / 2;
    var i := 1;
    while i < n
      invariant 1 <= i <= n
      invariant up == SlotBy(h, Rising, i - 1) && none == SlotBy(h, Still, i - 1) && down == SlotBy(h, Falling, i - 1)
      invariant nextSlot == NextSlot(h, i - 1)
    {
      assert TrendRow(h, pad[i], i);
      SlotsNext(h, Rising, i);
      SlotsNext(h, Still, i);
      SlotsNext(h, Falling, i);
      if Crosses(pad[i].up, upMark, up) {
        up, nextSlot := Slot(i, Fraction(i, n), nextSlot), nextSlot + 1;
      }
      if Crosses(pad[i].none, noneMark, none) {
        none, nextSlot := Slot(i, Fraction(i, n), nextSlot), nextSlot + 1;
      }
      if Crosses(pad[i].down, downMark, down) {
        down, nextSlot := Slot(i, Fraction(i, n), nextSlot), nextSlot + 1;
      }
      i := i + 1;
    }
    f := Publish(up, none, down, h);
  }

  lemma LocationOfSlot(h: seq<Sample>, t: Trend)
    requires |h| > 0
    ensures Location(h, t) == Clamp(SlotBy(h, t, |h| - 1).location, if t == Rising then 0.5 else 0.05)
  {
  }

  method ClampLocation(location: real, low: real) returns (r: real)
    requires low <= 0.94
    ensures r == Clamp(location, low)
  {
    r := location;
    if r < 0.05 {
      r := low;
    }
    if r > 0.94 {
      r := 0.94;
    }
  }

  /** Clamps the locations away from the ends of the contact and packs the two hashes. */
  method Publish(up: Slot, none: Slot, down: Slot, ghost h: seq<Sample>) returns (f: SlotFeatures)
    requires |h| > 0
    requires up == SlotBy(h, Rising, |h| - 1) && none == SlotBy(h, Still, |h| - 1)
    requires down == SlotBy(h, Falling, |h| - 1)
    ensures f == SlotsOf(h)
  {
    var upLocation := ClampLocation(up.location, 0.5);
    var noneLocation := ClampLocation(none.location, 0.05);
    var downLocation := ClampLocation(down.location, 0.05);
    LocationOfSlot(h, Rising);
    LocationOfSlot(h, Still);
    LocationOfSlot(h, Falling);
    f := SlotFeatures(up.code, none.code, down.code, upLocation, noneLocation, downLocation,
                      up.code * 100 + none.code * 10 + down.code,
                      Digit(upLocation) * 100 + Digit(noneLocation) * 10 + Digit(downLocation));
  }
}
