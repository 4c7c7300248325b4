/** The gesture history of the state machine: a ring of twenty slots against an unbounded log. */
module GestureLog {
  import opened Unipoint

  const SM_MAX_GESTURES := 20
  const CLOCKS_PER_SEC := 1000000

  datatype Mode = ModeNone | ModeNormal | ModeVolume

  datatype Logged = Logged(gesture: Gesture, time: int)

  // ---- the specification: a log that is cleared at each switch ----

  /** The gesture that happened back steps before the last one is a tap. */
  predicate TapBack(log: seq<Logged>, back: nat) {
    back < |log| && log[|log| - 1 - back].gesture == Tap
  }

  function Elapsed(log: seq<Logged>, back: nat): int
    requires back < |log|
  {
    log[|log| - 1].time - log[|log| - 1 - back].time
  }

  /** The last two gestures are taps less than 0.7 s apart. */
  predicate DoubleTap(log: seq<Logged>) {
    TapBack(log, 1) && TapBack(log, 0) && 10 * Elapsed(log, 1) < 7 * CLOCKS_PER_SEC
  }

  /** Two taps and any third gesture within half a second. */
  predicate Triggered(log: seq<Logged>) {
    TapBack(log, 2) && TapBack(log, 1) && 2 * Elapsed(log, 2) < CLOCKS_PER_SEC
  }

  function Record(log: seq<Logged>, g: Gesture, now: int): seq<Logged> {
    if g == NoGesture then log else log + [Logged(g, now)]
  }

  function Flip(mode: Mode): Mode {
    match mode
    case ModeNone => ModeNone
    case ModeNormal => ModeVolume
    case ModeVolume => ModeNormal
  }

  predicate Switches(log: seq<Logged>, mode: Mode) {
    mode != ModeNone && Triggered(log)
  }

  // ---- the ring ----

  /** The slot the gesture with number n goes to. */
  function SlotOf(n: nat): nat {
    n % SM_MAX_GESTURES
  }

  /** The write index after n pushes: it wraps only when the next gesture comes in. */
  function IndexAfter(n: nat): nat {
    if n == 0 then 0 else SlotOf(n - 1) + 1
  }

  lemma SlotsApart(k: nat, n: nat)
    requires 0 < n - k < SM_MAX_GESTURES
    ensures SlotOf(k) != SlotOf(n)
  {
  }

  lemma IndexNext(n: nat)
    ensures SlotOf(n) == if IndexAfter(n) == SM_MAX_GESTURES then 0 else IndexAfter(n)
    ensures IndexAfter(n) <= SM_MAX_GESTURES && (IndexAfter(n) == SM_MAX_GESTURES ==> n >= SM_MAX_GESTURES)
    ensures n < SM_MAX_GESTURES ==> IndexAfter(n) == n
    ensures n == SM_MAX_GESTURES ==> IndexAfter(n) == SM_MAX_GESTURES
  {
  }

  lemma SlotBefore(n: nat)
    requires n > 0
    ensures (SlotOf(n) - 1 + SM_MAX_GESTURES) % SM_MAX_GESTURES == SlotOf(n - 1)
    ensures (IndexAfter(n) - 1 + SM_MAX_GESTURES) % SM_MAX_GESTURES == SlotOf(n - 1)
  {
    Predecessor(n);
  }

  lemma Predecessor(n: nat)
    requires n > 0
    ensures SlotOf(n - 1) == if SlotOf(n) == 0 then SM_MAX_GESTURES - 1 else SlotOf(n) - 1
  {
    var q, r := n / SM_MAX_GESTURES, n % SM_MAX_GESTURES;
    if r == 0 {
      assert n - 1 == SM_MAX_GESTURES * (q - 1) + (SM_MAX_GESTURES - 1);
    } else {
      assert n - 1 == SM_MAX_GESTURES * q + (r - 1);
    }
  }

  class GestureHistory {
    const slots: array<Logged>
    var index: nat
    var exceeded: bool
    var mode: Mode
    /** Everything pushed since the last switch. */
    ghost var log: seq<Logged>

    /** The ring holds the end of the log; folded. */
    ghost predicate Valid()
      reads this, slots
    {
      forall key {:trigger Opens(key)} :: Opens(key) && key == RingKey ==>
        && slots.Length == SM_MAX_GESTURES
        && index == IndexAfter(|log|)
        && (exceeded <==> |log| > SM_MAX_GESTURES)
        && forall k :: 0 <= k < |log| && |log| - SM_MAX_GESTURES <= k ==> slots[SlotOf(k)] == log[k]
    }

    constructor ()
      ensures Valid() && fresh(slots) && log == [] && mode == ModeNormal
    {
      slots := new Logged[SM_MAX_GESTURES](_ => Logged(NoGesture, 0));
      index := 0;
      exceeded := false;
      mode := ModeNormal;
      log := [];
    }

    /** Stores every gesture but NONE, overwriting the oldest once the ring is full. */
    method Push(g: Gesture, now: int)
      requires Valid()
      modifies this`index, this`exceeded, this`log, slots
      ensures Valid() && log == Record(old(log), g, now)
    {
      assert Opens(RingKey);
      if g != NoGesture {
        ghost var n := |log|;
        IndexNext(n);
        if index == SM_MAX_GESTURES {
          index := 0;
          exceeded := true;
        }
        slots[index] := Logged(g, now);
        index := index + 1;
        log := log + [Logged(g, now)];
        forall k | 0 <= k < n && n + 1 - SM_MAX_GESTURES <= k ensures slots[SlotOf(k)] == log[k] {
          SlotsApart(k, n);
        }
      }
    }

    method SwitchTo(newMode: Mode)
      modifies this`mode
      ensures mode == newMode
    {
      mode := newMode;
    }

    /** 1 exactly for a double tap. With fewer than two gestures the code returns without a value;
        whatever the caller reads then is taken not to be 1. */
    method IsDoubleTap() returns (r: int)
      requires Valid()
      ensures r == 1 <==> DoubleTap(log)
    {
      assert Opens(RingKey);
      var current := (index - 1 + SM_MAX_GESTURES) % SM_MAX_GESTURES;
      IndexNext(|log|);
      if !exceeded && index < 2 {
        r :| r != 1;
        return;
      }
      SlotBefore(|log|);
      SlotBefore(|log| - 1);
      var pre := (current - 1 + SM_MAX_GESTURES) % SM_MAX_GESTURES;
      if slots[pre].gesture == Tap && slots[current].gesture == Tap {
        var diff := slots[current].time - slots[pre].time;
        if 10 * diff < 7 * CLOCKS_PER_SEC {
          return 1;
        }
      }
      return 0;
    }

    lemma RingShape()
      requires Valid()
      ensures slots.Length == SM_MAX_GESTURES && index == IndexAfter(|log|)
      ensures exceeded <==> |log| > SM_MAX_GESTURES
    {
      assert Opens(RingKey);
    }

    /** The gesture back steps before the last one is in its slot. */
    lemma RingHolds(back: nat)
      requires Valid() && back < |log| && back < SM_MAX_GESTURES
      ensures slots.Length == SM_MAX_GESTURES && slots[SlotOf(|log| - 1 - back)] == log[|log| - 1 - back]
    {
      assert Opens(RingKey);
    }

    /** Stepping back from the write index finds the last three gestures of the log. */
    lemma LastThree(current: int, pre: int, prepre: int)
      requires Valid() && |log| >= 3
      requires current == (index - 1 + SM_MAX_GESTURES) % SM_MAX_GESTURES
      requires pre == (current - 1 + SM_MAX_GESTURES) % SM_MAX_GESTURES
      requires prepre == (pre - 1 + SM_MAX_GESTURES) % SM_MAX_GESTURES
      ensures 0 <= current < slots.Length && slots[current] == log[|log| - 1]
      ensures 0 <= pre < slots.Length && slots[pre] == log[|log| - 2]
      ensures 0 <= prepre < slots.Length && slots[prepre] == log[|log| - 3]
    {
      RingShape();
      SlotBefore(|log|);
      SlotBefore(|log| - 1);
      SlotBefore(|log| - 2);
      RingHolds(0);
      RingHolds(1);
      RingHolds(2);
    }

    /** Flips between normal and volume mode on the trigger, and clears the history. */
    method CheckAndSwitchMode()
      requires Valid()
      modifies this`index, this`exceeded, this`mode, this`log
      ensures Valid()
      ensures mode == if Switches(old(log), old(mode)) then Flip(old(mode)) else old(mode)
      ensures log == if Switches(old(log), old(mode)) then [] else old(log)
    {
      var current := (index - 1 + SM_MAX_GESTURES) % SM_MAX_GESTURES;
      if mode == ModeNone {
        return;
      }
      RingShape();
      IndexNext(|log|);
      if !exceeded && index < 3 {
        return;
      }
      var pre := (current - 1 + SM_MAX_GESTURES) % SM_MAX_GESTURES;
      var prepre := (pre - 1 + SM_MAX_GESTURES) % SM_MAX_GESTURES;
      LastThree(current, pre, prepre);
      if slots[prepre].gesture == Tap && slots[pre].gesture == Tap {
        if 2 * (slots[current].time - slots[prepre].time) < CLOCKS_PER_SEC {
          if mode == ModeNormal {
            mode := ModeVolume;
          } else if mode == ModeVolume {
            mode := ModeNormal;
          }
          index := 0;
          exceeded := false;
          log := [];
        }
      }
    }
  }
}
