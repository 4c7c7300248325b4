/** The per-frame touch machine. Six modes, two counters and a delay line are a function of the
    finger-on frames seen since the finger came down. */
module Touch {
  import opened Basics
  import opened Unipoint
  import opened DecisionTree
  import opened Recognizer
  import opened Ballistics

  /** What a pointer frame reports: the accelerated motion and the raw velocity. */
  datatype Pointing = Pointing(position: Point, velocity: Point)

  datatype TouchOut = TouchOut(gesture: Gesture, pointing: Option<Pointing>, frameCount: nat)

  datatype ProcMode = Idle | Debounce | TapNSwipeMonitor | SwipeMonitor | BallisticsStart | BallisticsRun

  // ---- the specification: the contact so far and what is remembered of the last ----

  datatype Contact = Contact(frames: seq<Sample>, memory: Memory)

  /** The memory from which a lift is classified: a contact that fills the history is not filtered. */
  function Filtered(k: Kernel, s: Contact): Memory {
    if TOUCH_MIN_FRAMES < |s.frames| < SWIPE_MAX_FRAMES then k.memoryOf(s.frames) else s.memory
  }

  function Advance(k: Kernel, s: Contact, c: Sample): Contact {
    if c.finger == 1 then s.(frames := s.frames + [c])
    else if c.finger == 0 then Contact([], Filtered(k, s))
    else s
  }

  function PointOf(c: Sample): Point {
    Point(c.x as real, c.y as real)
  }

  /** Velocity after n frames: three steps of the delayed path, a fifth of their mean. */
  function DelayedVelocity(frames: seq<Sample>): Point
    requires |frames| >= 5
  {
    var a, b := PointOf(frames[|frames| - 5]), PointOf(frames[|frames| - 2]);
    Point((b.x - a.x) / 15.0, (b.y - a.y) / 15.0)
  }

  function EmittedGesture(k: Kernel, s: Contact, c: Sample): Gesture {
    var n := |s.frames|;
    if c.finger == 1 then (if n + 1 > SWIPE_MAX_FRAMES + 1 then Pointer else NoGesture)
    else if c.finger == 0 then
      if n <= TOUCH_MIN_FRAMES then NoGesture
      else if n <= SWIPE_MAX_FRAMES then k.answer(Filtered(k, s))
      else Pointer
    else NoGesture
  }

  /** The delay line after the frames seen: their last five points; folded. */
  ghost predicate Delays(line: seq<Point>, frames: seq<Sample>) {
    && |line| == LOOKAHEAD <= |frames|
    && forall key {:trigger Opens(key)} :: Opens(key) && key == LineKey ==>
         forall i :: 0 <= i < LOOKAHEAD ==> line[i] == PointOf(frames[|frames| - LOOKAHEAD + i])
  }

  /** Velocity off the delay line. */
  function LineVelocity(line: seq<Point>): Point
    requires |line| == LOOKAHEAD
  {
    Point((line[3].x - line[0].x) / 15.0, (line[3].y - line[0].y) / 15.0)
  }

  /** The seed is the delay line of the first 46 frames. */
  lemma SeedDelays(line: seq<Point>, h: seq<Sample>, frames: seq<Sample>)
    requires |frames| == SWIPE_MAX_FRAMES + 1 && h == frames[..SWIPE_MAX_FRAMES] && |line| == LOOKAHEAD
    requires forall i :: 0 <= i < LOOKAHEAD - 1 ==> line[i] == TailPoint(h, i)
    requires line[LOOKAHEAD - 1] == PointOf(frames[SWIPE_MAX_FRAMES])
    ensures Delays(line, frames)
  {
  }

  lemma DelayShifts(line: seq<Point>, frames: seq<Sample>, c: Sample)
    requires Delays(line, frames)
    ensures Delays(line[1..] + [PointOf(c)], frames + [c])
    ensures LineVelocity(line[1..] + [PointOf(c)]) == DelayedVelocity(frames + [c])
  {
    assert Opens(LineKey);
    var next := line[1..] + [PointOf(c)];
    forall i | 0 <= i < LOOKAHEAD ensures next[i] == PointOf((frames + [c])[|frames| + 1 - LOOKAHEAD + i]) {
    }
  }

  function EmittedVelocity(s: Contact, c: Sample): Option<Point> {
    if c.finger == 1 && |s.frames| + 1 > SWIPE_MAX_FRAMES + 1 then Some(DelayedVelocity(s.frames + [c])) else None
  }

  /** The acceleration curve on top of the raw velocity. */
  function Accelerate(k: Kernel, v: Option<Point>): Option<Pointing> {
    match v
    case None => None
    case Some(p) => Some(Pointing(k.accelerate(p), p))
  }

  function ModeAfter(n: nat): ProcMode {
    if n == 0 then Idle
    else if n <= TOUCH_MIN_FRAMES then Debounce
    else if n <= TAP_MAX_FRAMES + 1 then TapNSwipeMonitor
    else if n <= SWIPE_MAX_FRAMES then SwipeMonitor
    else if n == SWIPE_MAX_FRAMES + 1 then BallisticsStart
    else BallisticsRun
  }

  /** Slot i of the delay line when it is seeded: the history's tail, or the origin where it is too short. */
  function TailPoint(h: seq<Sample>, i: nat): Point {
    if 0 <= |h| - (LOOKAHEAD - 1) + i < |h| then PointOf(h[|h| - (LOOKAHEAD - 1) + i]) else Point(0.0, 0.0)
  }

  function Min(a: nat, b: nat): nat {
    if a < b then a else b
  }

  // ---- the machine ----

  class TouchMachine {
    const rec: Recognizer
    const lookAhead: array<Point>
    var mode: ProcMode
    var frameCount: nat
    var pointLast: Point
    ghost var contact: seq<Sample>

    ghost function Repr(): set<object>
      reads this
    {
      {this, rec, rec.history, rec.pad, rec.raw, rec.norm, lookAhead}
    }

    ghost predicate Valid()
      reads this, rec, rec.history, rec.raw, rec.norm, lookAhead
    {
      var n := |contact|;
      && rec.Valid() && lookAhead.Length == LOOKAHEAD
      && mode == ModeAfter(n)
      && (n > 0 ==> frameCount == Min(n - 1, SWIPE_MAX_FRAMES) && rec.count == Min(n, SWIPE_MAX_FRAMES)
                    && rec.Contact() == contact[..rec.count])
      && (n == SWIPE_MAX_FRAMES + 1 ==> pointLast == PointOf(contact[n - 1]))
      && (n > SWIPE_MAX_FRAMES + 1 ==> Delays(lookAhead[..], contact))
    }

    /** The machine as its specification sees it. */
    ghost function View(): Contact
      reads this, rec, rec.history, rec.raw, rec.norm, lookAhead
      requires Valid()
    {
      Contact(contact, rec.memory)
    }

    constructor (m: Trig)
      requires SoundAngles(m) && SoundTanh(m)
      ensures Valid() && fresh(Repr()) && rec.trig == m && rec.kernel == KernelOf(m)
      ensures View() == Contact([], Blank)
    {
      rec := new Recognizer(m);
      lookAhead := new Point[LOOKAHEAD](_ => Point(0.0, 0.0));
      mode := Idle;
      frameCount := 0;
      pointLast := Point(0.0, 0.0);
      contact := [];
    }

    /** Seeds the delay line with the tail of the history and the last sample. */
    method SeedLookAhead()
      requires rec.Valid() && lookAhead.Length == LOOKAHEAD
      modifies lookAhead, this`pointLast
      ensures forall i :: 0 <= i < LOOKAHEAD - 1 ==> lookAhead[i] == TailPoint(rec.Contact(), i)
      ensures lookAhead[LOOKAHEAD - 1] == old(pointLast) && pointLast == lookAhead[0]
    {
      ghost var h := rec.Contact();
      var j := rec.count - 1;
      var i := LOOKAHEAD - 2;
      while i >= 0
        invariant -1 <= i <= LOOKAHEAD - 2 && pointLast == old(pointLast)
        invariant j == rec.count - (LOOKAHEAD - 1) + i && rec.Contact() == h
        invariant forall k :: i < k < LOOKAHEAD - 1 ==> lookAhead[k] == TailPoint(h, k)
      {
        if j >= 0 {
          lookAhead[i] := PointOf(rec.history[j]);
        } else {
          lookAhead[i] := Point(0.0, 0.0);
        }
        j := j - 1;
        i := i - 1;
      }
      lookAhead[LOOKAHEAD - 1] := pointLast;
      pointLast := lookAhead[0];
    }

    /** Shifts the delay line by one frame. */
    method ShiftLookAhead(p: Point)
      requires lookAhead.Length == LOOKAHEAD
      modifies lookAhead
      ensures lookAhead[..] == old(lookAhead[..])[1..] + [p]
    {
      var i := 1;
      while i < LOOKAHEAD
        invariant 1 <= i <= LOOKAHEAD
        invariant forall k :: 0 <= k < i - 1 ==> lookAhead[k] == old(lookAhead[k + 1])
        invariant forall k :: i - 1 <= k < LOOKAHEAD ==> lookAhead[k] == old(lookAhead[k])
      {
        lookAhead[i - 1] := lookAhead[i];
        i := i + 1;
      }
      lookAhead[LOOKAHEAD - 1] := p;
    }

    /** Mean of the three oldest steps, scaled down. */
    method RawVelocity() returns (v: Point)
      requires lookAhead.Length == LOOKAHEAD
      ensures v == LineVelocity(lookAhead[..])
    {
      v := Point(0.0, 0.0);
      var i := 1;
      while i < 4
        invariant 1 <= i <= 4
        invariant v == Point(lookAhead[i - 1].x - lookAhead[0].x, lookAhead[i - 1].y - lookAhead[0].y)
      {
        v := Point(v.x + (lookAhead[i].x - lookAhead[i - 1].x), v.y + (lookAhead[i].y - lookAhead[i - 1].y));
        i := i + 1;
      }
      v := Point(v.x / 3.0, v.y / 3.0);
      v := Point(v.x * 0.2, v.y * 0.2);
    }

    /** Waits for a finger to touch the sensor. */
    method WaitForTouch(c: Sample) returns (gesture: Gesture)
      requires Valid() && mode == Idle
      modifies this, rec, rec.history
      ensures Valid() && contact == (if c.finger == 1 then [c] else [])
      ensures rec.memory == old(rec.memory) && gesture == NoGesture
    {
      gesture := NoGesture;
      if c.finger == 0 {
        mode := Idle;
      }
      if c.finger == 1 {
        rec.Clear();
        frameCount := 0;
        rec.Push(c);
        mode := Debounce;
        contact := [c];
      }
    }

    /** Collects the path of the contact, or gives up on a gesture when the history is full. */
    method Collect(c: Sample) returns (gesture: Gesture)
      requires rec.Valid()
      modifies this`pointLast, this`mode, this`frameCount, rec`count, rec.history
      ensures rec.Valid() && rec.memory == old(rec.memory) && frameCount == old(frameCount) + 1
      ensures old(rec.count) < SWIPE_MAX_FRAMES ==>
        && rec.count == old(rec.count) + 1 && rec.Contact() == old(rec.Contact()) + [c]
        && mode == old(mode) && pointLast == old(pointLast) && gesture == NoGesture
      ensures old(rec.count) == SWIPE_MAX_FRAMES ==>
        && rec.count == old(rec.count) && rec.Contact() == old(rec.Contact())
        && mode == BallisticsStart && pointLast == PointOf(c) && gesture == TimedOut
    {
      gesture := NoGesture;
      if rec.count < SWIPE_MAX_FRAMES {
        rec.Push(c);
      } else {
        pointLast := PointOf(c);
        gesture := TimedOut;
        mode := BallisticsStart;
      }
      frameCount := frameCount + 1;
    }

    /** Allows for a short settle time. */
    method DebounceTouch(c: Sample) returns (gesture: Gesture)
      requires Valid() && mode == Debounce
      modifies this, rec`count, rec.history
      ensures Valid()
      ensures contact == if c.finger == 1 then old(contact) + [c] else if c.finger == 0 then [] else old(contact)
      ensures rec.memory == old(rec.memory) && gesture == NoGesture
    {
      gesture := NoGesture;
      if c.finger == 0 {
        mode := Idle;
        contact := [];
      }
      if c.finger == 1 {
        gesture := Collect(c);
        if frameCount >= TOUCH_MIN_FRAMES {
          mode := TapNSwipeMonitor;
        }
        gesture := NoGesture;
        contact := contact + [c];
      }
    }

    /** Monitors for taps and swipes. */
    method MonitorTapNSwipe(c: Sample) returns (gesture: Gesture)
      requires Valid() && mode == TapNSwipeMonitor && c.finger != 0
      modifies this, rec`count, rec.history
      ensures Valid() && contact == if c.finger == 1 then old(contact) + [c] else old(contact)
      ensures rec.memory == old(rec.memory) && gesture == NoGesture
    {
      gesture := NoGesture;
      if c.finger == 1 {
        gesture := Collect(c);
        if frameCount > TAP_MAX_FRAMES {
          mode := SwipeMonitor;
        }
        gesture := NoGesture;
        contact := contact + [c];
      }
    }

    /** Beyond the length of a tap. What is lifted here is still classified like any contact. */
    method MonitorSwipe(c: Sample) returns (gesture: Gesture)
      requires Valid() && mode == SwipeMonitor && c.finger != 0
      modifies this, rec`count, rec.history
      ensures Valid() && contact == if c.finger == 1 then old(contact) + [c] else old(contact)
      ensures rec.memory == old(rec.memory) && gesture == NoGesture
    {
      gesture := NoGesture;
      if c.finger == 1 {
        gesture := Collect(c);
        if frameCount >= SWIPE_MAX_FRAMES {
          pointLast := PointOf(c);
          mode := BallisticsStart;
        }
        gesture := NoGesture;
        contact := contact + [c];
      }
    }

    /** The finger lifts while a tap or a swipe is still possible. */
    method Lift() returns (gesture: Gesture)
      requires Valid() && (mode == TapNSwipeMonitor || mode == SwipeMonitor)
      modifies this, rec, rec.pad, rec.raw, rec.norm
      ensures Valid() && contact == []
      ensures old(|contact|) < SWIPE_MAX_FRAMES ==> rec.memory == rec.kernel.memoryOf(old(contact))
      ensures old(|contact|) == SWIPE_MAX_FRAMES ==> rec.memory == old(rec.memory)
      ensures gesture == rec.kernel.answer(rec.memory)
    {
      ghost var frames := contact;
      assert |frames| < SWIPE_MAX_FRAMES ==> rec.Contact() == frames;
      rec.Filter();
      gesture := rec.ClassifyGesture();
      mode := Idle;
      contact := [];
    }

    method StartPointer()
      requires Valid() && mode == BallisticsStart
      modifies lookAhead, this`pointLast, this`mode
      ensures Delays(lookAhead[..], contact) && mode == BallisticsRun
    {
      SeedLookAhead();
      SeedDelays(lookAhead[..], rec.Contact(), contact);
      mode := BallisticsRun;
    }

    /** The timed-out contact becomes a pointer; the first frame seeds the delay line. */
    method DrivePointer(c: Sample) returns (gesture: Gesture, velocity: Option<Point>)
      requires Valid() && (mode == BallisticsStart || mode == BallisticsRun)
      modifies this, lookAhead
      ensures Valid()
      ensures contact == if c.finger == 1 then old(contact) + [c] else if c.finger == 0 then [] else old(contact)
      ensures gesture == (if c.finger <= 1 then Pointer else NoGesture)
      ensures velocity == EmittedVelocity(old(View()), c)
    {
      if mode == BallisticsStart && c.finger == 1 {
        StartPointer();
      }
      if c.finger == 1 {
        DelayShifts(lookAhead[..], contact, c);
      }
      gesture, velocity := RunBallistics(c);
      if c.finger == 0 {
        contact := [];
      } else if c.finger == 1 {
        contact := contact + [c];
      }
    }

    /** Pointer state: the delayed sample moves the pointer; the lift ends the contact. */
    method RunBallistics(c: Sample) returns (gesture: Gesture, velocity: Option<Point>)
      requires lookAhead.Length == LOOKAHEAD
      modifies lookAhead, this`mode, this`pointLast
      ensures mode == if c.finger == 0 then Idle else old(mode)
      ensures gesture == if c.finger <= 1 then Pointer else NoGesture
      ensures lookAhead[..] == if c.finger == 1 then old(lookAhead[..])[1..] + [PointOf(c)] else old(lookAhead[..])
      ensures velocity == if c.finger == 1 then Some(LineVelocity(lookAhead[..])) else None
      ensures pointLast == if c.finger == 1 then lookAhead[0] else old(pointLast)
    {
      gesture, velocity := NoGesture, None;
      if c.finger == 0 {
        mode := Idle;
        gesture := Pointer;
      }
      if c.finger == 1 {
        ShiftLookAhead(PointOf(c));
        var pointRaw := lookAhead[0];
        var v := RawVelocity();
        velocity := Some(v);
        pointLast := pointRaw;
        gesture := Pointer;
      }
    }

    /** Main processing step, called for each report of the sensor. */
    method Process(c: Sample) returns (out: TouchOut)
      requires Valid()
      modifies Repr()
      ensures Valid()
      ensures contact == Advance(rec.kernel, old(View()), c).frames
      ensures rec.memory == Advance(rec.kernel, old(View()), c).memory
      ensures out.gesture == EmittedGesture(rec.kernel, old(View()), c)
      ensures out.pointing == Accelerate(rec.kernel, EmittedVelocity(old(View()), c))
      ensures out.frameCount == frameCount
    {
      var gesture := NoGesture;
      var velocity := None;
      match mode {
        case Idle =>
          gesture := WaitForTouch(c);
        case Debounce =>
          gesture := DebounceTouch(c);
        case TapNSwipeMonitor =>
          if c.finger == 0 {
            gesture := Lift();
          } else {
            gesture := MonitorTapNSwipe(c);
          }
        case SwipeMonitor =>
          if c.finger == 0 {
            gesture := Lift();
          } else {
            gesture := MonitorSwipe(c);
          }
        case BallisticsStart =>
          gesture, velocity := DrivePointer(c);
        case BallisticsRun =>
          gesture, velocity := DrivePointer(c);
      }
      var pointing := None;
      if velocity.Some? {
        KernelAccelerates(rec.kernel, rec.trig, velocity.value);
        pointing := Some(Pointing(PointerOut(rec.trig, velocity.value), velocity.value));
      }
      out := TouchOut(gesture, pointing, frameCount);
    }
  }
}
