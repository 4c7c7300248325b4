/** Laws of the touch machine over whole contacts. */
module TouchRuns {
  import opened Basics
  import opened Unipoint
  import opened DecisionTree
  import opened Recognizer
  import opened Touch

  function RunTouch(k: Kernel, s: Contact, cs: seq<Sample>): Contact
    decreases cs
  {
    if cs == [] then s else RunTouch(k, Advance(k, s, cs[0]), cs[1..])
  }

  /** The gesture emitted for each sample. */
  function GestureRun(k: Kernel, s: Contact, cs: seq<Sample>): (gs: seq<Gesture>)
    ensures |gs| == |cs|
    decreases cs
  {
    if cs == [] then [] else [EmittedGesture(k, s, cs[0])] + GestureRun(k, Advance(k, s, cs[0]), cs[1..])
  }

  /** The samples that put the finger on the sensor. */
  function Downs(cs: seq<Sample>): seq<Sample> {
    if cs == [] then [] else (if cs[0].finger == 1 then [cs[0]] else []) + Downs(cs[1..])
  }

  /** The finger is never reported as lifted; other readings than 0 and 1 may occur. */
  ghost predicate StaysDown(cs: seq<Sample>) {
    forall i :: 0 <= i < |cs| ==> cs[i].finger != 0
  }

  function Tally(gs: seq<Gesture>, g: Gesture): nat {
    if gs == [] then 0 else (if gs[0] == g then 1 else 0) + Tally(gs[1..], g)
  }

  /** Pointer frames among the first n finger-on frames of a contact. */
  function PointerFrames(n: nat): nat {
    if n <= SWIPE_MAX_FRAMES + 1 then 0 else n - (SWIPE_MAX_FRAMES + 1)
  }

  /** The machine never emits what the dispatcher would turn into a held button. */
  lemma EmitsOnly(k: Kernel, s: Contact, c: Sample)
    requires Answers(k)
    ensures var g := EmittedGesture(k, s, c); g == NoGesture || g == Pointer || IsSwipeOrTap(g)
  {
  }

  lemma {:induction false} RunsCompose(k: Kernel, s: Contact, cs: seq<Sample>, ds: seq<Sample>)
    ensures RunTouch(k, s, cs + ds) == RunTouch(k, RunTouch(k, s, cs), ds)
    ensures GestureRun(k, s, cs + ds) == GestureRun(k, s, cs) + GestureRun(k, RunTouch(k, s, cs), ds)
    decreases cs
  {
    if cs == [] {
      assert cs + ds == ds;
    } else {
      assert (cs + ds)[1..] == cs[1..] + ds;
      RunsCompose(k, Advance(k, s, cs[0]), cs[1..], ds);
    }
  }

  /** While the finger stays down, frames only pile up; nothing is emitted but pointer frames after the 46th. */
  lemma {:induction false} HoldingAccumulates(k: Kernel, s: Contact, cs: seq<Sample>)
    requires StaysDown(cs)
    ensures RunTouch(k, s, cs) == s.(frames := s.frames + Downs(cs))
    ensures forall i :: 0 <= i < |cs| ==> GestureRun(k, s, cs)[i] == NoGesture || GestureRun(k, s, cs)[i] == Pointer
    ensures Tally(GestureRun(k, s, cs), Pointer) == PointerFrames(|s.frames| + |Downs(cs)|) - PointerFrames(|s.frames|)
    decreases cs
  {
    if cs != [] {
      HoldingAccumulates(k, Advance(k, s, cs[0]), cs[1..]);
      assert s.frames + Downs(cs) == Advance(k, s, cs[0]).frames + Downs(cs[1..]);
    } else {
      assert s.frames + Downs(cs) == s.frames;
    }
  }

  lemma {:induction false} TallyAppend(gs: seq<Gesture>, g: Gesture, x: Gesture)
    ensures Tally(gs + [g], x) == Tally(gs, x) + if g == x then 1 else 0
  {
    if gs != [] {
      assert (gs + [g])[1..] == gs[1..] + [g];
      TallyAppend(gs[1..], g, x);
    }
  }

  lemma {:induction false} NoneTallied(gs: seq<Gesture>, g: Gesture, k: nat)
    requires k < |gs| && Tally(gs, g) == 0
    ensures gs[k] != g
  {
    if k > 0 {
      NoneTallied(gs[1..], g, k - 1);
    }
  }

  /** What a contact of n finger-on frames leaves behind. */
  function AfterLift(k: Kernel, s: Contact, frames: seq<Sample>): Contact {
    Contact([], if TOUCH_MIN_FRAMES < |frames| < SWIPE_MAX_FRAMES then k.memoryOf(frames) else s.memory)
  }

  /** From idle, n finger-on frames and a lift give: nothing for n up to 3; one gesture, on the lift,
      for 4 to 45; n - 45 pointer outputs beyond. At 45 the last classification is repeated. */
  lemma WholeContact(k: Kernel, s: Contact, cs: seq<Sample>, lift: Sample)
    requires Answers(k) && s.frames == [] && StaysDown(cs) && lift.finger == 0
    ensures RunTouch(k, s, cs + [lift]) == AfterLift(k, s, Downs(cs))
    ensures var n, gs := |Downs(cs)|, GestureRun(k, s, cs + [lift]);
      && |gs| == |cs| + 1
      && (n <= TOUCH_MIN_FRAMES ==> forall i :: 0 <= i <= |cs| ==> gs[i] == NoGesture)
      && (TOUCH_MIN_FRAMES < n <= SWIPE_MAX_FRAMES ==>
            && (forall i :: 0 <= i < |cs| ==> gs[i] == NoGesture)
            && gs[|cs|] == (if n < SWIPE_MAX_FRAMES then k.answer(k.memoryOf(Downs(cs))) else k.answer(s.memory))
            && IsSwipeOrTap(gs[|cs|]))
      && (n > SWIPE_MAX_FRAMES ==>
            && Tally(gs, Pointer) == n - SWIPE_MAX_FRAMES
            && forall i :: 0 <= i <= |cs| ==> gs[i] == NoGesture || gs[i] == Pointer)
  {
    var held, gs := GestureRun(k, s, cs), GestureRun(k, s, cs + [lift]);
    HoldingAccumulates(k, s, cs);
    RunsCompose(k, s, cs, [lift]);
    var t := RunTouch(k, s, cs);
    assert t.frames == Downs(cs);
    assert RunTouch(k, t, [lift]) == Advance(k, t, lift);
    var g := EmittedGesture(k, t, lift);
    assert GestureRun(k, t, [lift]) == [g];
    assert gs == held + [g];
    TallyAppend(held, g, Pointer);
    if |Downs(cs)| <= SWIPE_MAX_FRAMES {
      forall i | 0 <= i < |cs| ensures held[i] == NoGesture {
        NoneTallied(held, Pointer, i);
      }
    }
  }

  /** The last swipe or tap among some gestures, or g when there is none. */
  function LastAnswer(g: Gesture, gs: seq<Gesture>): Gesture
    decreases gs
  {
    if gs == [] then g else LastAnswer(if IsSwipeOrTap(gs[0]) then gs[0] else g, gs[1..])
  }

  /** Over every run, the memory answers with the last swipe or tap that was emitted. */
  lemma {:induction false} MemoryIsLastAnswer(k: Kernel, s: Contact, cs: seq<Sample>)
    requires Answers(k)
    ensures k.answer(RunTouch(k, s, cs).memory) == LastAnswer(k.answer(s.memory), GestureRun(k, s, cs))
    decreases cs
  {
    if cs != [] {
      var g, t := EmittedGesture(k, s, cs[0]), Advance(k, s, cs[0]);
      MemoryIsLastAnswer(k, t, cs[1..]);
      assert k.answer(t.memory) == if IsSwipeOrTap(g) then g else k.answer(s.memory);
      assert GestureRun(k, s, cs)[1..] == GestureRun(k, t, cs[1..]);
    }
  }

  /** After any run that ends idle, a contact of exactly 45 frames is not filtered and repeats the last swipe or
      tap that was emitted, however long ago. */
  lemma {:induction false} FullHistoryRepeats(k: Kernel, s: Contact, before: seq<Sample>, full: seq<Sample>,
                                              lift: Sample)
    requires Answers(k) && RunTouch(k, s, before).frames == []
    requires StaysDown(full) && lift.finger == 0 && |Downs(full)| == SWIPE_MAX_FRAMES
    ensures GestureRun(k, s, before + (full + [lift]))[|before| + |full|]
         == LastAnswer(k.answer(s.memory), GestureRun(k, s, before))
  {
    RunsCompose(k, s, before, full + [lift]);
    WholeContact(k, RunTouch(k, s, before), full, lift);
    MemoryIsLastAnswer(k, s, before);
  }

  /** From the start it is a TAP as long as no swipe or tap has been emitted. */
  lemma {:induction false} FullHistoryFirst(k: Kernel, m: Trig, before: seq<Sample>, full: seq<Sample>, lift: Sample)
    requires Interprets(k, m) && RunTouch(k, Contact([], Blank), before).frames == []
    requires StaysDown(full) && lift.finger == 0 && |Downs(full)| == SWIPE_MAX_FRAMES
    ensures GestureRun(k, Contact([], Blank), before + (full + [lift]))[|before| + |full|]
         == LastAnswer(Tap, GestureRun(k, Contact([], Blank), before))
  {
    KernelAnswers(k, m);
    KernelBlankIsTap(k, m);
    FullHistoryRepeats(k, Contact([], Blank), before, full, lift);
  }

  // ---- the delay line ----

  function Plus(a: Point, b: Point): Point {
    Point(a.x + b.x, a.y + b.y)
  }

  /** The velocity reported for a sample, zero when there is none. */
  function Speed(s: Contact, c: Sample): Point {
    match EmittedVelocity(s, c)
    case None => Point(0.0, 0.0)
    case Some(v) => v
  }

  /** Sum of the velocities a run reports. */
  function VelocitySum(k: Kernel, s: Contact, cs: seq<Sample>): Point
    decreases cs
  {
    if cs == [] then Point(0.0, 0.0) else Plus(Speed(s, cs[0]), VelocitySum(k, Advance(k, s, cs[0]), cs[1..]))
  }

  /** The three points just before the last. */
  function Tail(frames: seq<Sample>): Point
    requires |frames| >= 4
  {
    var n := |frames|;
    Plus(PointOf(frames[n - 4]), Plus(PointOf(frames[n - 3]), PointOf(frames[n - 2])))
  }

  /** Where the pointer motion starts to count: the tail of the first 46 frames. */
  function Settled(frames: seq<Sample>): Point {
    if |frames| <= SWIPE_MAX_FRAMES + 1 then Point(0.0, 0.0)
    else
      var a, b := Tail(frames), Tail(frames[..SWIPE_MAX_FRAMES + 1]);
      Point(a.x - b.x, a.y - b.y)
  }

  lemma SettledStep(frames: seq<Sample>, c: Sample)
    ensures |frames| > SWIPE_MAX_FRAMES ==>
      && var v := DelayedVelocity(frames + [c]);
         Settled(frames + [c]) == Point(Settled(frames).x + 15.0 * v.x, Settled(frames).y + 15.0 * v.y)
    ensures |frames| <= SWIPE_MAX_FRAMES ==> Settled(frames + [c]) == Point(0.0, 0.0)
  {
    if |frames| > SWIPE_MAX_FRAMES {
      assert (frames + [c])[..SWIPE_MAX_FRAMES + 1] == frames[..SWIPE_MAX_FRAMES + 1];
      if |frames| == SWIPE_MAX_FRAMES + 1 {
        assert frames[..SWIPE_MAX_FRAMES + 1] == frames;
      }
    }
  }

  lemma StepSettles(k: Kernel, s: Contact, c: Sample)
    requires c.finger != 0
    ensures Settled(Advance(k, s, c).frames).x == Settled(s.frames).x + 15.0 * Speed(s, c).x
    ensures Settled(Advance(k, s, c).frames).y == Settled(s.frames).y + 15.0 * Speed(s, c).y
  {
    SettledStep(s.frames, c);
  }

  /** Fifteen times the reported velocities add up to the displacement of the delayed path. */
  lemma {:induction false} VelocitiesTelescope(k: Kernel, s: Contact, cs: seq<Sample>)
    requires StaysDown(cs)
    ensures 15.0 * VelocitySum(k, s, cs).x == Settled(RunTouch(k, s, cs).frames).x - Settled(s.frames).x
    ensures 15.0 * VelocitySum(k, s, cs).y == Settled(RunTouch(k, s, cs).frames).y - Settled(s.frames).y
    decreases cs
  {
    if cs != [] {
      VelocitiesTelescope(k, Advance(k, s, cs[0]), cs[1..]);
      StepSettles(k, s, cs[0]);
    }
  }
}
