/** From the samples of a contact to the events of the daemon: which keys a gesture presses, and what taps do when they
    come close together and when they do not. */
module ContactsToKeys {
  import opened Basics
  import opened Unipoint
  import opened Signal
  import opened Trends
  import opened DecisionTree
  import opened Recognizer
  import opened Contacts
  import opened Touch
  import opened TouchRuns
  import opened Strokes
  import opened GestureLog
  import opened Daemon
  import opened DaemonRuns
  import opened TapsToClicks
  import opened Verdicts
  import opened Verticals

  // ---- the reference ----

  /** A key is pressed and released, each with a report. */
  function Pressed(code: Code): seq<Event> {
    [KeyEvent(code, 1), Syn, KeyEvent(code, 0), Syn]
  }

  /** What a swipe or a tap sends in each mode. */
  function KeysOf(mode: Mode, g: Gesture): seq<Event> {
    if mode == ModeNormal then
      if g == Right then Pressed(KeyRight)
      else if g == Left then Pressed(KeyLeft)
      else if g == Up then Pressed(KeyUp)
      else if g == Down then Pressed(KeyDown)
      else if g == Tap then [Syn]
      else []
    else if mode == ModeVolume then
      if g == Up then Pressed(KeyVolumeUp)
      else if g == Down then Pressed(KeyVolumeDown)
      else []
    else []
  }

  /** Two taps less than 700000 clocks apart end the log. */
  predicate EndsInTwoTaps(log: seq<Logged>) {
    var n := |log|;
    && n >= 2 && log[n - 2].gesture == Tap && log[n - 1].gesture == Tap
    && log[n - 1].time - log[n - 2].time < 700000
  }

  /** Two taps and any gesture less than 500000 clocks after the first end the log. */
  predicate EndsInTrigger(log: seq<Logged>) {
    var n := |log|;
    && n >= 3 && log[n - 3].gesture == Tap && log[n - 2].gesture == Tap
    && log[n - 1].time - log[n - 3].time < 500000
  }

  lemma {:induction false} LogEnds(log: seq<Logged>)
    ensures DoubleTap(log) <==> EndsInTwoTaps(log)
    ensures Triggered(log) <==> EndsInTrigger(log)
  {
  }

  /** The other of the two modes a trigger switches between. */
  function Other(mode: Mode): Mode {
    if mode == ModeNormal then ModeVolume else if mode == ModeVolume then ModeNormal else mode
  }

  // ---- one frame ----

  /** A frame sends the keys of its gesture in the mode that then holds; only pointers do otherwise. */
  lemma FrameSends(k: Kernel, s: State, i: Input)
    requires Answers(k) && i.Frame? && EmittedGesture(k, s.contact, i.c) != Pointer
    ensures Added(k, s, i) == KeysOf(ModeAfterInput(k, s, i), EmittedGesture(k, s.contact, i.c))
  {
    EmitsOnly(k, s.contact, i.c);
  }

  lemma PointerSends(k: Kernel, s: State, i: Input)
    requires i.Frame? && EmittedGesture(k, s.contact, i.c) == Pointer && ModeAfterInput(k, s, i) != ModeNormal
    ensures Added(k, s, i) == []
  {
  }

  /** The socket thread sets the mode by its number and leaves everything else; other numbers do nothing. */
  lemma SetModeSets(k: Kernel, s: State, value: int)
    ensures Step(k, s, SetMode(value)).mode ==
      if value == 0 then ModeNone else if value == 1 then ModeNormal else if value == 2 then ModeVolume else s.mode
    ensures Step(k, s, SetMode(value)) == s.(mode := Step(k, s, SetMode(value)).mode)
  {
    assert s.out + [] == s.out;
  }

  // ---- one contact ----

  /** From idle: a finger down for 4 to 44 frames, then lifted. */
  ghost predicate Gesturing(inputs: seq<Input>, lift: Input) {
    && AllFrames(inputs) && lift.Frame? && lift.c.finger == 0 && StaysDown(Samples(inputs))
    && TOUCH_MIN_FRAMES < |Downs(Samples(inputs))| < SWIPE_MAX_FRAMES
  }

  function Path(inputs: seq<Input>): seq<Sample>
    requires AllFrames(inputs)
  {
    Downs(Samples(inputs))
  }

  /** What the daemon is after a contact that was answered with g: the gesture is logged, and switches the mode when
      that completes a trigger; its keys are sent in the mode that then holds; a click is armed for two taps. */
  ghost predicate ActedOn(s: State, g: Gesture, now: int, t: State) {
    var log := s.log + [Logged(g, now)];
    var switches := s.mode != ModeNone && EndsInTrigger(log);
    && t.contact.frames == []
    && t.mode == (if switches then Other(s.mode) else s.mode)
    && t.log == (if switches then [] else log)
    && t.out == s.out + KeysOf(t.mode, g)
    && (t.armed <==> g == Tap && t.mode == ModeNormal && !switches && EndsInTwoTaps(log))
  }

  lemma {:induction false} LiftActs(k: Kernel, s: State, lift: Input)
    requires Answers(k) && lift.Frame? && lift.c.finger == 0 && TOUCH_MIN_FRAMES < |s.contact.frames| < SWIPE_MAX_FRAMES
    ensures ActedOn(s, k.answer(k.memoryOf(s.contact.frames)), lift.now, Step(k, s, lift))
  {
    var g := EmittedGesture(k, s.contact, lift.c);
    assert g == k.answer(k.memoryOf(s.contact.frames));
    FrameSends(k, s, lift);
    LogEnds(s.log + [Logged(g, lift.now)]);
  }

  /** Whatever the daemon was about to do, holding a finger leaves it as it was, with no click pending. */
  lemma {:induction false} HoldingDisarms(k: Kernel, s: State, inputs: seq<Input>)
    requires AllFrames(inputs) && StaysDown(Samples(inputs)) && inputs != []
    requires s.contact.frames == [] && |Path(inputs)| < SWIPE_MAX_FRAMES && !Switches(s.log, s.mode)
    ensures var t := Run(k, s, inputs);
      t.contact.frames == Path(inputs) && t.log == s.log && t.mode == s.mode && !t.armed && t.out == s.out
  {
    var quiet := s.(armed := false);
    assert Step(k, s, inputs[0]) == Step(k, quiet, inputs[0]);
    HoldingIsSilent(k, quiet, inputs);
    assert [] + Path(inputs) == Path(inputs);
  }

  /** Any contact that is answered: the daemon acts on its answer, once, at the lift. */
  lemma {:induction false} ContactActs(k: Kernel, m: Trig, s: State, inputs: seq<Input>, lift: Input)
    requires Interprets(k, m) && Gesturing(inputs, lift)
    requires s.contact.frames == [] && !(s.mode != ModeNone && EndsInTrigger(s.log))
    ensures ActedOn(s, Answered(k, Path(inputs)), lift.now, Run(k, s, inputs + [lift]))
  {
    KernelAnswers(k, m);
    LogEnds(s.log);
    RunsJoin(k, s, inputs, [lift]);
    HoldingDisarms(k, s, inputs);
    var held := Run(k, s, inputs);
    assert Run(k, held, [lift]) == Step(k, held, lift);
    LiftActs(k, held, lift);
  }

  /** So the verdict on the reading of the samples is what is acted on. */
  lemma {:induction false} VerdictActs(k: Kernel, m: Trig, s: State, inputs: seq<Input>, lift: Input, r: Reading)
    requires Interprets(k, m) && Gesturing(inputs, lift) && Reads(m, Path(inputs), r)
    requires s.contact.frames == [] && !(s.mode != ModeNone && EndsInTrigger(s.log))
    ensures ActedOn(s, Verdict(r), lift.now, Run(k, s, inputs + [lift]))
  {
    ContactActs(k, m, s, inputs, lift);
    AnswerIsVerdict(k, m, Path(inputs), r);
  }

  // ---- swipes ----

  /** In normal mode, with too little in the log for a trigger. */
  ghost predicate Ready(s: State) {
    s.contact.frames == [] && s.mode == ModeNormal && |s.log| < 2
  }

  /** A contact in normal mode sends the keys of its answer, and nothing else. */
  lemma {:induction false} ContactSends(k: Kernel, m: Trig, s: State, inputs: seq<Input>, lift: Input)
    requires Interprets(k, m) && Gesturing(inputs, lift) && Ready(s)
    ensures Run(k, s, inputs + [lift]).out == s.out + KeysOf(ModeNormal, Answered(k, Path(inputs)))
  {
    ContactActs(k, m, s, inputs, lift);
  }

  /** At constant height, X moving right beyond X = 264, or by 99 units in some three steps: the right key, once. */
  lemma {:induction false} RightwardPressesRight(k: Kernel, m: Trig, s: State, inputs: seq<Input>, lift: Input)
    requires Interprets(k, m) && SoundRoots(m) && Gesturing(inputs, lift) && Ready(s)
    requires Constant(Path(inputs), AxisY) && NonDecreasing(Path(inputs), AxisX)
    ensures var h := Path(inputs);
      Run(k, s, inputs + [lift]).out == s.out +
        if h[|h| - 1].x > 264 || SweepsRight(h, 99) then [KeyEvent(KeyRight, 1), Syn, KeyEvent(KeyRight, 0), Syn]
        else KeysOf(ModeNormal, Unflicked(h))
  {
    ContactSends(k, m, s, inputs, lift);
    RightStroke(k, m, Path(inputs));
  }

  /** At constant height, X moving left by 66 units in some three steps: the left key, once. */
  lemma {:induction false} LeftwardPressesLeft(k: Kernel, m: Trig, s: State, inputs: seq<Input>, lift: Input)
    requires Interprets(k, m) && SoundRoots(m) && Gesturing(inputs, lift) && Ready(s)
    requires Constant(Path(inputs), AxisY) && NonIncreasing(Path(inputs), AxisX)
    ensures var h := Path(inputs);
      Run(k, s, inputs + [lift]).out == s.out +
        if SweepsLeft(h, 66) then [KeyEvent(KeyLeft, 1), Syn, KeyEvent(KeyLeft, 0), Syn]
        else if h[|h| - 1].x > 264 then [KeyEvent(KeyRight, 1), Syn, KeyEvent(KeyRight, 0), Syn]
        else KeysOf(ModeNormal, Unflicked(h))
  {
    ContactSends(k, m, s, inputs, lift);
    LeftStroke(k, m, Path(inputs));
  }

  lemma {:induction false} DeepFall(h: seq<Sample>)
    requires |h| > 0 && h[0].x <= 264 && Drops(Ys(h), 10.0, |h| - 1) >= 123.859314
    ensures FallGesture(h) == if DropsLate(Ys(h)) then Up else Down
  {
  }

  lemma {:induction false} HighRise(h: seq<Sample>)
    requires |h| > 0 && h[0].x <= 264 && Climbs(Ys(h), 10.0, |h| - 1) > 60.125
    ensures RiseGesture(h) == Up
  {
  }

  /** Straight down at X up to 264, with drops of more than 10 that add up to 123.859314: the down key, or the up key
      when half of the drops come late. */
  lemma {:induction false} FallPressesDown(k: Kernel, m: Trig, s: State, inputs: seq<Input>, lift: Input,
                                           h: seq<Sample>)
    requires Interprets(k, m) && SoundRoots(m) && Gesturing(inputs, lift) && Ready(s) && h == Path(inputs)
    requires Straight(h) && GoesDownwards(h) && h[0].x <= 264 && Drops(Ys(h), 10.0, |h| - 1) >= 123.859314
    ensures var key := if DropsLate(Ys(h)) then KeyUp else KeyDown;
      Run(k, s, inputs + [lift]).out == s.out + [KeyEvent(key, 1), Syn, KeyEvent(key, 0), Syn]
  {
    ContactSends(k, m, s, inputs, lift);
    StraightFall(k, m, h);
    DeepFall(h);
  }

  /** Straight up at X up to 264, with climbs of more than 10 that add up to more than 60.125: the up key. */
  lemma {:induction false} RisePressesUp(k: Kernel, m: Trig, s: State, inputs: seq<Input>, lift: Input, h: seq<Sample>)
    requires Interprets(k, m) && SoundRoots(m) && Gesturing(inputs, lift) && Ready(s) && h == Path(inputs)
    requires Straight(h) && GoesUpwards(h) && h[0].x <= 264 && Climbs(Ys(h), 10.0, |h| - 1) > 60.125
    ensures Run(k, s, inputs + [lift]).out == s.out + [KeyEvent(KeyUp, 1), Syn, KeyEvent(KeyUp, 0), Syn]
  {
    ContactSends(k, m, s, inputs, lift);
    StraightRise(k, m, h);
    HighRise(h);
  }

  // ---- taps, close together and not ----

  /** A still tap is acted on as a TAP. */
  lemma {:induction false} StillTapActs(k: Kernel, m: Trig, s: State, inputs: seq<Input>, lift: Input)
    requires Interprets(k, m) && StillTap(inputs, lift)
    requires s.contact.frames == [] && !(s.mode != ModeNone && EndsInTrigger(s.log))
    ensures ActedOn(s, Tap, lift.now, Run(k, s, inputs + [lift]))
  {
    ContactActs(k, m, s, inputs, lift);
    StillContactAnswersTap(k, m, Path(inputs));
  }

  lemma {:induction false} SecondTap(s: State, u: State, t: State, now1: int, now2: int)
    requires s.mode == ModeNormal && s.log == [] && ActedOn(s, Tap, now1, u) && ActedOn(u, Tap, now2, t)
    ensures !EndsInTrigger(u.log) && u.mode == t.mode == ModeNormal && t.out == s.out + [Syn] + [Syn]
    ensures t.armed <==> now2 - now1 < 700000
  {
  }

  lemma {:induction false} ThirdGesture(s: State, u: State, v: State, t: State, g: Gesture,
                                        now1: int, now2: int, now3: int)
    requires s.mode != ModeNone && s.log == []
    requires ActedOn(s, Tap, now1, u) && ActedOn(u, Tap, now2, v) && ActedOn(v, g, now3, t)
    ensures v.mode == s.mode && t.mode == (if now3 - now1 < 500000 then Other(s.mode) else s.mode)
    ensures t.out == v.out + KeysOf(t.mode, g)
    ensures t.armed <==> g == Tap && t.mode == ModeNormal == s.mode && now3 - now2 < 700000
  {
    assert u.log == [Logged(Tap, now1)] && v.log == [Logged(Tap, now1), Logged(Tap, now2)];
  }

  /** Two still taps: a time-out then clicks exactly when less than 700000 clocks lie between their lifts. */
  lemma {:induction false} TwoTapsClickOrNot(k: Kernel, m: Trig, s: State, first: seq<Input>, lift1: Input,
                                             second: seq<Input>, lift2: Input)
    requires Interprets(k, m) && StillTap(first, lift1) && StillTap(second, lift2)
    requires s.contact.frames == [] && s.mode == ModeNormal && s.log == []
    ensures var t := Run(k, Run(k, s, first + [lift1]), second + [lift2]);
      && t.mode == ModeNormal && t.out == s.out + [Syn] + [Syn]
      && (t.armed <==> lift2.now - lift1.now < 700000)
      && Step(k, t, Timeout).out == t.out +
           if lift2.now - lift1.now < 700000 then [KeyEvent(BtnMouse, 1), Syn, KeyEvent(BtnMouse, 0), Syn] else []
  {
    StillTapActs(k, m, s, first, lift1);
    var one := Run(k, s, first + [lift1]);
    StillTapActs(k, m, one, second, lift2);
    SecondTap(s, one, Run(k, one, second + [lift2]), lift1.now, lift2.now);
    TimeoutClicks(k, Run(k, one, second + [lift2]));
  }

  lemma TimeoutClicks(k: Kernel, t: State)
    ensures Step(k, t, Timeout).out == t.out + if t.armed then Pressed(BtnMouse) else []
  {
  }

  /** Two still taps and any third gesture: the mode switches exactly when it comes less than 500000 clocks after the
      first, and the gesture is acted on in the mode that then holds. */
  lemma {:induction false} ThirdSwitchesOrNot(k: Kernel, m: Trig, s: State, first: seq<Input>, lift1: Input,
                                              second: seq<Input>, lift2: Input, third: seq<Input>, lift3: Input)
    requires Interprets(k, m) && StillTap(first, lift1) && StillTap(second, lift2) && Gesturing(third, lift3)
    requires s.contact.frames == [] && s.mode != ModeNone && s.log == []
    ensures var before := Run(k, Run(k, s, first + [lift1]), second + [lift2]);
      var t, g := Run(k, before, third + [lift3]), Answered(k, Path(third));
      && before.mode == s.mode
      && t.mode == (if lift3.now - lift1.now < 500000 then Other(s.mode) else s.mode)
      && t.out == before.out + KeysOf(t.mode, g)
      && (t.armed <==> g == Tap && t.mode == ModeNormal == s.mode && lift3.now - lift2.now < 700000)
  {
    StillTapActs(k, m, s, first, lift1);
    var one := Run(k, s, first + [lift1]);
    StillTapActs(k, m, one, second, lift2);
    var two := Run(k, one, second + [lift2]);
    ContactActs(k, m, two, third, lift3);
    ThirdGesture(s, one, two, Run(k, two, third + [lift3]), Answered(k, Path(third)), lift1.now, lift2.now, lift3.now);
  }

  // ---- every run ----

  function Emits(k: Kernel, s: State, i: Input): seq<Logged> {
    if !i.Frame? || EmittedGesture(k, s.contact, i.c) == NoGesture then []
    else [Logged(EmittedGesture(k, s.contact, i.c), i.now)]
  }

  /** All gestures a run emits, with their times. */
  function EmittedLog(k: Kernel, s: State, inputs: seq<Input>): seq<Logged>
    decreases inputs
  {
    if inputs == [] then [] else Emits(k, s, inputs[0]) + EmittedLog(k, Step(k, s, inputs[0]), inputs[1..])
  }

  ghost predicate IsEnd(log: seq<Logged>, all: seq<Logged>) {
    |log| <= |all| && all[|all| - |log|..] == log
  }

  lemma {:induction false} EmittedNext(k: Kernel, s: State, inputs: seq<Input>, i: Input)
    ensures EmittedLog(k, s, inputs + [i]) == EmittedLog(k, s, inputs) + Emits(k, Run(k, s, inputs), i)
    decreases inputs
  {
    if inputs == [] {
      assert ([] + [i])[1..] == [];
    } else {
      assert (inputs + [i])[1..] == inputs[1..] + [i];
      EmittedNext(k, Step(k, s, inputs[0]), inputs[1..], i);
    }
  }

  lemma {:induction false} EndGrows(log: seq<Logged>, all: seq<Logged>, one: seq<Logged>)
    requires IsEnd(log, all)
    ensures IsEnd(log + one, all + one)
  {
  }

  lemma {:induction false} EndsCarry(log: seq<Logged>, all: seq<Logged>)
    requires IsEnd(log, all)
    ensures EndsInTwoTaps(log) ==> EndsInTwoTaps(all)
    ensures EndsInTrigger(log) ==> EndsInTrigger(all)
  {
    forall j | 0 <= j < |log| ensures all[|all| - |log| + j] == log[j] {
      assert all[|all| - |log|..][j] == log[j];
    }
  }

  lemma LogGrows(k: Kernel, s: State, i: Input)
    ensures i.Frame? ==> Logs(k, s, i) == s.log + Emits(k, s, i)
    ensures Step(k, s, i).log == s.log + Emits(k, s, i) || Step(k, s, i).log == []
  {
  }

  /** The log holds the last of the gestures a run has emitted. */
  lemma {:induction false} LogIsEnd(k: Kernel, s: State, inputs: seq<Input>)
    requires s.log == []
    ensures IsEnd(Run(k, s, inputs).log, EmittedLog(k, s, inputs))
    decreases inputs
  {
    if inputs != [] {
      var n := |inputs| - 1;
      var last := inputs[n];
      assert inputs == inputs[..n] + [last];
      LogIsEnd(k, s, inputs[..n]);
      var t := Run(k, s, inputs[..n]);
      RunsJoin(k, s, inputs[..n], [last]);
      assert Run(k, t, [last]) == Step(k, t, last);
      EmittedNext(k, s, inputs[..n], last);
      LogGrows(k, t, last);
      EndGrows(t.log, EmittedLog(k, s, inputs[..n]), Emits(k, t, last));
    }
  }

  lemma {:induction false} ArmedByTwoTaps(k: Kernel, s: State, inputs: seq<Input>)
    requires s.armed ==> EndsInTwoTaps(s.log)
    ensures Run(k, s, inputs).armed ==> EndsInTwoTaps(Run(k, s, inputs).log)
    decreases inputs
  {
    if inputs != [] {
      var t := Step(k, s, inputs[0]);
      LogEnds(t.log);
      ArmedByTwoTaps(k, t, inputs[1..]);
    }
  }

  /** Over every run, a click is pending only when the last two gestures emitted are taps less than 700000 clocks
      apart. */
  lemma {:induction false} PendingNeedsTwoTaps(k: Kernel, s: State, inputs: seq<Input>)
    requires s.log == [] && !s.armed
    ensures Run(k, s, inputs).armed ==> EndsInTwoTaps(EmittedLog(k, s, inputs))
  {
    ArmedByTwoTaps(k, s, inputs);
    LogIsEnd(k, s, inputs);
    EndsCarry(Run(k, s, inputs).log, EmittedLog(k, s, inputs));
  }

  /** Over every run, a frame changes the mode only when the last three gestures emitted, its own included, are two
      taps and a gesture less than 500000 clocks after the first. */
  lemma {:induction false} SwitchNeedsTrigger(k: Kernel, s: State, inputs: seq<Input>, i: Input)
    requires s.log == [] && i.Frame?
    ensures Run(k, s, inputs + [i]).mode != Run(k, s, inputs).mode ==> EndsInTrigger(EmittedLog(k, s, inputs + [i]))
  {
    var t := Run(k, s, inputs);
    RunsJoin(k, s, inputs, [i]);
    assert Run(k, t, [i]) == Step(k, t, i);
    if Step(k, t, i).mode != t.mode {
      SwitchWasTriggered(k, t, i);
      EmittedNext(k, s, inputs, i);
      LogIsEnd(k, s, inputs);
      EndGrows(t.log, EmittedLog(k, s, inputs), Emits(k, t, i));
      EndsCarry(t.log + Emits(k, t, i), EmittedLog(k, s, inputs + [i]));
    }
  }

  lemma SwitchWasTriggered(k: Kernel, s: State, i: Input)
    requires i.Frame? && Step(k, s, i).mode != s.mode
    ensures EndsInTrigger(s.log + Emits(k, s, i))
  {
    LogGrows(k, s, i);
    LogEnds(s.log + Emits(k, s, i));
  }
}
