/** From samples to clicks: what taps of a finger that does not move make the whole daemon do. */
module TapsToClicks {
  import opened Unipoint
  import opened Signal
  import opened Trends
  import opened Recognizer
  import opened Contacts
  import opened Touch
  import opened TouchRuns
  import opened GestureLog
  import opened Daemon
  import opened DaemonRuns

  ghost predicate AllFrames(inputs: seq<Input>) {
    forall j :: 0 <= j < |inputs| ==> inputs[j].Frame?
  }

  function Samples(inputs: seq<Input>): (cs: seq<Sample>)
    requires AllFrames(inputs)
    ensures |cs| == |inputs| && forall j :: 0 <= j < |cs| ==> cs[j] == inputs[j].c
  {
    seq(|inputs|, j requires 0 <= j < |inputs| => inputs[j].c)
  }

  /** A finger down at one place for 4 to 44 frames, left of X = 264, then lifted. Width and pressure may vary. */
  ghost predicate StillTap(inputs: seq<Input>, lift: Input) {
    && AllFrames(inputs) && lift.Frame? && lift.c.finger == 0
    && StaysDown(Samples(inputs))
    && var h := Downs(Samples(inputs));
       && TOUCH_MIN_FRAMES < |h| < SWIPE_MAX_FRAMES
       && Constant(h, AxisX) && Constant(h, AxisY) && h[0].x <= 264
  }

  /** While the finger is held, and no switch is pending, the daemon only collects. */
  lemma {:induction false} HoldingIsSilent(k: Kernel, s: State, inputs: seq<Input>)
    requires AllFrames(inputs) && StaysDown(Samples(inputs)) && !Switches(s.log, s.mode) && !s.armed
    requires |s.contact.frames| + |Downs(Samples(inputs))| <= SWIPE_MAX_FRAMES + 1
    ensures Run(k, s, inputs) == s.(contact := s.contact.(frames := s.contact.frames + Downs(Samples(inputs))))
    decreases inputs
  {
    if inputs == [] {
      assert s.contact.frames + [] == s.contact.frames;
    } else {
      var i := inputs[0];
      assert Samples(inputs)[1..] == Samples(inputs[1..]);
      var t := Step(k, s, i);
      FrameIsSilent(k, s, i);
      HoldingIsSilent(k, t, inputs[1..]);
      assert t.contact.frames + Downs(Samples(inputs[1..])) == s.contact.frames + Downs(Samples(inputs));
    }
  }

  lemma FrameIsSilent(k: Kernel, s: State, i: Input)
    requires i.Frame? && i.c.finger != 0 && !Switches(s.log, s.mode)
    requires |s.contact.frames| + (if i.c.finger == 1 then 1 else 0) <= SWIPE_MAX_FRAMES + 1
    ensures Step(k, s, i) == s.(contact := Advance(k, s.contact, i.c), armed := false)
  {
    assert EmittedGesture(k, s.contact, i.c) == NoGesture;
    assert s.out + [] == s.out;
  }

  /** What one still tap does to a daemon in normal mode: the log grows by a TAP, which may trigger a switch,
      arm a click, or neither. */
  lemma {:induction false} StillTapIsLogged(k: Kernel, m: Trig, s: State, inputs: seq<Input>, lift: Input)
    requires Interprets(k, m) && StillTap(inputs, lift)
    requires s.contact.frames == [] && s.mode == ModeNormal && !Triggered(s.log) && !s.armed
    ensures var t, log := Run(k, s, inputs + [lift]), s.log + [Logged(Tap, lift.now)];
      && t.contact.frames == []
      && (if Triggered(log) then t.log == [] && t.mode == ModeVolume && !t.armed && t.out == s.out
          else t.log == log && t.mode == ModeNormal && (t.armed <==> DoubleTap(log)) && t.out == s.out + [Syn])
  {
    var h := Downs(Samples(inputs));
    RunsJoin(k, s, inputs, [lift]);
    HoldingIsSilent(k, s, inputs);
    var held := Run(k, s, inputs);
    assert held.contact.frames == h;
    assert Run(k, held, [lift]) == Step(k, held, lift);
    StillContactAnswersTap(k, m, h);
    assert EmittedGesture(k, held.contact, lift.c) == Tap;
    assert s.out + [] == s.out;
  }

  lemma StillContactAnswersTap(k: Kernel, m: Trig, h: seq<Sample>)
    requires Interprets(k, m) && |h| >= 3 && Constant(h, AxisX) && Constant(h, AxisY) && h[0].x <= 264
    ensures k.answer(k.memoryOf(h)) == Tap
  {
    StillContact(k, m, h);
  }

  /** With the daemon off a still tap is logged and nothing else happens. */
  lemma {:induction false} StillTapWhileOff(k: Kernel, m: Trig, s: State, inputs: seq<Input>, lift: Input)
    requires Interprets(k, m) && StillTap(inputs, lift)
    requires s.contact.frames == [] && s.mode == ModeNone && !s.armed
    ensures var t := Run(k, s, inputs + [lift]);
      && t.contact.frames == [] && t.log == s.log + [Logged(Tap, lift.now)]
      && t.mode == ModeNone && !t.armed && t.out == s.out
  {
    var h := Downs(Samples(inputs));
    RunsJoin(k, s, inputs, [lift]);
    HoldingIsSilent(k, s, inputs);
    var held := Run(k, s, inputs);
    assert held.contact.frames == h;
    assert Run(k, held, [lift]) == Step(k, held, lift);
    StillContactAnswersTap(k, m, h);
    assert EmittedGesture(k, held.contact, lift.c) == Tap;
    assert s.out + [] == s.out;
  }

  /** Two still taps within 0.7 s arm a click. */
  lemma {:induction false} DoubleTapArms(k: Kernel, m: Trig, s: State, first: seq<Input>, lift1: Input,
                                         second: seq<Input>, lift2: Input)
    requires Interprets(k, m) && StillTap(first, lift1) && StillTap(second, lift2)
    requires s.contact.frames == [] && s.mode == ModeNormal && s.log == [] && !s.armed
    requires 10 * (lift2.now - lift1.now) < 7 * CLOCKS_PER_SEC
    ensures var t := Run(k, Run(k, s, first + [lift1]), second + [lift2]);
      t.mode == ModeNormal && t.armed && t.out == s.out + [Syn] + [Syn]
  {
    StillTapIsLogged(k, m, s, first, lift1);
    StillTapIsLogged(k, m, Run(k, s, first + [lift1]), second, lift2);
  }

  /** Then silence on the device: one click of the mouse button. */
  lemma {:induction false} DoubleTapClicks(k: Kernel, m: Trig, s: State, first: seq<Input>, lift1: Input,
                                           second: seq<Input>, lift2: Input)
    requires Interprets(k, m) && StillTap(first, lift1) && StillTap(second, lift2)
    requires s.contact.frames == [] && s.mode == ModeNormal && s.log == [] && !s.armed
    requires 10 * (lift2.now - lift1.now) < 7 * CLOCKS_PER_SEC
    ensures var t := Run(k, Run(k, s, first + [lift1]), second + [lift2]);
      && t.mode == ModeNormal && t.out == s.out + [Syn] + [Syn]
      && Step(k, t, Timeout).out == t.out + [KeyEvent(BtnMouse, 1), Syn, KeyEvent(BtnMouse, 0), Syn]
  {
    DoubleTapArms(k, m, s, first, lift1, second, lift2);
  }

  /** A third tap within half a second of the first switches to volume mode instead, and no click is left pending. */
  lemma {:induction false} TripleTapSwitches(k: Kernel, m: Trig, s: State, first: seq<Input>, lift1: Input,
                          second: seq<Input>, lift2: Input, third: seq<Input>, lift3: Input)
    requires Interprets(k, m) && StillTap(first, lift1) && StillTap(second, lift2) && StillTap(third, lift3)
    requires s.contact.frames == [] && s.mode == ModeNormal && s.log == [] && !s.armed
    requires 2 * (lift3.now - lift1.now) < CLOCKS_PER_SEC
    ensures var t := Run(k, Run(k, Run(k, s, first + [lift1]), second + [lift2]), third + [lift3]);
      t.mode == ModeVolume && t.log == [] && !t.armed && t.out == s.out + [Syn] + [Syn]
  {
    StillTapIsLogged(k, m, s, first, lift1);
    var s1 := Run(k, s, first + [lift1]);
    StillTapIsLogged(k, m, s1, second, lift2);
    var s2 := Run(k, s1, second + [lift2]);
    ThirdTap(k, m, s2, third, lift3);
  }

  /** Whether or not the second tap has armed a click, holding the finger again disarms it. */
  lemma {:induction false} ThirdTap(k: Kernel, m: Trig, s: State, inputs: seq<Input>, lift: Input)
    requires Interprets(k, m) && StillTap(inputs, lift)
    requires s.contact.frames == [] && s.mode == ModeNormal && !Triggered(s.log)
    requires Triggered(s.log + [Logged(Tap, lift.now)])
    ensures var t := Run(k, s, inputs + [lift]);
      t.mode == ModeVolume && t.log == [] && !t.armed && t.out == s.out
  {
    var quiet := s.(armed := false);
    assert inputs != [];
    assert Step(k, s, inputs[0]) == Step(k, quiet, inputs[0]);
    assert (inputs + [lift])[0] == inputs[0];
    StillTapIsLogged(k, m, quiet, inputs, lift);
  }

  // ---- two runs from the start that go wrong ----

  /** Three still taps within half a second while the daemon is off: a trigger stands in the log. */
  lemma {:induction false} TapsWhileOff(k: Kernel, m: Trig, s: State, first: seq<Input>, lift1: Input,
                     second: seq<Input>, lift2: Input, third: seq<Input>, lift3: Input)
    requires Interprets(k, m) && StillTap(first, lift1) && StillTap(second, lift2) && StillTap(third, lift3)
    requires s.contact.frames == [] && s.mode == ModeNone && s.log == [] && !s.armed
    requires 2 * (lift3.now - lift1.now) < CLOCKS_PER_SEC
    ensures var t := Run(k, Run(k, Run(k, s, first + [lift1]), second + [lift2]), third + [lift3]);
      t.contact.frames == [] && t.mode == ModeNone && Triggered(t.log) && t.out == s.out
  {
    StillTapWhileOff(k, m, s, first, lift1);
    var s1 := Run(k, s, first + [lift1]);
    StillTapWhileOff(k, m, s1, second, lift2);
    var s2 := Run(k, s1, second + [lift2]);
    StillTapWhileOff(k, m, s2, third, lift3);
  }

  lemma {:induction false} ThreeRunsJoin(k: Kernel, s: State, a: seq<Input>, b: seq<Input>, c: seq<Input>)
    ensures Run(k, s, a + b + c) == Run(k, Run(k, Run(k, s, a), b), c)
  {
    RunsJoin(k, s, a + b, c);
    RunsJoin(k, s, a, b);
  }

  /** From the start: switched off, tapped three times, switched on again. The next quiet frame switches to volume
      mode, although no gesture was made since the daemon is on. */
  lemma {:induction false} TapsWhileOffSwitchLater(k: Kernel, m: Trig, first: seq<Input>, lift1: Input,
                                                   second: seq<Input>, lift2: Input, third: seq<Input>, lift3: Input,
                                                   c: Sample, now: int, stale: Point)
    requires Interprets(k, m) && StillTap(first, lift1) && StillTap(second, lift2) && StillTap(third, lift3)
    requires 2 * (lift3.now - lift1.now) < CLOCKS_PER_SEC && c.finger == 0
    ensures var taps := (first + [lift1]) + (second + [lift2]) + (third + [lift3]);
      && Run(k, Start, [SetMode(0)] + taps).mode == ModeNone
      && Run(k, Start, [SetMode(0)] + taps + [SetMode(1), Frame(c, now, stale)]).mode == ModeVolume
  {
    var taps := (first + [lift1]) + (second + [lift2]) + (third + [lift3]);
    var off := Step(k, Start, SetMode(0));
    RunsJoin(k, Start, [SetMode(0)], taps);
    assert Run(k, Start, [SetMode(0)]) == off;
    TapsWhileOff(k, m, off, first, lift1, second, lift2, third, lift3);
    ThreeRunsJoin(k, off, first + [lift1], second + [lift2], third + [lift3]);
    RunsJoin(k, Start, [SetMode(0)] + taps, [SetMode(1), Frame(c, now, stale)]);
    PendingTriggerFires(k, Run(k, off, taps), c, now, stale);
  }

  /** From the start: a double tap, and the daemon is switched off before the time-out. The click comes all the
      same. */
  lemma {:induction false} DoubleTapClicksAfterOff(k: Kernel, m: Trig, first: seq<Input>, lift1: Input,
                                                   second: seq<Input>, lift2: Input)
    requires Interprets(k, m) && StillTap(first, lift1) && StillTap(second, lift2)
    requires 10 * (lift2.now - lift1.now) < 7 * CLOCKS_PER_SEC
    ensures var t := Run(k, Start, (first + [lift1]) + (second + [lift2]) + [SetMode(0), Timeout]);
      t.mode == ModeNone && t.out == [Syn, Syn] + Stroke(BtnMouse)
  {
    var taps := (first + [lift1]) + (second + [lift2]);
    RunsJoin(k, Start, taps, [SetMode(0), Timeout]);
    RunsJoin(k, Start, first + [lift1], second + [lift2]);
    DoubleTapArms(k, m, Start, first, lift1, second, lift2);
    ClickEscapesModeNone(k, Run(k, Start, taps));
  }
}
