/** Laws of the daemon over every run of inputs, for any kernels of the touch pipeline. */
module DaemonRuns {
  import opened Basics
  import opened Unipoint
  import opened DecisionTree
  import opened Recognizer
  import opened Touch
  import opened TouchRuns
  import opened GestureLog
  import opened Daemon

  function Run(k: Kernel, s: State, inputs: seq<Input>): State
    decreases inputs
  {
    if inputs == [] then s else Run(k, Step(k, s, inputs[0]), inputs[1..])
  }

  const Start := State(Contact([], Blank), [], ModeNormal, false, [])

  lemma {:induction false} RunsJoin(k: Kernel, s: State, inputs: seq<Input>, more: seq<Input>)
    ensures Run(k, s, inputs + more) == Run(k, Run(k, s, inputs), more)
    decreases inputs
  {
    if inputs == [] {
      assert inputs + more == more;
    } else {
      assert (inputs + more)[1..] == inputs[1..] + more;
      RunsJoin(k, Step(k, s, inputs[0]), inputs[1..], more);
    }
  }

  // ---- mode switches ----

  function SwitchCount(k: Kernel, s: State, inputs: seq<Input>): nat
    decreases inputs
  {
    if inputs == [] then 0
    else (if SwitchedBy(k, s, inputs[0]) then 1 else 0) + SwitchCount(k, Step(k, s, inputs[0]), inputs[1..])
  }

  predicate LogsGesture(k: Kernel, s: State, i: Input) {
    i.Frame? && EmittedGesture(k, s.contact, i.c) != NoGesture
  }

  function LoggedCount(k: Kernel, s: State, inputs: seq<Input>): nat
    decreases inputs
  {
    if inputs == [] then 0
    else (if LogsGesture(k, s, inputs[0]) then 1 else 0) + LoggedCount(k, Step(k, s, inputs[0]), inputs[1..])
  }

  /** Every switch uses up at least three logged gestures. */
  lemma {:induction false} SwitchesCostThree(k: Kernel, s: State, inputs: seq<Input>)
    ensures 3 * SwitchCount(k, s, inputs) + |Run(k, s, inputs).log| <= |s.log| + LoggedCount(k, s, inputs)
    decreases inputs
  {
    if inputs != [] {
      SwitchesCostThree(k, Step(k, s, inputs[0]), inputs[1..]);
    }
  }

  function FlipTimes(mode: Mode, n: nat): Mode {
    if n % 2 == 0 then mode else Flip(mode)
  }

  ghost predicate NoSetMode(inputs: seq<Input>) {
    forall j :: 0 <= j < |inputs| ==> !inputs[j].SetMode?
  }

  /** Without outside interference the mode is the parity of the switches; nothing leaves MODE_NONE. */
  lemma {:induction false} ModeIsParity(k: Kernel, s: State, inputs: seq<Input>)
    requires NoSetMode(inputs)
    ensures Run(k, s, inputs).mode == FlipTimes(s.mode, SwitchCount(k, s, inputs))
    ensures s.mode == ModeNone ==> SwitchCount(k, s, inputs) == 0
    decreases inputs
  {
    if inputs != [] {
      ModeIsParity(k, Step(k, s, inputs[0]), inputs[1..]);
    }
  }

  /** The mode in which the last gesture of the run was logged. */
  function LastLoggedIn(k: Kernel, s: State, last: Mode, inputs: seq<Input>): Mode
    decreases inputs
  {
    if inputs == [] then last
    else LastLoggedIn(k, Step(k, s, inputs[0]), if LogsGesture(k, s, inputs[0]) then s.mode else last, inputs[1..])
  }

  /** A trigger can only be pending when its last gesture came in while the daemon was off. */
  lemma {:induction false} PendingTriggerFromNone(k: Kernel, s: State, last: Mode, inputs: seq<Input>)
    requires Triggered(s.log) ==> last == ModeNone
    ensures Triggered(Run(k, s, inputs).log) ==> LastLoggedIn(k, s, last, inputs) == ModeNone
    decreases inputs
  {
    if inputs != [] {
      var next := if LogsGesture(k, s, inputs[0]) then s.mode else last;
      assert Triggered(Step(k, s, inputs[0]).log) ==> next == ModeNone;
      PendingTriggerFromNone(k, Step(k, s, inputs[0]), next, inputs[1..]);
    }
  }

  /** So, from the start, a frame without a gesture changes the mode exactly when a trigger logged in
      MODE_NONE is pending and the daemon has been switched on again. */
  lemma QuietFrameKeepsMode(k: Kernel, inputs: seq<Input>, i: Input)
    requires i.Frame? && !LogsGesture(k, Run(k, Start, inputs), i)
    ensures var s := Run(k, Start, inputs);
      && (ModeAfterInput(k, s, i) != s.mode <==> s.mode != ModeNone && Triggered(s.log))
      && (ModeAfterInput(k, s, i) != s.mode ==> LastLoggedIn(k, Start, ModeNormal, inputs) == ModeNone)
  {
    PendingTriggerFromNone(k, Start, ModeNormal, inputs);
  }

  /** Such a trigger does fire: it switches the mode at the first quiet frame after the daemon is back on. */
  lemma PendingTriggerFires(k: Kernel, s: State, c: Sample, now: int, stale: Point)
    requires s.mode == ModeNone && Triggered(s.log) && s.contact.frames == [] && c.finger == 0
    ensures Run(k, s, [SetMode(1), Frame(c, now, stale)]).mode == ModeVolume
  {
    var on := Step(k, s, SetMode(1));
    assert [SetMode(1), Frame(c, now, stale)][1..] == [Frame(c, now, stale)];
    assert Run(k, on, [Frame(c, now, stale)]) == Step(k, on, Frame(c, now, stale));
  }

  // ---- the delayed click ----

  /** Inputs that pass without disturbing a pending click: the device is not heard of. */
  predicate Passive(i: Input) {
    i.Interrupted? || i.SetMode?
  }

  ghost predicate DueAt(k: Kernel, s: State, inputs: seq<Input>, j: int) {
    && 0 <= j < |inputs| && Arms(k, Run(k, s, inputs[..j]), inputs[j])
    && forall l :: j < l < |inputs| ==> Passive(inputs[l])
  }

  /** The last input that was not passive accepted a double tap. */
  ghost predicate ClickDue(k: Kernel, s: State, inputs: seq<Input>) {
    exists j :: DueAt(k, s, inputs, j)
  }

  lemma {:induction false} ArmedMeansDue(k: Kernel, s: State, inputs: seq<Input>)
    requires !s.armed
    ensures Run(k, s, inputs).armed <==> ClickDue(k, s, inputs)
    decreases inputs
  {
    if inputs != [] {
      var n := |inputs| - 1;
      var last := inputs[n];
      assert inputs == inputs[..n] + [last];
      RunsJoin(k, s, inputs[..n], [last]);
      var t := Run(k, s, inputs[..n]);
      assert Run(k, t, [last]) == Step(k, t, last);
      ArmedMeansDue(k, s, inputs[..n]);
      if Passive(last) {
        DueSurvives(k, s, inputs[..n], last);
      } else {
        DueNow(k, s, inputs[..n], last);
      }
    }
  }

  lemma DueAtExtends(k: Kernel, s: State, inputs: seq<Input>, last: Input, j: int)
    requires Passive(last) && 0 <= j < |inputs|
    ensures DueAt(k, s, inputs + [last], j) <==> DueAt(k, s, inputs, j)
  {
    var all := inputs + [last];
    assert all[..j] == inputs[..j] && all[j] == inputs[j];
    if DueAt(k, s, all, j) {
      forall l | j < l < |inputs| ensures Passive(inputs[l]) {
        assert inputs[l] == all[l];
      }
    }
  }

  lemma DueSurvives(k: Kernel, s: State, inputs: seq<Input>, last: Input)
    requires Passive(last)
    ensures ClickDue(k, s, inputs + [last]) <==> ClickDue(k, s, inputs)
  {
    if ClickDue(k, s, inputs) {
      var j :| DueAt(k, s, inputs, j);
      DueAtExtends(k, s, inputs, last, j);
    }
    if ClickDue(k, s, inputs + [last]) {
      var j :| DueAt(k, s, inputs + [last], j);
      assert j < |inputs| by {
        assert (inputs + [last])[|inputs|] == last;
      }
      DueAtExtends(k, s, inputs, last, j);
    }
  }

  lemma DueNow(k: Kernel, s: State, inputs: seq<Input>, last: Input)
    requires !Passive(last)
    ensures ClickDue(k, s, inputs + [last]) <==> Arms(k, Run(k, s, inputs), last)
  {
    var all := inputs + [last];
    assert all[..|inputs|] == inputs && all[|inputs|] == last;
    if Arms(k, Run(k, s, inputs), last) {
      assert DueAt(k, s, all, |inputs|);
    }
    if ClickDue(k, s, all) {
      var j :| DueAt(k, s, all, j);
      assert j == |inputs|;
    }
  }

  ghost predicate HasClick(es: seq<Event>) {
    exists j :: 0 <= j < |es| && es[j].KeyEvent? && es[j].code == BtnMouse
  }

  lemma OnlyTimeoutsClick(k: Kernel, s: State, i: Input)
    requires Answers(k)
    ensures HasClick(Added(k, s, i)) <==> i.Timeout? && s.armed
  {
    if i.Frame? {
      FrameEventsFitMode(k, s, i);
      forall j | 0 <= j < |Added(k, s, i)| ensures Fits(ModeAfterInput(k, s, i), Added(k, s, i)[j]) {
        assert Added(k, s, i)[j] in Added(k, s, i);
      }
    } else if i.Timeout? && s.armed {
      assert Added(k, s, i)[0] == KeyEvent(BtnMouse, 1);
    }
  }

  /** A mouse button event appears exactly at a poll timeout that follows an accepted double tap
      with no device event in between. */
  lemma {:induction false} ClickExactlyWhenDue(k: Kernel, inputs: seq<Input>, i: Input)
    requires Answers(k)
    ensures HasClick(Added(k, Run(k, Start, inputs), i)) <==> i.Timeout? && ClickDue(k, Start, inputs)
    ensures i.Timeout? ==>
      Added(k, Run(k, Start, inputs), i) == if ClickDue(k, Start, inputs) then Stroke(BtnMouse) else []
  {
    ArmedMeansDue(k, Start, inputs);
    OnlyTimeoutsClick(k, Run(k, Start, inputs), i);
  }

  function ClickCount(k: Kernel, s: State, inputs: seq<Input>): nat
    decreases inputs
  {
    if inputs == [] then 0
    else (if inputs[0].Timeout? && s.armed then 1 else 0) + ClickCount(k, Step(k, s, inputs[0]), inputs[1..])
  }

  function ArmCount(k: Kernel, s: State, inputs: seq<Input>): nat
    decreases inputs
  {
    if inputs == [] then 0
    else (if Arms(k, s, inputs[0]) then 1 else 0) + ArmCount(k, Step(k, s, inputs[0]), inputs[1..])
  }

  /** An accepted double tap gives at most one click. */
  lemma {:induction false} ClicksNeedDoubleTaps(k: Kernel, s: State, inputs: seq<Input>)
    ensures ClickCount(k, s, inputs) + (if Run(k, s, inputs).armed then 1 else 0)
         <= ArmCount(k, s, inputs) + if s.armed then 1 else 0
    decreases inputs
  {
    if inputs != [] {
      ClicksNeedDoubleTaps(k, Step(k, s, inputs[0]), inputs[1..]);
    }
  }

  // ---- the output stream ----

  /** The keys that are down after the events. */
  function Held(es: seq<Event>): set<Code> {
    if es == [] then {}
    else
      var before, e := Held(es[..|es| - 1]), es[|es| - 1];
      if e.KeyEvent? then (if e.value == 0 then before - {e.code} else before + {e.code}) else before
  }

  predicate Reported(es: seq<Event>) {
    es == [] || es[|es| - 1] == Syn
  }

  ghost predicate Balanced(es: seq<Event>) {
    Held(es) == {} && Reported(es)
  }

  lemma HeldStroke(es: seq<Event>, code: Code)
    requires Balanced(es)
    ensures Balanced(es + Stroke(code))
  {
    var a, b := es + [KeyEvent(code, 1)], es + [KeyEvent(code, 1), Syn];
    var c, d := es + [KeyEvent(code, 1), Syn, KeyEvent(code, 0)], es + Stroke(code);
    assert a[..|a| - 1] == es && b[..|b| - 1] == a && c[..|c| - 1] == b && d[..|d| - 1] == c;
    assert Held(a) == {code} == Held(b);
  }

  lemma {:induction false} HeldPlain(es: seq<Event>, fs: seq<Event>)
    requires forall j :: 0 <= j < |fs| ==> !fs[j].KeyEvent?
    ensures Held(es + fs) == Held(es)
  {
    if fs == [] {
      assert es + fs == es;
    } else {
      assert (es + fs)[..|es + fs| - 1] == es + fs[..|fs| - 1];
      HeldPlain(es, fs[..|fs| - 1]);
    }
  }

  lemma SentKeepsBalance(es: seq<Event>, mask: Mask, cent: Point)
    requires Balanced(es) && mask != TapHoldMask
    ensures Balanced(es + Sent(mask, cent))
  {
    match mask
    case VolumeUpMask => HeldStroke(es, KeyVolumeUp);
    case VolumeDownMask => HeldStroke(es, KeyVolumeDown);
    case RightMask => HeldStroke(es, KeyRight);
    case LeftMask => HeldStroke(es, KeyLeft);
    case DownMask => HeldStroke(es, KeyDown);
    case UpMask => HeldStroke(es, KeyUp);
    case DoubleTapMask => HeldStroke(es, BtnMouse);
    case TapMask => HeldPlain(es, Sent(mask, cent));
    case PointerMask => HeldPlain(es, Sent(mask, cent));
  }

  lemma StepKeepsBalance(k: Kernel, s: State, i: Input)
    requires Answers(k) && Balanced(s.out)
    ensures Balanced(Step(k, s, i).out)
  {
    if i.Frame? {
      EmitsOnly(k, s.contact, i.c);
      var m := MaskFor(ModeAfterInput(k, s, i), EmittedGesture(k, s.contact, i.c));
      if m.Some? {
        SentKeepsBalance(s.out, m.value, Displacement(k, s, i));
      }
    } else if i.Timeout? && s.armed {
      SentKeepsBalance(s.out, DoubleTapMask, Point(0.0, 0.0));
    }
    if Added(k, s, i) == [] {
      assert s.out + Added(k, s, i) == s.out;
    }
  }

  /** Over every run, between inputs no key is held and the stream is empty or ends in a report. */
  lemma {:induction false} OutputStaysBalanced(k: Kernel, s: State, inputs: seq<Input>)
    requires Answers(k) && Balanced(s.out)
    ensures Balanced(Run(k, s, inputs).out)
    decreases inputs
  {
    if inputs != [] {
      StepKeepsBalance(k, s, inputs[0]);
      OutputStaysBalanced(k, Step(k, s, inputs[0]), inputs[1..]);
    }
  }

  /** It takes a TAPHOLD in normal mode to leave a button down, which the touch machine never emits. */
  lemma TapHoldWouldHold(es: seq<Event>, mode: Mode, g: Gesture, cent: Point)
    requires Balanced(es)
    ensures Balanced(es + Dispatched(mode, g, cent)) <==> !(mode == ModeNormal && g == TapHold)
  {
    var m := MaskFor(mode, g);
    if m.Some? && m.value != TapHoldMask {
      SentKeepsBalance(es, m.value, cent);
    } else if m.None? {
      assert es + [] == es;
    } else {
      var a, b := es + [KeyEvent(BtnMouse, 1)], es + [KeyEvent(BtnMouse, 1), Syn];
      var c := es + [KeyEvent(BtnMouse, 1), Syn, Syn];
      assert a[..|a| - 1] == es && b[..|b| - 1] == a && c[..|c| - 1] == b;
      assert Held(a) == {BtnMouse} && Held(b) == Held(a) && Held(c) == Held(b);
      assert es + Dispatched(mode, g, cent) == c;
    }
  }

  /** What may leave the daemon in a given mode. */
  predicate Fits(mode: Mode, e: Event) {
    match e
    case Syn => mode != ModeNone
    case KeyEvent(code, _) =>
      if mode == ModeVolume then code == KeyVolumeUp || code == KeyVolumeDown
      else mode == ModeNormal && (code == KeyUp || code == KeyDown || code == KeyLeft || code == KeyRight)
    case RelX(_) => mode == ModeNormal
    case RelY(_) => mode == ModeNormal
  }

  /** A frame sends volume keys only in volume mode, arrows and motion only in normal mode, nothing in MODE_NONE;
      the mode that counts is the one after a switch. */
  lemma FrameEventsFitMode(k: Kernel, s: State, i: Input)
    requires Answers(k) && i.Frame?
    ensures forall e :: e in Added(k, s, i) ==> Fits(ModeAfterInput(k, s, i), e)
  {
    EmitsOnly(k, s.contact, i.c);
  }

  /** The pending click is not subject to the mode: it comes even after the daemon has been turned off. */
  lemma ClickEscapesModeNone(k: Kernel, s: State)
    requires s.armed
    ensures var inputs := [SetMode(0), Timeout];
      Run(k, s, inputs).mode == ModeNone && Run(k, s, inputs).out == s.out + Stroke(BtnMouse)
  {
    var t := Step(k, s, SetMode(0));
    assert [SetMode(0), Timeout][1..] == [Timeout];
    assert Run(k, s, [SetMode(0), Timeout]) == Run(k, t, [Timeout]) == Step(k, t, Timeout);
    assert s.out + [] == s.out;
  }

  // ---- the event loop ----

  /** The event loop of a daemon takes the run of its inputs. */
  method EventLoop(d: Daemon, inputs: seq<Input>)
    requires d.Valid()
    modifies d, d.touch.Repr(), d.history, d.history.slots
    ensures d.Valid() && d.View() == Run(d.touch.rec.kernel, old(d.View()), inputs)
  {
    ghost var k, s := d.touch.rec.kernel, d.View();
    for i := 0 to |inputs|
      invariant d.Valid() && d.View() == Run(k, s, inputs[..i])
    {
      RunNext(k, s, inputs, i);
      d.Dispatch(inputs[i]);
    }
    assert inputs[..|inputs|] == inputs;
  }

  lemma RunNext(k: Kernel, s: State, inputs: seq<Input>, i: nat)
    requires i < |inputs|
    ensures Run(k, s, inputs[..i + 1]) == Step(k, Run(k, s, inputs[..i]), inputs[i])
  {
    assert inputs[..i + 1] == inputs[..i] + [inputs[i]];
    RunsJoin(k, s, inputs[..i], [inputs[i]]);
  }

  /** A daemon that has just been set up and then runs takes the run from the start, with the recognizer and the
      ballistics of this daemon as kernels. */
  method Serve(m: Trig, inputs: seq<Input>) returns (d: Daemon)
    requires SoundAngles(m) && SoundTanh(m)
    ensures d.Valid() && Interprets(d.touch.rec.kernel, m)
    ensures d.View() == Run(d.touch.rec.kernel, Start, inputs)
  {
    d := new Daemon(m);
    EventLoop(d, inputs);
  }
}
