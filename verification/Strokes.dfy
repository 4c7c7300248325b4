/** Whole contacts, from the frames of the sensor to the gesture the touch machine emits. */
module Strokes {
  import opened Unipoint
  import opened Signal
  import opened Trends
  import opened Runs
  import opened Windows
  import opened DecisionTree
  import opened Recognizer
  import opened Contacts
  import opened Touch
  import opened TouchRuns

  /** From idle, a contact long enough for a gesture and too short for the pointer, and its lift.
      Frames that report neither 0 nor 1 fingers may come in between. */
  ghost predicate Gestures(s: Contact, cs: seq<Sample>, lift: Sample) {
    s.frames == [] && StaysDown(cs) && lift.finger == 0 && TOUCH_MIN_FRAMES < |Downs(cs)| < SWIPE_MAX_FRAMES
  }

  /** The gesture emitted with the lift. */
  function Emitted(k: Kernel, s: Contact, cs: seq<Sample>, lift: Sample): Gesture {
    GestureRun(k, s, cs + [lift])[|cs|]
  }

  /** The gesture of a contact is what it is recognized as, whatever contacts came before it. */
  lemma LiftAnswers(k: Kernel, s: Contact, cs: seq<Sample>, lift: Sample)
    requires Answers(k) && Gestures(s, cs, lift)
    ensures Emitted(k, s, cs, lift) == Answered(k, Downs(cs))
  {
    WholeContact(k, s, cs, lift);
  }

  /** At constant height, X moving right: RIGHT exactly beyond X = 264 or with 99 units in some three steps;
      what is slower is told apart by its length and coarseness. */
  lemma RightStrokeEmits(k: Kernel, m: Trig, s: Contact, cs: seq<Sample>, lift: Sample)
    requires Interprets(k, m) && SoundRoots(m) && Gestures(s, cs, lift)
    requires Constant(Downs(cs), AxisY) && NonDecreasing(Downs(cs), AxisX)
    ensures var h := Downs(cs);
      Emitted(k, s, cs, lift) == if h[|h| - 1].x > 264 || SweepsRight(h, 99) then Right else Unflicked(h)
  {
    KernelAnswers(k, m);
    LiftAnswers(k, s, cs, lift);
    RightStroke(k, m, Downs(cs));
  }

  /** At constant height, X moving left: LEFT with 66 units in some three steps; else RIGHT beyond X = 264;
      else told apart by length and coarseness. Never DOWN. */
  lemma LeftStrokeEmits(k: Kernel, m: Trig, s: Contact, cs: seq<Sample>, lift: Sample)
    requires Interprets(k, m) && SoundRoots(m) && Gestures(s, cs, lift)
    requires Constant(Downs(cs), AxisY) && NonIncreasing(Downs(cs), AxisX)
    ensures var h := Downs(cs);
      Emitted(k, s, cs, lift) ==
        if SweepsLeft(h, 66) then Left else if h[|h| - 1].x > 264 then Right else Unflicked(h)
    ensures Emitted(k, s, cs, lift) != Down
  {
    KernelAnswers(k, m);
    LiftAnswers(k, s, cs, lift);
    LeftStroke(k, m, Downs(cs));
  }

  /** A rightward stroke emits LEFT exactly when it is short and coarse, without a sweep, and ends by X = 264. */
  lemma RightwardEmitsLeft(k: Kernel, m: Trig, s: Contact, cs: seq<Sample>, lift: Sample)
    requires Interprets(k, m) && SoundRoots(m) && Gestures(s, cs, lift)
    requires Constant(Downs(cs), AxisY) && NonDecreasing(Downs(cs), AxisX)
    ensures var h := Downs(cs);
      Emitted(k, s, cs, lift) == Left <==>
        h[|h| - 1].x <= 264 && !SweepsRight(h, 99) && |h| <= 8 && Coarse(h, |h| - 1) >= 40
  {
    KernelAnswers(k, m);
    LiftAnswers(k, s, cs, lift);
    RightwardReadsLeft(k, m, Downs(cs));
  }

  /** With Y never decreasing: DOWN exactly when the strongest window goes left by 66 units and the ends lie
      more than 430.75 apart in Y; never, when X does not move left. */
  lemma RiseEmitsDown(k: Kernel, m: Trig, s: Contact, cs: seq<Sample>, lift: Sample)
    requires Interprets(k, m) && Gestures(s, cs, lift) && NonDecreasing(Downs(cs), AxisY)
    ensures Emitted(k, s, cs, lift) == Down <==>
      Trigger(Xs(Downs(cs))) <= -66 && Closure(Downs(cs), AxisY) > 430.75
    ensures NonDecreasing(Downs(cs), AxisX) ==> Emitted(k, s, cs, lift) != Down
  {
    KernelAnswers(k, m);
    LiftAnswers(k, s, cs, lift);
    RiseIsDown(k, m, Downs(cs));
    if NonDecreasing(Downs(cs), AxisX) {
      XsRise(Downs(cs));
      RiseTriggers(Xs(Downs(cs)), 66);
    }
  }

  /** A finger that does not move: TAP up to X = 264 and RIGHT beyond, whatever its width and pressure do. */
  lemma StillContactEmits(k: Kernel, m: Trig, s: Contact, cs: seq<Sample>, lift: Sample)
    requires Interprets(k, m) && Gestures(s, cs, lift)
    requires Constant(Downs(cs), AxisX) && Constant(Downs(cs), AxisY)
    ensures Emitted(k, s, cs, lift) == if Downs(cs)[0].x <= 264 then Tap else Right
  {
    KernelAnswers(k, m);
    LiftAnswers(k, s, cs, lift);
    StillContact(k, m, Downs(cs));
  }
}
