/** The daemon: device input through the touch machine and the mode switch to input events. */
module Daemon {
  import opened Basics
  import opened Unipoint
  import opened DecisionTree
  import opened Recognizer
  import opened Touch
  import opened GestureLog

  // ---- the output ----

  /** BTN_LEFT and BTN_MOUSE are the same code. */
  datatype Code = KeyUp | KeyDown | KeyLeft | KeyRight | KeyVolumeUp | KeyVolumeDown | BtnMouse

  datatype Event = KeyEvent(code: Code, value: int) | RelX(value: int) | RelY(value: int) | Syn

  datatype Mask =
    | RightMask | LeftMask | DownMask | UpMask
    | TapMask | TapHoldMask | PointerMask
    | VolumeUpMask | VolumeDownMask | DoubleTapMask

  function Convert(distance: int): int {
    Truncate(distance as real * 0.1)
  }

  /** Pointer distances are a tenth, rounded toward zero, the same in both directions. */
  lemma ConvertIsTenth(d: int)
    ensures Convert(-d) == -Convert(d)
    ensures 10 * Abs(Convert(d)) <= Abs(d) < 10 * Abs(Convert(d)) + 10
    ensures Convert(d) > 0 ==> d > 0
    ensures Convert(d) < 0 ==> d < 0
  {
  }

  function Stroke(code: Code): seq<Event> {
    [KeyEvent(code, 1), Syn, KeyEvent(code, 0), Syn]
  }

  /** The events a mask sends. */
  function Sent(mask: Mask, cent: Point): seq<Event> {
    match mask
    case VolumeUpMask => Stroke(KeyVolumeUp)
    case VolumeDownMask => Stroke(KeyVolumeDown)
    case RightMask => Stroke(KeyRight)
    case LeftMask => Stroke(KeyLeft)
    case DownMask => Stroke(KeyDown)
    case UpMask => Stroke(KeyUp)
    case TapMask => [Syn]
    case DoubleTapMask => Stroke(BtnMouse)
    case TapHoldMask => [KeyEvent(BtnMouse, 1), Syn, Syn]
    case PointerMask => [RelX(Convert(Truncate(cent.x))), RelY(-Convert(Truncate(cent.y))), Syn]
  }

  /** What each mode makes of a gesture. */
  function MaskFor(mode: Mode, g: Gesture): Option<Mask> {
    match mode
    case ModeNone => None
    case ModeNormal => (
      match g
      case Right => Some(RightMask)
      case Left => Some(LeftMask)
      case Down => Some(DownMask)
      case Up => Some(UpMask)
      case Tap => Some(TapMask)
      case TapHold => Some(TapHoldMask)
      case Pointer => Some(PointerMask)
      case TimedOut => Some(PointerMask)
      case _ => None)
    case ModeVolume => (
      match g
      case Down => Some(VolumeDownMask)
      case Up => Some(VolumeUpMask)
      case _ => None)
  }

  function Dispatched(mode: Mode, g: Gesture, cent: Point): seq<Event> {
    match MaskFor(mode, g)
    case None => []
    case Some(mask) => Sent(mask, cent)
  }

  // ---- the step relation ----

  /** What one turn of the event loop, or the socket thread, can be faced with. A frame comes with the clock
      and with what the uninitialised motion record happens to hold. */
  datatype Input =
    | Frame(c: Sample, now: int, stale: Point)
    | Unreadable
    | Timeout
    | Interrupted
    | SetMode(value: int)

  datatype State = State(contact: Contact, log: seq<Logged>, mode: Mode, armed: bool, out: seq<Event>)

  function Logs(k: Kernel, s: State, i: Input): seq<Logged>
    requires i.Frame?
  {
    Record(s.log, EmittedGesture(k, s.contact, i.c), i.now)
  }

  /** Does this input make the state machine switch modes? */
  predicate SwitchedBy(k: Kernel, s: State, i: Input) {
    i.Frame? && Switches(Logs(k, s, i), s.mode)
  }

  function LogAfter(k: Kernel, s: State, i: Input): seq<Logged> {
    if !i.Frame? then s.log else if SwitchedBy(k, s, i) then [] else Logs(k, s, i)
  }

  function ModeOf(value: int): Option<Mode> {
    if value == 0 then Some(ModeNone)
    else if value == 1 then Some(ModeNormal)
    else if value == 2 then Some(ModeVolume)
    else None
  }

  function ModeAfterInput(k: Kernel, s: State, i: Input): Mode {
    if i.SetMode? then (match ModeOf(i.value) case Some(mode) => mode case None => s.mode)
    else if SwitchedBy(k, s, i) then Flip(s.mode)
    else s.mode
  }

  /** An accepted double tap: a tap dispatched in normal mode that the history, as it then stands, doubles. */
  predicate Arms(k: Kernel, s: State, i: Input) {
    && i.Frame? && ModeAfterInput(k, s, i) == ModeNormal
    && EmittedGesture(k, s.contact, i.c) == Tap && DoubleTap(LogAfter(k, s, i))
  }

  function Displacement(k: Kernel, s: State, i: Input): Point
    requires i.Frame?
  {
    match Accelerate(k, EmittedVelocity(s.contact, i.c))
    case Some(p) => p.position
    case None => i.stale
  }

  /** The events an input appends. */
  function Added(k: Kernel, s: State, i: Input): seq<Event> {
    match i
    case Frame(c, _, _) => Dispatched(ModeAfterInput(k, s, i), EmittedGesture(k, s.contact, c), Displacement(k, s, i))
    case Timeout => if s.armed then Sent(DoubleTapMask, Point(0.0, 0.0)) else []
    case _ => []
  }

  function ArmedAfter(k: Kernel, s: State, i: Input): bool {
    match i
    case Frame(_, _, _) => Arms(k, s, i)
    case Unreadable => false
    case Timeout => false
    case _ => s.armed
  }

  function Step(k: Kernel, s: State, i: Input): State {
    State(if i.Frame? then Advance(k, s.contact, i.c) else s.contact,
          LogAfter(k, s, i), ModeAfterInput(k, s, i), ArmedAfter(k, s, i), s.out + Added(k, s, i))
  }

  // ---- the daemon ----

  class Daemon {
    const touch: TouchMachine
    const history: GestureHistory
    var waitDoubleTap: bool
    var out: seq<Event>

    ghost predicate Valid()
      reads this, touch, touch.rec, touch.rec.history, touch.rec.raw, touch.rec.norm, touch.lookAhead
      reads history, history.slots
    {
      touch.Valid() && history.Valid()
    }

    ghost function View(): State
      reads this, touch, touch.rec, history
    {
      State(Contact(touch.contact, touch.rec.memory), history.log, history.mode, waitDoubleTap, out)
    }

    constructor (m: Trig)
      requires SoundAngles(m) && SoundTanh(m)
      ensures Valid() && touch.rec.kernel == KernelOf(m)
      ensures fresh(touch.Repr()) && fresh(history) && fresh(history.slots)
      ensures View() == State(Contact([], Blank), [], ModeNormal, false, [])
    {
      touch := new TouchMachine(m);
      history := new GestureHistory();
      waitDoubleTap := false;
      out := [];
    }

    /** Writes the events of a gesture, ending with a report; a double tap only arms the click. */
    method SendGesture(mask: Mask, cent: Point)
      requires history.Valid()
      modifies this
      ensures out == old(out) + Sent(mask, cent)
      ensures waitDoubleTap == (old(waitDoubleTap) || (mask == TapMask && DoubleTap(history.log)))
    {
      match mask {
        case VolumeUpMask =>
          out := out + [KeyEvent(KeyVolumeUp, 1)];
          out := out + [Syn];
          out := out + [KeyEvent(KeyVolumeUp, 0)];
        case VolumeDownMask =>
          out := out + [KeyEvent(KeyVolumeDown, 1)];
          out := out + [Syn];
          out := out + [KeyEvent(KeyVolumeDown, 0)];
        case RightMask =>
          out := out + [KeyEvent(KeyRight, 1)];
          out := out + [Syn];
          out := out + [KeyEvent(KeyRight, 0)];
        case LeftMask =>
          out := out + [KeyEvent(KeyLeft, 1)];
          out := out + [Syn];
          out := out + [KeyEvent(KeyLeft, 0)];
        case DownMask =>
          out := out + [KeyEvent(KeyDown, 1)];
          out := out + [Syn];
          out := out + [KeyEvent(KeyDown, 0)];
        case UpMask =>
          out := out + [KeyEvent(KeyUp, 1)];
          out := out + [Syn];
          out := out + [KeyEvent(KeyUp, 0)];
        case TapMask =>
          var r := history.IsDoubleTap();
          if r == 1 {
            waitDoubleTap := true;
          }
        case DoubleTapMask =>
          out := out + [KeyEvent(BtnMouse, 1)];
          out := out + [Syn];
          out := out + [KeyEvent(BtnMouse, 0)];
        case TapHoldMask =>
          out := out + [KeyEvent(BtnMouse, 1)];
          out := out + [Syn];
        case PointerMask =>
          var relX, relY := Truncate(cent.x), Truncate(cent.y);
          out := out + [RelX(Convert(relX))];
          out := out + [RelY(-Convert(relY))];
      }
      out := out + [Syn];
    }

    /** Acts on a gesture in the current mode. */
    method ActOn(g: Gesture, cent: Point)
      requires history.Valid()
      modifies this
      ensures out == old(out) + Dispatched(history.mode, g, cent)
      ensures waitDoubleTap ==
        (old(waitDoubleTap) || (history.mode == ModeNormal && g == Tap && DoubleTap(history.log)))
    {
      match history.mode {
        case ModeNone =>
        case ModeNormal =>
          match g {
            case Right => SendGesture(RightMask, cent);
            case Left => SendGesture(LeftMask, cent);
            case Down => SendGesture(DownMask, cent);
            case Up => SendGesture(UpMask, cent);
            case Tap => SendGesture(TapMask, cent);
            case TapHold => SendGesture(TapHoldMask, cent);
            case Pointer => SendGesture(PointerMask, cent);
            case TimedOut => SendGesture(PointerMask, cent);
            case _ =>
          }
        case ModeVolume =>
          match g {
            case Down => SendGesture(VolumeDownMask, cent);
            case Up => SendGesture(VolumeUpMask, cent);
            case _ =>
          }
      }
    }

    /** Logs the gesture, lets it switch the mode, and acts on it in the mode that then holds. */
    method StateMachineProcess(g: Gesture, now: int, cent: Point)
      requires history.Valid()
      modifies this, history, history.slots
      ensures history.Valid()
      ensures var log := Record(old(history.log), g, now);
        var switches := Switches(log, old(history.mode));
        && history.log == (if switches then [] else log)
        && history.mode == (if switches then Flip(old(history.mode)) else old(history.mode))
      ensures out == old(out) + Dispatched(history.mode, g, cent)
      ensures waitDoubleTap ==
        (old(waitDoubleTap) || (history.mode == ModeNormal && g == Tap && DoubleTap(history.log)))
    {
      history.Push(g, now);
      history.CheckAndSwitchMode();
      ActOn(g, cent);
    }

    /** One sample of the device. */
    method ProcessFrame(c: Sample, now: int, stale: Point)
      requires Valid() && !waitDoubleTap
      modifies this, touch.Repr(), history, history.slots
      ensures Valid()
      ensures touch.contact == Advance(touch.rec.kernel, old(View().contact), c).frames
      ensures touch.rec.memory == Advance(touch.rec.kernel, old(View().contact), c).memory
      ensures history.log == LogAfter(touch.rec.kernel, old(View()), Frame(c, now, stale))
      ensures history.mode == ModeAfterInput(touch.rec.kernel, old(View()), Frame(c, now, stale))
      ensures waitDoubleTap == Arms(touch.rec.kernel, old(View()), Frame(c, now, stale))
      ensures out == old(out) + Added(touch.rec.kernel, old(View()), Frame(c, now, stale))
    {
      var gestOut := touch.Process(c);
      var cent := match gestOut.pointing case Some(p) => p.position case None => stale;
      StateMachineProcess(gestOut.gesture, now, cent);
    }

    /** One turn of the event loop, or an external change of mode. */
    method Dispatch(i: Input)
      requires Valid()
      modifies this, touch.Repr(), history, history.slots
      ensures Valid()
      ensures View().contact == Step(touch.rec.kernel, old(View()), i).contact
      ensures history.log == LogAfter(touch.rec.kernel, old(View()), i)
      ensures history.mode == ModeAfterInput(touch.rec.kernel, old(View()), i)
      ensures waitDoubleTap == ArmedAfter(touch.rec.kernel, old(View()), i)
      ensures out == old(out) + Added(touch.rec.kernel, old(View()), i)
    {
      match i {
        case Interrupted =>
        case Timeout =>
          if waitDoubleTap {
            SendGesture(DoubleTapMask, Point(0.0, 0.0));
            waitDoubleTap := false;
          }
          waitDoubleTap := false;
        case Unreadable =>
          waitDoubleTap := false;
        case Frame(c, now, stale) =>
          waitDoubleTap := false;
          ProcessFrame(c, now, stale);
        case SetMode(value) =>
          if value == 0 {
            history.SwitchTo(ModeNone);
          } else if value == 1 {
            history.SwitchTo(ModeNormal);
          } else if value == 2 {
            history.SwitchTo(ModeVolume);
          }
      }
    }
  }
}
