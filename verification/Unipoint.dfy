/** The vocabulary shared by the whole daemon: sizes, gestures, samples and the
    transcendental functions the code takes from the C library. */
module Unipoint {

  const TOUCH_MIN_FRAMES := 3
  const TAP_MAX_FRAMES := 23
  const SWIPE_MAX_FRAMES := 45
  const ANGLE_BINS := 18
  const ANGLE_BIN_SIZE := 20.0
  const LOOKAHEAD := 5

  /** The frame counts are the rounded products of the sample rate and the durations in seconds. */
  lemma FrameConstants()
    ensures TOUCH_MIN_FRAMES == (90.0 * 0.03 + 0.5).Floor
    ensures TAP_MAX_FRAMES == (90.0 * 0.25 + 0.5).Floor
    ensures SWIPE_MAX_FRAMES == (90.0 * 0.500 + 0.5).Floor
    ensures ANGLE_BINS == (360.0 / ANGLE_BIN_SIZE + 0.5).Floor
  {
  }

  datatype Gesture =
    | NoGesture
    | Right
    | Left
    | Down
    | Up
    | Tap
    | TapHold
    | Pointer
    | TapBackEdge
    | TapCenterEdge
    | TapFrontEdge
    | TimedOut
    | ProcessingComplete

  /** One report of the touch sensor. */
  datatype Sample = Sample(finger: nat, x: nat, y: nat, xmax: nat, ymax: nat, wx: nat, wy: nat, z: nat)

  datatype Point = Point(x: real, y: real)

  /** The C library functions the recognizer and the ballistics call. */
  datatype Trig = Trig(atan2: (real, real) -> real, sqrt: real -> real, tanh: real -> real)

  /** Names of folded facts. */
  datatype Key = TrigKey | KernelKey | BufferKey | MotionKey | PeakKey | ScanKey | LineKey | RingKey | ReadKey

  /** Always true, and of no use but as a trigger: a fact stated for every key that opens stays folded in a
      proof until the proof names the key. */
  predicate Opens(key: Key) {
    true
  }

  /** What the recognizer relies on: atan2 stays within the half turn that the code rounds to 3.1416, a step
      that does not go down never points down, and a horizontal one points to 0 or close to the half turn. */
  ghost predicate SoundAngles(m: Trig) {
    forall key {:trigger Opens(key)} :: Opens(key) && key == TrigKey ==>
      && (forall y, x :: -3.1416 < m.atan2(y, x) < 3.1416)
      && (forall y, x :: y >= 0.0 ==> m.atan2(y, x) >= 0.0)
      && (forall x :: x > 0.0 ==> m.atan2(0.0, x) == 0.0)
      && (forall x :: x < 0.0 ==> m.atan2(0.0, x) > 3.14)
  }

  /** Square roots are square roots. Only theorems about the length of single steps ask for it. */
  ghost predicate SoundRoots(m: Trig) {
    forall key {:trigger Opens(key)} :: Opens(key) && key == TrigKey ==>
      forall v :: v >= 0.0 ==> m.sqrt(v) >= 0.0 && m.sqrt(v) * m.sqrt(v) == v
  }

  /** What the ballistics rely on. */
  ghost predicate SoundTanh(m: Trig) {
    && (forall v :: -1.0 < m.tanh(v) < 1.0)
    && (forall u, v :: u <= v ==> m.tanh(u) <= m.tanh(v))
    && m.tanh(0.0) == 0.0
  }

  function Abs(k: int): nat {
    if k < 0 then -k else k
  }

  function RAbs(r: real): real {
    if r < 0.0 then -r else r
  }
}
