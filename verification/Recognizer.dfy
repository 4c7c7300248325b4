/** centroidFilterHistory and classifyGesture over the daemon's buffers. */
module Recognizer {
  import opened Unipoint
  import opened Signal
  import opened Runs
  import opened Windows
  import opened Slots
  import opened Histogram
  import opened Peaks
  import opened DecisionTree
  import opened Ballistics

  // ---- what is recognized, as a function of the contact ----

  /** Number of frames averaged at either end of the contact. */
  function Ends(n: nat): nat {
    if n / 2 > 4 then 4 else n / 2
  }

  function FirstSum(h: seq<Sample>, axis: Axis, e: nat): real
    requires e <= |h|
  {
    if e == 0 then 0.0 else FirstSum(h, axis, e - 1) + Raw(h[e - 1], axis)
  }

  function LastSum(h: seq<Sample>, axis: Axis, e: nat): real
    requires e <= |h|
  {
    if e == 0 then 0.0 else LastSum(h, axis, e - 1) + Raw(h[|h| - e], axis)
  }

  /** Distance between the mean of the first and of the last frames. */
  function Closure(h: seq<Sample>, axis: Axis): real
    requires |h| >= 2
  {
    RAbs((FirstSum(h, axis, Ends(|h|)) - LastSum(h, axis, Ends(|h|))) / Ends(|h|) as real)
  }

  function VelTrig(h: seq<Sample>): real {
    if |h| <= 3 then 0.0 else Trigger(Xs(h)) as real / 3.0
  }

  function LrOf(h: seq<Sample>): LrFeatures
    requires |h| > 0
  {
    var run := Dominant(Xs(h));
    LrFeatures(run.time, Xs(h)[DominantEnd(h)], run.dist, VelTrig(h))
  }

  /** The features the filter extracts; the peaks are not its business. */
  function Motion(h: seq<Sample>): Features
    requires |h| >= 3
  {
    Features(LrOf(h), TalliesAt(h, |h| - 1), Closure(h, AxisX), Closure(h, AxisY),
             SlotsOf(h), ZeroFeatures.peaks, |h|, NoGesture)
  }

  function DominantEnd(h: seq<Sample>): (e: nat)
    requires |h| > 0
    ensures e < |h|
  {
    DominantIsLongest(Xs(h));
    Dominant(Xs(h)).end
  }

  function PeaksIn(m: Trig, h: seq<Sample>): PeakFeatures
    requires |h| > 0
  {
    PeaksOf(RawHistogram(Steps(m, h)), NormHistogram(Steps(m, h)))
  }

  /** What the recognizer keeps of a contact after it has been filtered. */
  datatype Memory = Memory(features: Features, raw: seq<real>, norm: seq<real>)

  function MemoryOf(m: Trig, h: seq<Sample>): Memory
    requires |h| >= 3
  {
    Memory(Motion(h), RawHistogram(Steps(m, h)), NormHistogram(Steps(m, h)))
  }

  /** The gesture a memory is classified as. */
  function Answer(k: Memory): Gesture {
    if |k.raw| == |k.norm| == ANGLE_BINS then Decision(k.features.(peaks := PeaksOf(k.raw, k.norm))) else Tap
  }

  const Blank := Memory(ZeroFeatures, ZeroBins, ZeroBins)

  const ZeroBins: seq<real> := seq(ANGLE_BINS, _ => 0.0)

  /** The gesture of a whole contact. */
  function Recognize(m: Trig, h: seq<Sample>): Gesture
    requires |h| >= 3
  {
    Decision(Motion(h).(peaks := PeaksIn(m, h)))
  }

  /** Recognizing a contact is answering from its memory. */
  lemma AnswerIsRecognize(m: Trig, h: seq<Sample>)
    requires |h| >= 3
    ensures Answer(MemoryOf(m, h)) == Recognize(m, h)
    ensures IsSwipeOrTap(Recognize(m, h))
  {
    RegionsPartition(Motion(h).(peaks := PeaksIn(m, h)));
  }

  /** Before anything has been classified the zeroed features read as a tap. */
  lemma BlankAnswersTap()
    ensures Answer(Blank) == Tap
  {
    var f := ZeroFeatures.(peaks := PeaksOf(ZeroBins, ZeroBins));
    assert f.peaks.angleMagMax == 0.0;
    assert Quiet(f) && f.frameCount == 0;
    RegionsPartition(f);
  }

  lemma AnswersSwipesAndTaps(k: Memory)
    ensures IsSwipeOrTap(Answer(k))
  {
    if |k.raw| == |k.norm| == ANGLE_BINS {
      RegionsPartition(k.features.(peaks := PeaksOf(k.raw, k.norm)));
    }
  }

  // ---- the numeric kernels, as the frame machine sees them ----

  /** What is remembered of a contact, what a memory answers, and the acceleration curve. The machines
      above the recognizer are specified for any such kernels. */
  datatype Kernel = Kernel(memoryOf: seq<Sample> -> Memory, answer: Memory -> Gesture, accelerate: Point -> Point)

  /** The kernels are the recognizer and the ballistics of this daemon. */
  ghost predicate Interprets(k: Kernel, m: Trig) {
    forall key {:trigger Opens(key)} :: Opens(key) && key == KernelKey ==>
      && SoundAngles(m) && SoundTanh(m)
      && (forall h: seq<Sample> :: |h| >= 3 ==> k.memoryOf(h) == MemoryOf(m, h))
      && (forall mem :: k.answer(mem) == Answer(mem))
      && (forall v :: k.accelerate(v) == PointerOut(m, v))
  }

  /** Every answer is a swipe or a tap. */
  ghost predicate Answers(k: Kernel) {
    forall mem :: IsSwipeOrTap(k.answer(mem))
  }

  ghost function KernelOf(m: Trig): (k: Kernel)
    requires SoundAngles(m) && SoundTanh(m)
    ensures Interprets(k, m)
  {
    Kernel(h => if |h| >= 3 then MemoryOf(m, h) else Blank, mem => Answer(mem), v => PointerOut(m, v))
  }

  lemma KernelSound(k: Kernel, m: Trig)
    requires Interprets(k, m)
    ensures SoundAngles(m) && SoundTanh(m)
  {
    assert Opens(KernelKey);
  }

  lemma KernelRemembers(k: Kernel, m: Trig, h: seq<Sample>)
    requires Interprets(k, m) && |h| >= 3
    ensures k.memoryOf(h) == MemoryOf(m, h)
  {
    assert Opens(KernelKey);
  }

  lemma KernelAnswer(k: Kernel, m: Trig, mem: Memory)
    requires Interprets(k, m)
    ensures k.answer(mem) == Answer(mem)
  {
    assert Opens(KernelKey);
  }

  /** Classifying off the buffers answers their memory; the last classification is no input of the next. */
  lemma DecisionAnswers(k: Kernel, m: Trig, mem: Memory, f: Features, p: PeakFeatures)
    requires Interprets(k, m) && |mem.raw| == |mem.norm| == ANGLE_BINS
    requires mem.features == f.(peaks := ZeroFeatures.peaks, classification := NoGesture)
    requires p == PeaksOf(mem.raw, mem.norm)
    ensures Decision(f.(peaks := p)) == k.answer(mem)
  {
    KernelAnswer(k, m, mem);
  }

  lemma KernelAccelerates(k: Kernel, m: Trig, v: Point)
    requires Interprets(k, m)
    ensures SoundTanh(m) && k.accelerate(v) == PointerOut(m, v)
  {
    assert Opens(KernelKey);
  }

  lemma KernelAnswers(k: Kernel, m: Trig)
    requires Interprets(k, m)
    ensures Answers(k)
  {
    forall mem ensures IsSwipeOrTap(k.answer(mem)) {
      KernelAnswer(k, m, mem);
      AnswersSwipesAndTaps(mem);
    }
  }

  /** A filtered contact is answered with what it is recognized as. */
  lemma KernelRecognizes(k: Kernel, m: Trig, h: seq<Sample>)
    requires Interprets(k, m) && |h| >= 3
    ensures k.answer(k.memoryOf(h)) == Recognize(m, h)
  {
    KernelRemembers(k, m, h);
    KernelAnswer(k, m, MemoryOf(m, h));
    AnswerIsRecognize(m, h);
  }

  lemma KernelBlankIsTap(k: Kernel, m: Trig)
    requires Interprets(k, m)
    ensures k.answer(Blank) == Tap
  {
    KernelAnswer(k, m, Blank);
    BlankAnswersTap();
  }

  class Recognizer {
    const trig: Trig
    const history: array<Sample>
    const pad: array<Scratch>
    const raw: array<real>
    const norm: array<real>
    var count: nat
    var features: Features
    ghost const kernel: Kernel
    /** Everything the next classification depends on. */
    ghost var memory: Memory

    /** The histograms are histograms, and the memory is what the buffers hold. */
    ghost predicate Backed()
      reads this, raw, norm
    {
      forall key {:trigger Opens(key)} :: Opens(key) && key == BufferKey ==>
        && raw.Length == norm.Length == ANGLE_BINS && raw != norm
        && Histogram18(raw[..]) && Histogram18(norm[..])
        && memory.features == features.(peaks := ZeroFeatures.peaks, classification := NoGesture)
        && memory.raw == raw[..] && memory.norm == norm[..]
    }

    ghost predicate Valid()
      reads this, raw, norm
    {
      && Interprets(kernel, trig) && Backed()
      && history.Length == SWIPE_MAX_FRAMES + 1 && pad.Length == SWIPE_MAX_FRAMES
      && count <= SWIPE_MAX_FRAMES
    }

    /** The samples of the current contact that the history has kept. */
    ghost function Contact(): seq<Sample>
      reads this, history
      requires count <= history.Length
    {
      history[..count]
    }

    constructor (m: Trig)
      requires SoundAngles(m) && SoundTanh(m)
      ensures Valid() && fresh(history) && fresh(pad) && fresh(raw) && fresh(norm)
      ensures trig == m && kernel == KernelOf(m) && count == 0 && memory == Blank
    {
      trig := m;
      history := new Sample[SWIPE_MAX_FRAMES + 1](_ => Sample(0, 0, 0, 0, 0, 0, 0, 0));
      pad := new Scratch[SWIPE_MAX_FRAMES](_ => Scratch(0.0, 0.0, 0.0, 0, 0.0, 0.0, 0, 0.0, 0.0, 0.0, 0.0, 0, 0, 0, 0));
      raw := new real[ANGLE_BINS](_ => 0.0);
      norm := new real[ANGLE_BINS](_ => 0.0);
      count := 0;
      features := ZeroFeatures;
      memory := Blank;
      kernel := KernelOf(m);
      new;
      assert raw[..] == ZeroBins && norm[..] == ZeroBins;
    }

    method Clear()
      requires Valid()
      modifies this`count
      ensures Valid() && count == 0
    {
      count := 0;
    }

    /** Appends a sample; the caller must not overrun the history. */
    method Push(c: Sample)
      requires Valid() && count < SWIPE_MAX_FRAMES
      modifies this`count, history
      ensures Valid() && count == old(count) + 1 && Contact() == old(Contact()) + [c]
    {
      history[count] := c;
      count := count + 1;
    }

    /** Extracts the features of the contact. Does nothing on an empty or a full history;
        the sliding window insists on three frames. */
    method Filter()
      requires Valid() && (count == 0 || count >= 3)
      modifies this`features, this`memory, pad, raw, norm
      ensures Valid()
      ensures memory == if 0 < count < SWIPE_MAX_FRAMES then kernel.memoryOf(Contact()) else old(memory)
      ensures features.peaks == old(features.peaks) && features.classification == old(features.classification)
    {
      if !(count < SWIPE_MAX_FRAMES) {
        return;
      }
      if !(count > 0) {
        return;
      }
      assert Opens(BufferKey);
      var f := MeasureContact(trig, history, pad, count, raw, norm, kernel);
      features := f.(peaks := features.peaks, classification := features.classification);
      memory := Memory(f, raw[..], norm[..]);
    }

    /** Classifies off the histograms and the features that are there. */
    method ClassifyGesture() returns (g: Gesture)
      requires Valid() && count > 0
      modifies this`features
      ensures Valid()
      ensures g == kernel.answer(memory)
      ensures memory == old(memory) && features.classification == g
      ensures |memory.raw| == |memory.norm| == ANGLE_BINS && features.peaks == PeaksOf(memory.raw, memory.norm)
    {
      assert Opens(BufferKey);
      var peaks := MeasurePeaks(raw, norm);
      DecisionAnswers(kernel, trig, memory, features, peaks);
      features := features.(peaks := peaks);
      g := Classify(features);
      features := features.(classification := g);
    }
  }

  /** All the features of a contact and both of its histograms: what the next classification depends on. */
  method MeasureContact(m: Trig, history: array<Sample>, pad: array<Scratch>, n: nat,
                        raw: array<real>, norm: array<real>, ghost k: Kernel)
    returns (f: Features)
    requires Interprets(k, m)
    requires 3 <= n <= history.Length && n <= pad.Length && raw.Length == norm.Length == ANGLE_BINS && raw != norm
    modifies pad, raw, norm
    ensures f.peaks == ZeroFeatures.peaks && f.classification == NoGesture
    ensures Histogram18(raw[..]) && Histogram18(norm[..])
    ensures k.memoryOf(history[..n]) == Memory(f, raw[..], norm[..])
  {
    ghost var h := history[..n];
    f := ExtractMotion(m, history, pad, n, h);
    HistogramsOf(m, pad, n, raw, norm, h, f, k);
    assert history[..n] == h;
    MemoryIsAll(k, m, h, f, pad[..], raw[..], norm[..]);
  }

  /** Smooths the contact and fills in position, velocity and polar form. */
  method MeasurePad(m: Trig, history: array<Sample>, pad: array<Scratch>, n: nat)
    requires 0 < n <= history.Length && n <= pad.Length
    modifies pad
    ensures Measured(m, history[..n], pad[..])
  {
    ghost var h := history[..n];
    Smooth(history, pad, n);
    Place(history, pad, n);
    Difference(pad, n, h);
    ToPolar(m, pad, n, h);
  }

  /** The left-right features: the trigger window, the longest run and where it ended. */
  method MeasureX(m: Trig, pad: array<Scratch>, n: nat, ghost h: seq<Sample>) returns (lr: LrFeatures)
    requires 3 <= n == |h| <= pad.Length
    requires Measured(m, h, pad[..])
    ensures lr == LrOf(h)
  {
    MeasuredIsStepped(m, h, pad[..]);
    var velTrig := SlidingWindow(pad, n, h);
    var run := CollectRuns(pad, n, h);
    assert run.end == DominantEnd(h);
    assert MeasuredRow(m, h, pad[run.end], run.end);
    lr := LrFeatures(run.time, pad[run.end].x, run.dist, velTrig);
  }

  /** The features are those of the contact, and the pad shows its frames; folded. */
  ghost predicate Extracted(m: Trig, h: seq<Sample>, f: Features, pad: seq<Scratch>) {
    forall key {:trigger Opens(key)} :: Opens(key) && key == MotionKey ==>
      |h| >= 3 && f == Motion(h) && Measured(m, h, pad) && Trended(h, pad)
  }

  lemma ExtractedIsAll(m: Trig, h: seq<Sample>, f: Features, pad: seq<Scratch>)
    requires |h| >= 3 && Measured(m, h, pad) && Trended(h, pad)
    requires f.trends == TalliesAt(h, |h| - 1) && f.slots == SlotsOf(h) && f.lr == LrOf(h)
    requires f.xClosure == Closure(h, AxisX) && f.yClosure == Closure(h, AxisY)
    requires f.peaks == ZeroFeatures.peaks && f.frameCount == |h| && f.classification == NoGesture
    ensures Extracted(m, h, f, pad)
  {
  }

  /** The bins are the two histograms of the contact; folded. */
  ghost predicate Binned(m: Trig, h: seq<Sample>, raw: seq<real>, norm: seq<real>) {
    forall key {:trigger Opens(key)} :: Opens(key) && key == MotionKey ==>
      |h| > 0 && raw == RawHistogram(Steps(m, h)) && norm == NormHistogram(Steps(m, h))
  }

  /** Features, raw and normalised bins of a contact make up its memory. */
  lemma MemoryIsAll(k: Kernel, m: Trig, h: seq<Sample>, f: Features, pad: seq<Scratch>, raw: seq<real>, norm: seq<real>)
    requires Interprets(k, m) && |h| >= 3 && Extracted(m, h, f, pad) && Binned(m, h, raw, norm)
    ensures k.memoryOf(h) == Memory(f, raw, norm)
    ensures f.peaks == ZeroFeatures.peaks && f.classification == NoGesture
  {
    assert Opens(MotionKey);
    KernelRemembers(k, m, h);
  }

  /** Both histograms of the contact. */
  method HistogramsOf(m: Trig, pad: array<Scratch>, n: nat, raw: array<real>, norm: array<real>, ghost h: seq<Sample>,
                      ghost f: Features, ghost k: Kernel)
    requires Interprets(k, m)
    requires 0 < n == |h| <= pad.Length && raw.Length == norm.Length == ANGLE_BINS && raw != norm
    requires Extracted(m, h, f, pad[..])
    modifies raw, norm
    ensures Binned(m, h, raw[..], norm[..]) && Histogram18(raw[..]) && Histogram18(norm[..])
  {
    assert Opens(MotionKey);
    KernelSound(k, m);
    ghost var steps := Steps(m, h);
    StepsInRange(m, h);
    PadShowsSteps(m, h, pad[..]);
    FillHistograms(pad, n, raw, norm, steps);
    RawConserves(steps);
    NormIsShares(steps);
  }

  /** Runs the stages over the scratch pad and collects every feature but the peaks. */
  method ExtractMotion(m: Trig, history: array<Sample>, pad: array<Scratch>, n: nat, ghost h: seq<Sample>)
    returns (f: Features)
    requires 3 <= n <= history.Length && n <= pad.Length
    requires history[..n] == h
    modifies pad
    ensures Extracted(m, h, f, pad[..])
  {
    MeasurePad(m, history, pad, n);
    var trends := CountTrends(m, pad, n, h);
    var slots := AssignSlots(pad, n, h);
    var xClosure, yClosure := MeasureClosure(history, n);
    var lr := MeasureX(m, pad, n, h);
    f := Features(lr, trends, xClosure, yClosure, slots, ZeroFeatures.peaks, n, NoGesture);
    ExtractedIsAll(m, h, f, pad[..]);
  }

  lemma MeasuredIsStepped(m: Trig, h: seq<Sample>, p: seq<Scratch>)
    requires Measured(m, h, p)
    ensures Stepped(h, p)
  {
    forall i | 0 <= i < |h| ensures SteppedRow(h, p[i], i) {
      assert MeasuredRow(m, h, p[i], i);
    }
  }

  /** Closure of the contact: how far its ends lie apart on either axis. */
  method MeasureClosure(history: array<Sample>, n: nat) returns (xClosure: real, yClosure: real)
    requires 2 <= n <= history.Length
    ensures xClosure == Closure(history[..n], AxisX) && yClosure == Closure(history[..n], AxisY)
  {
    ghost var h := history[..n];
    var endIndex := n / 2;
    endIndex := if endIndex > 4 then 4 else endIndex;
    var xStart, xEnd, yStart, yEnd := 0.0, 0.0, 0.0, 0.0;
    var i := 0;
    while i < endIndex
      invariant 0 <= i <= endIndex == Ends(n)
      invariant xStart == FirstSum(h, AxisX, i) && xEnd == LastSum(h, AxisX, i)
      invariant yStart == FirstSum(h, AxisY, i) && yEnd == LastSum(h, AxisY, i)
    {
      xStart := xStart + history[i].x as real;
      xEnd := xEnd + history[n - 1 - i].x as real;
      yStart := yStart + history[i].y as real;
      yEnd := yEnd + history[n - 1 - i].y as real;
      i := i + 1;
    }
    xClosure := RAbs((xStart - xEnd) / endIndex as real);
    yClosure := RAbs((yStart - yEnd) / endIndex as real);
  }
}
