# Unipoint, verified

Unipoint turns the reports of a small touch sensor into key strokes and pointer motion. A daemon collects
the frames of one contact, recognizes a swipe, a tap or a pointer movement, logs the gesture, and acts on
it in one of three modes. Three quick gestures switch the mode; a client library can also read and set it
over a local socket. A demo application draws shapes whose faces carry their colour in a shared vertex.

This project models that code in Dafny and proves what it keeps to.

## How the model is laid out

| file | part of the system |
|---|---|
| `Basics.dfy`, `Unipoint.dfy` | constants, samples, gestures, the mathematical functions the code calls |
| `Signal.dfy`, `Trends.dfy` | smoothing, velocities, polar form, and the up/down/none/opposing tallies |
| `Slots.dfy`, `Windows.dfy`, `Runs.dfy` | half-crossing slot codes, the sliding trigger window, the longest run in one direction |
| `Histogram.dfy`, `Peaks.dfy` | the two angle histograms and their circular windows |
| `DecisionTree.dfy` | the decision tree as five regions of the feature space |
| `Recognizer.dfy`, `Contacts.dfy` | the recognizer as an object, and what whole contacts are recognized as |
| `Ballistics.dfy` | the pointer acceleration curve |
| `Touch.dfy`, `TouchRuns.dfy` | the per-frame touch machine, and its runs over whole contacts |
| `GestureLog.dfy` | the gesture ring and the mode switch |
| `Daemon.dfy`, `DaemonRuns.dfy`, `TapsToClicks.dfy` | the event loop on top of it all, its runs, and the way from frames to clicks |
| `Strokes.dfy` | whole contacts from sensor frames to the gesture emitted on the lift |
| `Verdicts.dfy`, `Verticals.dfy` | the recognizer read off the samples of a contact, and contacts along one axis |
| `PointerMotion.dfy` | the motion of the cursor against the motion of the finger |
| `ContactsToKeys.dfy` | which keys a contact presses, and which gestures click or switch the mode |
| `Mesh.dfy`, `MeshWorld.dfy` | painting faces that share vertices, and filling the render buffers |
| `Kube.dfy`, `KubeGeometry.dfy` | the puzzle of the demo: building, painting and rendering its 26 cubes, and where they stand |
| `Protocol.dfy` | the mode request protocol over its reused buffers |

Code that updates arrays and globals in place is modelled by methods over arrays and by classes. Each is
proved to compute a specification function of the whole contact (or of the whole log), and the theorems are
proved about those functions. The layers compose: the recognizer, the touch machine and the event loop are
each proved to take the step that the specification of the layer says, and `DaemonRuns.Serve` proves that a
daemon which has just been set up takes the run of its inputs from `Start`. So the theorems in `Strokes.dfy`,
`Verticals.dfy`, `TouchRuns.dfy`, `DaemonRuns.dfy`, `TapsToClicks.dfy`, `PointerMotion.dfy` and
`ContactsToKeys.dfy` speak about every run of the code.

Where a specification function follows the code, a second description that does not use it stands beside it and the
two are proved equal: `Verdicts.Verdict` for the recognizer, with windows, one-way stretches, falls, gaps and sectors
taken from the samples; `PointerMotion.Cursor` for the ballistics; `ContactsToKeys.KeysOf`, `EndsInTwoTaps` and
`EndsInTrigger` for dispatch, double tap and mode switch; `KubeGeometry` for the buffers of the demo.

Three modelling decisions run through the project.

- **Numbers.** The X path uses a filter pole of 0, so X stays an exact integer; `Signal.ZeroPoleIsExact`
  proves it, and the code's integer `abs` on X distances is therefore harmless. Y and the histograms are
  modelled over the reals. `atan2`, `sqrt` and `tanh` are parameters of the model, collected in `Trig`. Where
  a proof needs something of them it asks for one of three conditions. `SoundAngles`: atan2 stays within the
  half turn that the code rounds to 3.1416, is not negative for a step that does not go down, is 0 for a step
  to the right and more than 3.14 for a step to the left. `SoundRoots`: the root of a non-negative number is
  not negative and its square is the number. `SoundTanh`: strictly between -1 and 1, monotone, 0 at 0.
- **Kernels.** The machines above the recognizer are specified for any function from contacts to memories
  and from memories to gestures (`Kernel`). `Interprets` ties a kernel to the actual recognizer and
  acceleration curve; every theorem that needs more than the answer being a swipe or a tap asks for it.
- **Keys.** Some large facts (`Interprets`, `SoundAngles`, the buffer invariants, the delay line, the ring)
  are stated for every key that `Opens`. `Opens` is always true and serves as a trigger only: such a fact
  means the same as without the key, but stays folded in a proof until the proof names the key.

The model follows the code where it and its comments differ, and where it looks uneven. A slot location
below 0.05 of the contact becomes 0.5 for the up trend but 0.05 for the other two (recognizer.c:735-748).
The trigger of a mode switch asks for two taps and then for any gesture (statemachine.c:183), and that
third gesture is dispatched in the new mode. The comment at process.c:137 says that taps are no longer an
option after the tap limit, yet both monitors classify alike and a tap can still be recognized.

## Main results

- `Verdicts.AnswerIsVerdict`: every contact of at least three frames is answered with the verdict on its samples;
  `Verdicts.LrIsLongest` for the left-right features alone; `Verticals.StraightFall`, `StraightRise`, `LevelStroke`
  for every contact straight down, straight up, or at constant height, whichever way it turns.
- `PointerMotion.PointerMoves`, `PointerReports`: what every pointer frame reports, from three steps of the finger to
  the two relative motions.
- `ContactsToKeys.ContactActs`: what any contact does to the daemon; `RightwardPressesRight`, `FallPressesDown` and
  their partners from samples to keys; `TwoTapsClickOrNot`, `ThirdSwitchesOrNot`, `PendingNeedsTwoTaps`,
  `SwitchNeedsTrigger` for clicks and switches, with the times in clocks.
- `Strokes.RightStrokeEmits`, `Strokes.LeftStrokeEmits`, `Strokes.RiseEmitsDown`, `Strokes.StillContactEmits`: the
  gesture that is emitted, told exactly from the raw samples, through all stages of the pipeline.
- `Runs.DominantIsLongest` and `Windows.TriggerWithinTwoRuns`: the one-pass run scan against all
  segments, and a bound that links two separate loops.
- `Slots.CodesRankCrossings`, `Slots.HashesDecode`: slot codes are exactly the ranks of the crossings.
- `Histogram.RawConserves`, `Peaks.PeakBounds`, `Peaks.DullPeakBounds`: conservation and circular windows.
- `TouchRuns.WholeContact`, `TouchRuns.MemoryIsLastAnswer`, `TouchRuns.VelocitiesTelescope`: the touch machine
  over any contact and any run of contacts.
- `GestureLog.GestureHistory`: the ring answers as an unbounded log does.
- `DaemonRuns.ClickExactlyWhenDue`, `DaemonRuns.QuietFrameKeepsMode`, `DaemonRuns.OutputStaysBalanced`, and
  `DaemonRuns.Serve`, which carries them to a daemon object.
- `TapsToClicks.DoubleTapClicks`, `TapsToClicks.TripleTapSwitches`: from sensor frames to events.
- `Mesh.PaintFace`, `Mesh.PaintedFacesFit`, `MeshWorld.GLWorld.Generate`, `Kube.MakeWorld`: painting shared
  vertices, filling the buffers, and both on the puzzle the demo builds, down to the position and colour cells that
  each triangle points at; `KubeGeometry.SideIsClockwise`: each triangle is clockwise seen from outside.
- `Protocol.Session`, `Protocol.SetOutcome`, `Protocol.OneDigitSession`: the protocol over stale buffers, and
  exactly what stale bytes make of a request.

Eight properties one might expect turn out to be false of the code. Each has its input and its exact condition:

- A rightward stroke can be answered LEFT: five frames at X = 0, 20, 40, 60, 80 are
  (`Contacts.TwentiesReadLeft`). It happens exactly to strokes of at most eight frames whose steps longer than 5
  add up to 40 or more, without a sweep of 99 in three steps, that end by X = 264 (`Strokes.RightwardEmitsLeft`).
- A finger that moves straight down can be answered UP: twenty frames of which the last four go down by 100 each are
  (`Verticals.LateFallIsUp`). Of the falls deep enough for DOWN it happens exactly to those of which half of the drops
  by more than 10 come after three quarters of the contact (`Verticals.StraightFall`).
- A faster finger can move the cursor less: a velocity of 0.9 moves it less than one of 0.5
  (`PointerMotion.FasterButLess`). It cannot on one side of the cap of 0.5 (`PointerMotion.CursorGrows`); across the
  cap, from u to v, it does exactly when v < u * (1 + tanh(u / 0.1 - 1)) (`PointerMotion.CursorDropsPastCap`).
- A SET of a valid mode can be refused or taken for another mode: after a 12, a 1 is read as 12 and refused,
  and a 0 is read as 2, accepted, and switches to volume mode (`Protocol.TwelveLingers`). A valid mode is taken
  as itself exactly when no digit is left behind it or all digits are zero, for another mode exactly when it is
  zero and a 1 or a 2 is left behind it, and is refused otherwise (`Protocol.SetOutcome`).
- A frame without a gesture can switch the mode: switched off, tapped three times, switched on again, and the
  next quiet frame switches to volume mode (`TapsToClicks.TapsWhileOffSwitchLater`). It happens exactly when a
  trigger stands in the log and the mode is not MODE_NONE (`DaemonRuns.QuietFrameKeepsMode`).
- A click can come after the daemon has been turned off: a double tap, off, and a time-out
  (`TapsToClicks.DoubleTapClicksAfterOff`). A click comes exactly when one is due, whatever the mode
  (`DaemonRuns.ClickExactlyWhenDue`).
- A contact of 45 frames is not recognized: its lift repeats the last swipe or tap that was emitted, however
  long ago, or gives a TAP when there was none (`TouchRuns.FullHistoryRepeats`, `TouchRuns.FullHistoryFirst`).
- Painting can hang: the turning of a face ends if and only if one of its vertices has no colour
  (`Mesh.TurningStopsIffBare`), so every mesh with more faces than vertices gets stuck in every order
  (`Mesh.PaintInOrder`), an octahedron for one (`Mesh.OctahedronGetsStuck`).

## Model

| member | source | states |
|---|---|---|
| Unipoint.FrameConstants | unipoint.h:34-46 | The frame limits 3, 23 and 45 and the 18 bins are the rounded products of the sample rate and the durations. |
| Signal.Smooth | recognizer.c:566-583 | In place, every row of the pad receives the low-pass value of each axis, defined by recursion over the whole contact. |
| Signal.ZeroPoleIsExact | recognizer.c:561-573 | With the X pole of 0 the filter returns the sample itself, so the X path is exact integer arithmetic. |
| Signal.Place | recognizer.c:587-591 | Every row holds the smoothed position and the finger tip derived from the smoothed width. |
| Signal.Difference | recognizer.c:593-601 | Every row holds the exact frame-to-frame steps of position and tip; the first has none; positions survive. |
| Signal.ToPolar | recognizer.c:619-659 | Every row holds length and unwrapped direction of its step, with steps up to the noise limit zeroed. |
| Signal.ProductSign | recognizer.c:690 | The product test is positive exactly when centroid and tip moved in the same strict direction. |
| Signal.TallyNext | recognizer.c:679-709 | One frame moves exactly the tally of its own trend, and adds its displacement to that trend's distance only. |
| Signal.TallyKeepsRow | recognizer.c:681-707 | Writing the four counters to a row leaves its measurements alone. |
| Signal.CountTrends | recognizer.c:664-709 | The one-pass tallies equal the number of frames, and the distance, of each trend counted over the contact, at every row and at the end. |
| Trends.FilterFollowsRise | recognizer.c:571-574 | When Y never decreases, the smoothed Y never decreases and never overtakes Y. |
| Trends.PoleKeepsConstant | recognizer.c:571-576 | A constant axis passes any pole unchanged. |
| Trends.CountsPartition | recognizer.c:679-709 | At every frame i the four counters add up to i, and exactly one of them grew. |
| Trends.DistancesTelescope | recognizer.c:597-601 | The three trend distances plus the opposing frames' displacement are the total displacement of the smoothed Y. |
| Trends.DistanceSigns | recognizer.c:690-703 | The up distance is never negative, the down distance never positive, and each is zero exactly when its counter is. |
| Trends.RiseNeverFalls | recognizer.c:679-709 | A contact whose Y never decreases has no down frame and no down distance. |
| Trends.ConstantYOnlyOpposes | recognizer.c:690-708 | At constant Y every frame is opposing, whatever the width does. |
| Runs.ClimbRises | recognizer.c:1088-1132 | The run tracked at a frame is a non-decreasing segment that starts with a strict rise, and gains nothing only when it is empty. |
| Runs.ClimbIsLongest | recognizer.c:1088-1132 | No non-decreasing segment that ends at the same frame gains more than the tracked run. |
| Runs.BestClimbBounds | recognizer.c:1099-1103 | The recorded best is attained at its end frame, dominates every earlier run, and is the latest among equals. |
| Runs.BestClimbIsMaximal | recognizer.c:1075-1139 | The recorded rightward run is attained, no non-decreasing segment gains more, and one that gains as much does not end later. |
| Runs.BestFallIsMaximal | recognizer.c:1107-1145 | The same for leftward runs and non-increasing segments. |
| Runs.MonotoneIsBounded | recognizer.c:1274-1282 | No monotone segment of the contact is longer than the reported trend. |
| Runs.DominantIsLongest | recognizer.c:1274-1282 | The reported trend is X[end] - X[end - time] over a monotone segment, and no monotone segment is longer. |
| Runs.RiseIsDominant | recognizer.c:1134-1145 | When X never decreases the reported run ends on the last frame and covers the whole displacement. |
| Runs.FallIsDominant | recognizer.c:1134-1145 | When X never increases the reported run ends on the last frame and covers the whole displacement. |
| Runs.FlatHasNoRun | recognizer.c:1117-1123 | A contact that does not move in X has no run in either direction. |
| Runs.StepClimbs | recognizer.c:1089-1130 | Each branch of the scan keeps, for one direction: the run in progress is the tracked one, and it and the closed best make up the best so far. |
| Runs.ScanStepTracks | recognizer.c:1089-1130 | Each branch keeps this for both directions, since the leftward scan is the rightward scan of the mirrored contact. |
| Runs.ScanEnds | recognizer.c:1134-1145 | Closing both directions after the loop leaves the longer of the two best runs. |
| Runs.CollectRuns | recognizer.c:1075-1145 | The single pass with its six branches returns the dominant run of the contact: distance, end frame and time. |
| Windows.StrongestWitness | recognizer.c:1060-1071 | The maximum kept by the loop is some window, none is stronger, and every earlier one is weaker. |
| Windows.TriggerIsFirstGreatest | recognizer.c:1059-1071 | The trigger is the first three-step window of greatest absolute value, and 0 when four frames or fewer leave no window. |
| Windows.RiseTriggers | recognizer.c:1060-1071 | When X never decreases, the trigger reaches t if and only if some X[k+3] - X[k] with k >= 1 does. |
| Windows.FallTriggers | recognizer.c:1060-1071 | When X never increases, the trigger reaches -t if and only if some X[k] - X[k+3] with k >= 1 reaches t. |
| Windows.WindowWithinTwoRuns | recognizer.c:1061-1064 | No three-step window exceeds twice the longest run in one direction. |
| Windows.TriggerWithinTwoRuns | recognizer.c:1272-1282 | The trigger velocity and the longest run, computed by separate loops, satisfy: 3 * LRVelTrig is at most twice LRMaxTrend. |
| Windows.SlidingWindow | recognizer.c:1049-1071 | The nested loops return a third of the trigger window, and 0 for three frames. |
| Slots.CrossingIsOwnFrame | recognizer.c:729-733 | A trend crosses at a frame of its own, with exactly half of its final count, and not earlier. |
| Slots.NotYetCrossed | recognizer.c:730-732 | A trend that has not crossed is still below its half at every frame so far. |
| Slots.CrossingsAreDistinct | recognizer.c:729-733 | Two trends never cross at the same frame. |
| Slots.SlotNeedsFour | recognizer.c:722-732 | A trend gets a nonzero code if and only if its final count is at least four. |
| Slots.CodesRankCrossings | recognizer.c:712-733 | The nonzero codes are at most k for k coded trends, pairwise distinct, and ordered as the crossing frames. |
| Slots.CodeRange | recognizer.c:712-733 | Codes of the three trends lie between 0 and 3. |
| Slots.LocationInNumbers | recognizer.c:726-748 | A location times the frame count is the half-crossing frame; below a twentieth it is 0.05, or 0.5 for the up trend, and above 0.94 it is 0.94. |
| Slots.CodesAreOrder | recognizer.c:726-762 | A published code is nonzero exactly for a count of at least four, and the smaller of two belongs to the trend that is half through first. |
| Slots.DigitRange | recognizer.c:735-753 | Every location digit is ten times the location rounded to the nearest, from 1 to 9. |
| Slots.CodesAreTaken | recognizer.c:729-733 | Every code from 1 to the number of coded trends is taken, so the nonzero codes are exactly 1 to k. |
| Slots.HashesDecode | recognizer.c:750-753 | The decimal digits of the two hashes give back the three codes and the three location digits. |
| Slots.CrossesAt | recognizer.c:730-732 | The crossing test fires once for a trend, at a frame of that trend. |
| Slots.SlotsNext | recognizer.c:729-733 | In one iteration at most one trend takes the next code, and the others keep theirs. |
| Slots.AssignSlots | recognizer.c:712-762 | The loop, the clamps and the hashes together return the codes, locations and hashes defined from the crossings. |
| Slots.Publish | recognizer.c:735-762 | Clamps the three locations, each with its own lower replacement, and packs both hashes. |
| Histogram.StepsInRange | recognizer.c:645-657 | Every direction lies in [0, 360) and every length is at least 0, so the bin index stays within the array. |
| Histogram.BinsNext | recognizer.c:1297-1316 | One frame changes one bin, by its length, and only in a histogram that takes the frame. |
| Histogram.BinsConserve | recognizer.c:1297-1316 | The bins add up to the length of the frames taken. |
| Histogram.FramesSplit | recognizer.c:1304-1316 | In total and in every bin, all frames are the moving frames plus the opposing frames. |
| Histogram.RawConserves | recognizer.c:1297-1316 | The raw bins add up to the length of the path of frames 1 to n-1, and what the trend filter leaves out is exactly the opposing frames. |
| Histogram.SharesMakeWhole | recognizer.c:1319-1325 | Dividing by a nonzero total gives shares that add up to 1; a zero total gives zeros. |
| Histogram.NormIsShares | recognizer.c:1304-1325 | The normalised bins are non-negative and add up to 1, or are all 0. |
| Histogram.RawDominatesNorm | recognizer.c:1296-1325 | A raw bin is at least its normalised bin times the total. |
| Histogram.PadShowsSteps | recognizer.c:1307-1310 | The three counter comparisons recognise exactly the frames that are not opposing. |
| Histogram.FillHistograms | recognizer.c:1285-1325 | After the four loops both arrays hold the two histograms of the contact, whatever they held before. |
| Histogram.ClearHistograms | recognizer.c:1286-1289 | Every bin of both arrays is zero. |
| Histogram.AddSteps | recognizer.c:1297-1301 | A cleared array ends up holding the bins over all frames. |
| Histogram.AddMovingSteps | recognizer.c:1305-1316 | The array ends up holding the bins over the moving frames, and the total is their length. |
| Histogram.Normalise | recognizer.c:1319-1325 | Every bin becomes its share of the total, or 0. |
| Peaks.WrapIsModulo | recognizer.c:264-305 | Within a turn on either side, the two conditional corrections compute the index modulo 18. |
| Peaks.ArgMaxIsFirstGreatest | recognizer.c:247-254 | The peak is the first of the greatest bins. |
| Peaks.DullestIsLastGreatest | recognizer.c:361-372 | The dull peak is the last of the sharpest three-bin neighbourhoods. |
| Peaks.TurnKeepsSum | recognizer.c:264-270 | Cutting the circle open elsewhere does not change the sum of the bins. |
| Peaks.PeaksInNumbers | recognizer.c:246-388 | All eight features from the bins, with indices modulo 18: the peak, its five-bin window, the five bins opposite to it, its neighbourhood, and the last sharpest neighbourhood. |
| Peaks.WindowIsCut | recognizer.c:264-306 | A five-bin window with wrapped indices is a contiguous piece of the circle cut open at its left end. |
| Peaks.WindowsAreDisjoint | recognizer.c:295-306 | The window at the peak and the window half a turn away share no bin. |
| Peaks.PeakBounds | recognizer.c:246-309 | angleMagMax is an upper bound of the bins, angleMagMax <= weightedPeak <= 5 * angleMagMax, and weightedPeak + tapPeak fits in the histogram. |
| Peaks.DullPeakHoldsASixth | recognizer.c:361-372 | The sharpest neighbourhood holds at least a sixth of the histogram. |
| Peaks.DullPeakBounds | recognizer.c:322-378 | 0 <= peakedness <= dullPeak <= 1, and dullPeak >= 1/6 unless the normalised histogram is empty. |
| Peaks.SumWindow | recognizer.c:262-270 | The wrapped loop sums the circular window around a centre that may lie past the last bin. |
| Peaks.FindPeak | recognizer.c:247-254 | Returns the first greatest bin and its index. |
| Peaks.FindDullPeak | recognizer.c:361-372 | Returns the last sharpest neighbourhood and its value. |
| Peaks.MeasurePeaks | recognizer.c:246-378 | All eight peak features of the two arrays, as defined on their contents. |
| DecisionTree.RegionsPartition | recognizer.c:404-537 | Each gesture is returned exactly on its region; the five regions cover every feature vector without overlap, so the placeholder never survives. |
| DecisionTree.Classify | recognizer.c:392-545 | The nested tests of the tree return the gesture whose region the feature vector lies in. |
| Recognizer.AnswerIsRecognize | recognizer.c:105-545 | Classifying from what the filter left behind recognizes the contact, always as a swipe or a tap. |
| Recognizer.BlankAnswersTap | recognizer.c:404-537 | With features and histograms still zero, the answer is TAP. |
| Recognizer.DecisionAnswers | recognizer.c:541-543 | The last classification and the old peak features do not influence the next answer. |
| Recognizer.KernelAnswers | recognizer.c:404-543 | Every memory is answered with LEFT, RIGHT, UP, DOWN or TAP. |
| Recognizer.KernelRecognizes | recognizer.c:105-1329 | Filtering a contact and then classifying gives what the contact is recognized as. |
| Recognizer.MeasurePad | recognizer.c:571-659 | The four passes over the pad leave position, step and polar form of every frame. |
| Recognizer.MeasureX | recognizer.c:1049-1282 | The four left-right features are those of the trigger window and of the dominant run. |
| Recognizer.MeasureClosure | recognizer.c:1024-1043 | The closures are the distances between the means of the first and last up to four samples. |
| Recognizer.ExtractMotion | recognizer.c:561-1282 | All features but the peaks are the specified functions of the contact, independent of what the pad held. |
| Recognizer.HistogramsOf | recognizer.c:1285-1325 | Both histogram arrays are filled from the pad alone and are histograms of the contact. |
| Recognizer.MeasureContact | recognizer.c:558-1329 | Features and histograms after filtering are what the specification remembers of the contact. |
| Recognizer.Recognizer.constructor | initialization.c:30-47 | Starts empty, with the memory of the zeroed features. |
| Recognizer.Recognizer.Clear | recognizer.c:35-39 | Empties the history and keeps everything the next classification depends on. |
| Recognizer.Recognizer.Push | recognizer.c:93-102 | Appends the sample to the contact; the assertion on the history size is a precondition that every caller meets. |
| Recognizer.Recognizer.Filter | recognizer.c:548-1329 | Replaces the memory by that of the contact, except for an empty or full history, which changes nothing. |
| Recognizer.Recognizer.ClassifyGesture | recognizer.c:105-545 | Answers from the memory only, records the answer, and leaves the memory as it was. |
| Contacts.DecisionWithoutFall | recognizer.c:404-537 | Exact conditions for DOWN, RIGHT and LEFT on feature vectors without falling frames. |
| Contacts.StrokeDecision | recognizer.c:404-537 | The tree on features without any vertical trend: flick, edge, sweep, and a slow branch told apart by length, peak and closure. |
| Contacts.RightByPeak | recognizer.c:404-537 | A rightward stroke at constant Y is RIGHT beyond X = 264 or with a sweep of 99; its slow branch depends on the peak only through its value. |
| Contacts.LeftByPeak | recognizer.c:404-537 | A leftward stroke at constant Y is LEFT with a sweep of 66, else RIGHT beyond X = 264, else as the slow branch says. |
| Contacts.HorizontalStep | recognizer.c:619-657 | A horizontal step counts with its own length when longer than 5, in bin 0 to the right and in bin 8 to the left. |
| Contacts.OneBin | recognizer.c:1297-1301 | When all steps of any length fall in one bin, it holds the whole path and the others nothing. |
| Contacts.StrokePeak | recognizer.c:246-309 | The peak of a stroke in one direction is the sum of its steps longer than 5. |
| Contacts.RiseFeatures | recognizer.c:1049-1282 | For X that never decreases: the run ends at the last X and covers the displacement; the trigger test is a test on windows. |
| Contacts.FallFeatures | recognizer.c:1049-1282 | For X that never increases: the run ends at the last X and covers the displacement; the trigger test is a test on windows. |
| Contacts.RightStroke | recognizer.c:404-537 | At constant Y and non-decreasing X the answer on the samples: RIGHT if the last X > 264 or some X[k+3] - X[k] >= 99 with k >= 1; else up to eight frames TAP below 40 units of steps longer than 5 and LEFT from there; else TAP when the ends are within 46.5 and UP beyond. |
| Contacts.RightwardReadsLeft | recognizer.c:446-460 | A rightward stroke is answered LEFT if and only if it has at most eight frames, ends by X = 264, has no sweep of 99, and its steps longer than 5 add up to 40 or more. |
| Contacts.TwentiesReadLeft | recognizer.c:446-460 | Five frames at X = 0, 20, 40, 60, 80 and constant Y are answered LEFT. |
| Contacts.LeftStroke | recognizer.c:404-537 | At constant Y and non-increasing X the answer on the samples: LEFT if some X[k] - X[k+3] >= 66 with k >= 1; else RIGHT if the last X > 264; else as for the slow rightward stroke. |
| Contacts.RiseLeavesFallEmpty | recognizer.c:664-733 | When Y never decreases, the down count, the down distance and the down code are 0. |
| Contacts.RisePeakAngle | recognizer.c:246-274 | When Y never decreases the peak lies in the upper half turn, so the peak angle never asks for DOWN. |
| Contacts.RiseIsDown | recognizer.c:404-537 | When Y never decreases, DOWN is answered if and only if the first strongest three-step window goes left by 66 or more and the Y closure exceeds 430.75. |
| Contacts.StillPeak | recognizer.c:246-254 | A finger that does not move leaves every raw bin empty. |
| Contacts.StillContact | recognizer.c:404-537 | A finger that does not move is TAP when X <= 264 and RIGHT otherwise, whatever its width and pressure do. |
| Strokes.LiftAnswers | process.c:101-169 | The gesture emitted on the lift is what the contact is recognized as, whatever was classified before it. |
| Strokes.RightStrokeEmits | recognizer.c:404-537 | From the sensor to the gesture: for 4 to 44 frames at constant Y and non-decreasing X the emitted gesture is the function of the samples that RightStroke gives. |
| Strokes.RightwardEmitsLeft | recognizer.c:446-460 | Such a contact emits LEFT if and only if it is short and coarse, has no sweep of 99, and ends by X = 264. |
| Strokes.LeftStrokeEmits | recognizer.c:404-537 | For non-increasing X the emitted gesture is the function of the samples that LeftStroke gives; never DOWN. |
| Strokes.RiseEmitsDown | recognizer.c:404-537 | With Y never decreasing DOWN is emitted if and only if the strongest window goes left by 66 or more and the ends lie more than 430.75 apart in Y; never when X does not move left. |
| Strokes.StillContactEmits | recognizer.c:404-537 | A still finger emits TAP up to X = 264 and RIGHT beyond. |
| Verdicts.GlideIsPole | recognizer.c:571-574 | The smoothed Y and width are the averages of each sample with the path before it. |
| Verdicts.TipIsTip | recognizer.c:587-591 | The tip is the smoothed Y plus a thirtieth of the sensor per unit of smoothed width. |
| Verdicts.TrendIsReading | recognizer.c:679-709 | A frame is falling exactly when the path goes down and the tip by more than 10, and rising likewise. |
| Verdicts.TalliesAreReadings | recognizer.c:664-709 | The down counter, the down distance and the up distance are the falls and the sums of drops and rises read off the path. |
| Verdicts.LateIsLocation | recognizer.c:712-748 | The down location exceeds 0.75 exactly when at least four frames fall and half of them are not reached by three quarters of the contact. |
| Verdicts.WindowIsTrigger | recognizer.c:1049-1071 | The first three-step displacement of greatest size is the trigger. |
| Verdicts.LrHasWindow | recognizer.c:1049-1071 | Three times LRVelTrig is the first three-step displacement of greatest size. |
| Verdicts.LrIsLongest | recognizer.c:1274-1282 | LRMaxEX is X at the end of a one-way stretch of LRindexE steps that covers LRMaxTrend; none covers more, of those that cover as much none goes left when this one goes right, and none in the same direction ends later. |
| Verdicts.LongestIsLr | recognizer.c:1274-1282 | Any stretch with these properties ends at LRMaxEX and covers LRMaxTrend. |
| Verdicts.GapIsClosure | recognizer.c:1024-1043 | The closures of any contact are the distances between the means of its first and last up to four samples, written out for 3, up to 5, up to 7 and more frames. |
| Verdicts.SectorIsRaw | recognizer.c:1297-1316 | A raw bin is the total length of the steps longer than 5 whose direction lies in that sector of 20 degrees. |
| Verdicts.PeakIsArgMax | recognizer.c:246-254 | The peak is the first sector of greatest total. |
| Verdicts.PeakReadings | recognizer.c:246-309 | angleMagMax is the total of that sector, the peak angle names it, and tapPeak is the total of the five sectors opposite to it. |
| Verdicts.TreeIsVerdict | recognizer.c:404-537 | On features that say what the reading says, the tree decides as the verdict, written out in whole units of X, with thirds gone. |
| Verdicts.ReadingExists | recognizer.c:548-1325 | Every contact of at least three frames has a reading. |
| Verdicts.AnswerIsVerdict | recognizer.c:105-1325 | Every contact of at least three frames is answered with the verdict on its reading. |
| Verticals.StraightFall | recognizer.c:404-537 | With constant X, width and sensor height and Y never increasing, the answer is told from the drops of the path s(i) = (s(i-1) + Y(i)) / 2: DOWN for drops of more than 10 that add up to 123.859314, UP when half of them come late, and what slower falls and falls beyond X = 264 are. |
| Verticals.StraightRise | recognizer.c:404-537 | The mirror: UP for climbs of more than 10 that add up to more than 60.125, RIGHT beyond X = 264, and what slower rises are. |
| Verticals.LevelStroke | recognizer.c:404-537 | At constant Y, X moving and turning in any way: LEFT for a strongest window of 66 to the left, else RIGHT when the longest one-way stretch ends beyond X = 264 or the window is 99, else by length and coarseness. |
| Verticals.VerdictEmits | recognizer.c:404-537 | Any contact of 4 to 44 frames emits the verdict on its reading, on the lift. |
| Verticals.FallEmits | recognizer.c:404-537 | A straight fall of 4 to 44 frames emits what StraightFall says. |
| Verticals.RiseEmits | recognizer.c:404-537 | A straight rise of 4 to 44 frames emits what StraightRise says. |
| Verticals.LevelEmits | recognizer.c:404-537 | A stroke of 4 to 44 frames at constant height emits what LevelStroke says. |
| Verticals.HundredsFall | recognizer.c:426-433 | Five frames at Y = 400, 300, 200, 100, 0 are answered DOWN. |
| Verticals.HundredsRise | recognizer.c:485-502 | Five frames at Y = 0, 100, 200, 300, 400 are answered UP. |
| Verticals.LateFallIsUp | recognizer.c:426-437 | Twenty frames of which the last four go down by 100 each are answered UP. |
| Verticals.TurnBackIsRight | recognizer.c:505-512 | Four frames at X = 240, 255, 270, 255 are answered RIGHT. |
| Ballistics.TransformIsOdd | ballistics.c:41-63 | The acceleration curve treats both directions alike. |
| Ballistics.WarpPeaksAtVmax | ballistics.c:21-39 | The warp is greatest at the greatest velocity, so the ratio of the two never exceeds 1. |
| Ballistics.CurveWithinGain | ballistics.c:49-60 | The scaled velocity is at most gain times the velocity, on both sides of the cap. |
| Ballistics.TransformWithinGain | ballistics.c:41-63 | For 0 < precision <= 1 the output is at most gain times the input. |
| Ballistics.FullGainAtCap | ballistics.c:49-60 | At the cap the output is exactly gain times the velocity, in both directions. |
| Ballistics.NormalSpan | ballistics.c:68-94 | The interval between the bounds maps to two units, and opposite velocities to opposite ones. |
| Ballistics.PointerFollows | process.c:240-255 | Under the daemon's settings each pointer axis turns around with its own finger axis and stays within its own gain. |
| PointerMotion.CurveIsCursor | ballistics.c:41-63 | On the daemon's settings the curve is gain * u times the share 1 + tanh(u / 0.1 - 1), or 1 beyond 0.5, over that share at 0.5. |
| PointerMotion.PointerMoves | process.c:210-255 | Every finger-on frame after the 46th moves the cursor by that curve of three steps of the finger, each axis on its own. |
| PointerMotion.CursorFollows | ballistics.c:41-63 | The cursor goes the way of the finger, stands when it stands, and moves by at most the gain. |
| PointerMotion.CursorGrows | ballistics.c:21-63 | On either side of the cap a faster finger moves the cursor at least as far. |
| PointerMotion.CursorDropsPastCap | ballistics.c:26-36 | Across the cap a faster finger moves the cursor less if and only if it is not faster by the share that it loses. |
| PointerMotion.FasterButLess | ballistics.c:26-36 | A velocity of 0.9 moves the cursor less than one of 0.5. |
| PointerMotion.PointerFollowsFinger | process.c:210-255 | A finger-on frame is a pointer frame exactly after the 46th, and then each axis of its motion has the sign of f[n-2] - f[n-5] and is at most 4000 and 5000 times 2/280 of a fifteenth of it. |
| PointerMotion.PointerReports | event_handler.c:306-332 | In normal mode a pointer frame sends X and Y as tenths rounded toward zero: X the way of the finger, Y against it, at most 4 and 5 in 21 of its steps. |
| PointerMotion.OneAxis | event_handler.c:306-332 | A finger that keeps its height sends no motion in Y, and one that keeps its X none in X. |
| Touch.SeedDelays | process.c:178-196 | Seeding from the end of the history and the last sample gives the last five points of the first 46 frames. |
| Touch.DelayShifts | process.c:210-232 | Shifting keeps the last five points, and the loop over three differences is (f[n-1] - f[n-4]) / 15. |
| Touch.TouchMachine.constructor | initialization.c:30-47 | Starts idle, with no contact. |
| Touch.TouchMachine.SeedLookAhead | process.c:178-195 | The buffer holds the last four history points and the last sample; too short a history leaves the origin. |
| Touch.TouchMachine.ShiftLookAhead | process.c:210-217 | In place, the buffer drops its first point and gains the new one at the end. |
| Touch.TouchMachine.RawVelocity | process.c:222-232 | The mean of the three oldest steps, scaled by 0.2, is the velocity off the line's first and fourth point. |
| Touch.TouchMachine.WaitForTouch | process.c:50-66 | From idle, a finger on the sensor starts a contact of one frame; nothing else does. |
| Touch.TouchMachine.Collect | process.c:78-89 | Appends while the history has room, else times out; counts the frame either way. |
| Touch.TouchMachine.DebounceTouch | process.c:68-99 | A finger-on frame extends the contact, a lift ends it silently, other readings change nothing. |
| Touch.TouchMachine.MonitorTapNSwipe | process.c:112-135 | A finger-on frame extends the contact, and the time-out is never reported. |
| Touch.TouchMachine.MonitorSwipe | process.c:146-169 | A finger-on frame extends the contact, up to the frame that starts the pointer. |
| Touch.TouchMachine.Lift | process.c:103-109 | A lift filters a contact of fewer than 45 frames, keeps the old memory at 45, and answers from it. |
| Touch.TouchMachine.StartPointer | process.c:171-197 | After seeding, the delay line is the delay line of the contact. |
| Touch.TouchMachine.RunBallistics | process.c:201-261 | A finger-on frame shifts the line and reports its velocity; a lift ends the contact with one more pointer output. |
| Touch.TouchMachine.DrivePointer | process.c:171-261 | Both pointer states together extend the contact and report the velocity three steps of it define. |
| Touch.TouchMachine.Process | process.c:33-276 | One call takes the specified step: mode, counters, history and delay line are functions of the finger-on frames so far, and so are gesture and motion. |
| TouchRuns.EmitsOnly | process.c:49-272 | No run emits TAPHOLD, TIMEDOUT or PROCESSING_COMPLETE. |
| TouchRuns.RunsCompose | process.c:33-276 | A run over two pieces is the run over the second from where the first ended, state and outputs. |
| TouchRuns.HoldingAccumulates | process.c:75-220 | While the finger is not lifted, other readings than 0 and 1 are stutter steps, and one pointer output comes per finger-on frame after the 46th. |
| TouchRuns.WholeContact | process.c:49-266 | From idle, n finger-on frames and a lift give nothing for n <= 3, one gesture on the lift for 4 <= n <= 45, and n - 45 pointer outputs beyond. |
| TouchRuns.MemoryIsLastAnswer | process.c:101-168 | Over every run of contacts, the recognizer's memory answers with the last swipe or tap that was emitted. |
| TouchRuns.FullHistoryRepeats | recognizer.c:553-556 | After any run that ends idle, a contact of exactly 45 frames emits the last swipe or tap emitted before it, whatever short, pointer or other 45-frame contacts came in between. |
| TouchRuns.FullHistoryFirst | recognizer.c:552-556 | From the start, after any run that ends idle, a contact of 45 frames emits the last swipe or tap of the run, and TAP when there was none. |
| TouchRuns.SettledStep | process.c:210-232 | Each reported velocity moves the settled position of the path by exactly fifteen times itself. |
| TouchRuns.VelocitiesTelescope | process.c:171-235 | Over any stretch with the finger down, 15 times the sum of the velocities is the displacement of the delayed path, counted from frames 43 to 45. |
| GestureLog.SlotsApart | statemachine.c:75-83 | Gestures fewer than 20 apart never share a ring slot. |
| GestureLog.IndexNext | statemachine.c:75-83 | The write index of an unbounded log is the index with the late wrap at 20. |
| GestureLog.SlotBefore | statemachine.c:113-133 | The wrapped predecessor of the write index, or of a slot, is the slot of the gesture before it. |
| GestureLog.GestureHistory.constructor | statemachine.c:61-62 | Starts with an empty log in MODE_NORMAL. |
| GestureLog.GestureHistory.Push | statemachine.c:66-86 | The 20-slot ring with its overflow flag stands for an unbounded log that gains every gesture but NONE. |
| GestureLog.GestureHistory.SwitchTo | statemachine.c:89-97 | Sets the mode and leaves the log alone. |
| GestureLog.GestureHistory.IsDoubleTap | statemachine.c:110-149 | The ring answers 1 if and only if the last two gestures of the unbounded log are taps less than 0.7 s apart; stale slots are never consulted. |
| GestureLog.GestureHistory.CheckAndSwitchMode | statemachine.c:154-217 | Flips the mode and empties the log exactly when the log ends in two taps and any gesture within half a second and the mode is not MODE_NONE. |
| Daemon.ConvertIsTenth | event_handler.c:201-214 | Distances become a tenth rounded toward zero, the same in both directions. |
| Daemon.Daemon.constructor | statemachine.c:61-62 | Starts idle in MODE_NORMAL with an empty log and no output, over a touch machine, a history and buffers of its own. |
| Daemon.Daemon.SendGesture | event_handler.c:220-336 | Appends the events of the mask, always ending in a report; a tap arms the click exactly for a double tap. |
| Daemon.Daemon.ActOn | statemachine.c:230-346 | Appends what the mode makes of the gesture, and nothing in MODE_NONE. |
| Daemon.Daemon.StateMachineProcess | statemachine.c:221-350 | Logs, then switches, then acts in the mode that now holds. |
| Daemon.Daemon.ProcessFrame | event_handler.c:438-505 | Touch machine, log, mode, pending click and output all take the specified step; without motion the uninitialised record is what reaches the pointer events. |
| Daemon.Daemon.Dispatch | event_handler.c:388-507 | One turn of the event loop, on frames, time-outs, interruptions, unreadable input or a mode set from outside, takes the specified step. |
| DaemonRuns.RunsJoin | event_handler.c:388-507 | A run over two pieces is the run over the second from where the first ended. |
| DaemonRuns.SwitchesCostThree | statemachine.c:154-217 | Over every run, three times the switches plus the remaining log is at most the gestures logged. |
| DaemonRuns.ModeIsParity | statemachine.c:164-196 | Without a set from outside the mode is the parity of the switches, and gestures never leave MODE_NONE. |
| DaemonRuns.PendingTriggerFromNone | statemachine.c:164-168 | Over every run, a trigger left standing in the log had its last gesture logged in MODE_NONE. |
| DaemonRuns.QuietFrameKeepsMode | statemachine.c:66-226 | After any run, a frame without a gesture changes the mode if and only if a trigger stands in the log and the mode is not MODE_NONE, and that trigger came from MODE_NONE. |
| DaemonRuns.PendingTriggerFires | statemachine.c:154-217 | Whenever a trigger stands in the log in MODE_NONE, setting the daemon back to normal makes the next quiet frame switch the mode. |
| DaemonRuns.ArmedMeansDue | event_handler.c:388-406 | Over every run the flag is set if and only if the last input that concerned the device accepted a double tap. |
| DaemonRuns.OnlyTimeoutsClick | event_handler.c:399-406 | A mouse button event comes out of a step if and only if it is a poll time-out with the flag set. |
| DaemonRuns.ClickExactlyWhenDue | event_handler.c:285-406 | After any run, a click is sent if and only if a time-out follows an accepted double tap with no device event in between. |
| DaemonRuns.ClicksNeedDoubleTaps | event_handler.c:285-406 | Over every run there are at most as many clicks as accepted double taps. |
| DaemonRuns.SentKeepsBalance | event_handler.c:229-335 | Every mask but TAPHOLD releases what it presses and ends in a report. |
| DaemonRuns.OutputStaysBalanced | event_handler.c:220-336 | Over every run, between steps no key is held and the stream is empty or ends in a report. |
| DaemonRuns.TapHoldWouldHold | event_handler.c:297-305 | A dispatch leaves the stream unbalanced if and only if it is a TAPHOLD in MODE_NORMAL. |
| DaemonRuns.FrameEventsFitMode | statemachine.c:230-346 | A frame sends volume keys only in MODE_VOLUME, arrows and motion only in MODE_NORMAL, and nothing in MODE_NONE. |
| DaemonRuns.ClickEscapesModeNone | event_handler.c:399-406 | Whenever a click is pending, it is sent on the next time-out even if the mode has been set to MODE_NONE. |
| DaemonRuns.EventLoop | event_handler.c:542-543 | The event loop of any valid daemon object takes the specified run of its inputs. |
| DaemonRuns.Serve | event_handler.c:539-543 | A daemon object that has just been set up takes the run from the start, with its own recognizer and ballistics as kernels. |
| TapsToClicks.HoldingIsSilent | process.c:75-168 | With no switch pending, up to 46 finger-on frames change nothing but the contact. |
| TapsToClicks.StillTapIsLogged | statemachine.c:221-266 | Holding still for 4 to 44 frames and lifting logs one TAP, which switches the mode, arms a click, or does neither, as the log decides. |
| TapsToClicks.StillContactAnswersTap | recognizer.c:404-537 | The touch machine answers a still contact left of X = 264 with TAP. |
| TapsToClicks.StillTapWhileOff | statemachine.c:164-168 | In MODE_NONE a still tap is logged and nothing else happens. |
| TapsToClicks.DoubleTapArms | event_handler.c:285-289 | Two still taps less than 0.7 s apart arm a click and send two empty reports. |
| TapsToClicks.DoubleTapClicks | event_handler.c:285-406 | Two still taps less than 0.7 s apart and then a time-out give exactly one press and release of the mouse button. |
| TapsToClicks.TripleTapSwitches | statemachine.c:154-217 | Three still taps within half a second switch to MODE_VOLUME, empty the log, and leave no click behind. |
| TapsToClicks.TapsWhileOff | statemachine.c:164-186 | Three still taps within half a second in MODE_NONE leave a trigger in the log. |
| TapsToClicks.TapsWhileOffSwitchLater | statemachine.c:154-217 | From the start: set to MODE_NONE, three still taps within half a second, set to MODE_NORMAL, and a quiet frame give MODE_VOLUME. |
| TapsToClicks.DoubleTapClicksAfterOff | event_handler.c:388-406 | From the start: two still taps less than 0.7 s apart, set to MODE_NONE, and a time-out give a click. |
| ContactsToKeys.LogEnds | statemachine.c:110-217 | A double tap is two taps less than 700000 clocks apart, a trigger two taps and a gesture less than 500000 clocks after the first. |
| ContactsToKeys.FrameSends | event_handler.c:229-336 | Right, Left, Up and Down press and release their arrow in normal mode; Up and Down the volume keys in volume mode; a tap sends a report in normal mode; nothing else is sent. |
| ContactsToKeys.PointerSends | statemachine.c:294-346 | Outside normal mode a pointer sends nothing. |
| ContactsToKeys.SetModeSets | statemachine.c:89-97 | A mode set from outside is 0, 1 or 2 for none, normal and volume, changes nothing else, and does nothing for other numbers. |
| ContactsToKeys.LiftActs | statemachine.c:221-350 | A lift logs the answer, switches the mode when that completes a trigger, sends the keys in the mode that then holds, and arms a click for two taps. |
| ContactsToKeys.HoldingDisarms | event_handler.c:388-412 | Holding a finger leaves log, mode and output as they were, with no click pending. |
| ContactsToKeys.ContactActs | event_handler.c:388-507 | Any contact of 4 to 44 frames, from any idle state without a standing trigger, makes the daemon act on its answer once, at the lift. |
| ContactsToKeys.VerdictActs | event_handler.c:388-507 | That answer is the verdict on the samples. |
| ContactsToKeys.ContactSends | event_handler.c:220-336 | In normal mode with fewer than two gestures logged, a contact sends the keys of its answer and nothing else. |
| ContactsToKeys.RightwardPressesRight | event_handler.c:251-258 | From the samples: a rightward stroke beyond X = 264 or with 99 in some three steps sends the right key, once. |
| ContactsToKeys.LeftwardPressesLeft | event_handler.c:259-267 | A leftward stroke with 66 in some three steps sends the left key, once. |
| ContactsToKeys.FallPressesDown | event_handler.c:268-276 | A deep straight fall sends the down key, or the up key when half of its drops come late. |
| ContactsToKeys.RisePressesUp | event_handler.c:277-284 | A high straight rise sends the up key. |
| ContactsToKeys.TwoTapsClickOrNot | statemachine.c:135-147 | Two still taps and a time-out click the mouse button if and only if less than 700000 clocks lie between their lifts. |
| ContactsToKeys.ThirdSwitchesOrNot | statemachine.c:180-196 | Two still taps and any third gesture switch between normal and volume mode if and only if it comes less than 500000 clocks after the first; it is acted on in the mode that then holds, and arms a click exactly as a second tap would. |
| ContactsToKeys.LogIsEnd | statemachine.c:66-217 | Over every run the log is an end of the sequence of all gestures emitted with their times. |
| ContactsToKeys.PendingNeedsTwoTaps | statemachine.c:110-149 | Over every run a click is pending only when the last two gestures emitted are taps less than 700000 clocks apart. |
| ContactsToKeys.SwitchNeedsTrigger | statemachine.c:154-217 | Over every run a frame changes the mode only when the last three gestures emitted, its own included, are two taps and a gesture less than 500000 clocks after the first. |
| Mesh.TurnedIsCut | UnipointDemo/src/com/intel/umse/demo/GLFace.java:59-63 | Up to a full circle, turning the list cuts it: the cyclic order is kept. |
| Mesh.TurnedKeepsElements | UnipointDemo/src/com/intel/umse/demo/GLFace.java:59-63 | Turning never adds or loses a vertex. |
| Mesh.TurnedFrom | UnipointDemo/src/com/intel/umse/demo/GLFace.java:59-63 | Every element of a turned list has been in the list before. |
| Mesh.TurningStopsIffBare | UnipointDemo/src/com/intel/umse/demo/GLFace.java:58-64 | On the vertices of a face as they are coloured: the rotation loop ends if and only if one of them has no colour. |
| Mesh.PaintedFacesFit | UnipointDemo/src/com/intel/umse/demo/GLFace.java:49-70 | Painted faces over a set of vertices are never more than the vertices. |
| Mesh.PaintInOrder | UnipointDemo/src/com/intel/umse/demo/GLFace.java:49-70 | Painting any list of faces in order goes on to the end or stops at a face whose colouring would not return; with more faces than vertices it always stops. |
| Mesh.OctahedronGetsStuck | UnipointDemo/src/com/intel/umse/demo/GLFace.java:49-70 | The eight faces of an octahedron, over six vertices, cannot all be painted. |
| Mesh.GLFace.TurnToBare | UnipointDemo/src/com/intel/umse/demo/GLFace.java:58-64 | The list is cut behind its last uncoloured vertex, which becomes the last one. |
| Mesh.GLFace.SetColor | UnipointDemo/src/com/intel/umse/demo/GLFace.java:49-70 | The face takes the colour; with three vertices or more its last vertex does too and no other vertex changes; a repaint does not turn. |
| Mesh.PaintFace | UnipointDemo/src/com/intel/umse/demo/GLFace.java:49-70 | Over faces that share vertices: painted faces keep pairwise distinct last vertices carrying their own colours, and no other face changes; when every face has a last vertex of its own, no list is ever turned, so no order of painting gets stuck. |
| Mesh.CubeEndsDiffer | UnipointDemo/src/com/intel/umse/demo/Cube.java:34-45 | The six faces of a cube end in six different corners. |
| Mesh.CubeFaces | UnipointDemo/src/com/intel/umse/demo/Cube.java:34-45 | A fresh cube is settled, so it can be painted in any order. |
| MeshWorld.ShortsAreDistinct | UnipointDemo/src/com/intel/umse/demo/GLVertex.java:36-41 | Up to 65536 vertices keep distinct indices after the cast to short; up to 32768 keep their number. |
| MeshWorld.TrianglesEndInLast | UnipointDemo/src/com/intel/umse/demo/GLFace.java:76-90 | Triangle j of a face joins vertices j and j+1 with the last vertex. |
| MeshWorld.FaceCount | UnipointDemo/src/com/intel/umse/demo/GLFace.java:72-74 | The index count a face reports is the number of indices it puts. |
| MeshWorld.PaintedTriangles | UnipointDemo/src/com/intel/umse/demo/GLFace.java:76-90 | Every triangle of a painted face ends in the vertex that carries the colour of that face. |
| MeshWorld.CountsAgree | UnipointDemo/src/com/intel/umse/demo/GLShape.java:37-53 | Over any list of faces, reported and put indices agree in number. |
| MeshWorld.CellCounts | UnipointDemo/src/com/intel/umse/demo/GLVertex.java:56-71 | Vertices put three position cells and four colour cells each. |
| MeshWorld.Buffer.Put | UnipointDemo/src/com/intel/umse/demo/GLWorld.java:36-46 | A put appends below the limit and fails, changing nothing, at the limit. |
| MeshWorld.PutFace | UnipointDemo/src/com/intel/umse/demo/GLFace.java:76-90 | Appends the triangles of the face, and overflows exactly when they do not fit. |
| MeshWorld.GLShape.AddFace | UnipointDemo/src/com/intel/umse/demo/GLShape.java:29-31 | Appends the face. |
| MeshWorld.GLShape.SetFaceColor | UnipointDemo/src/com/intel/umse/demo/GLShape.java:33-35 | Painting one face by number keeps every painted face of every shape well painted. |
| MeshWorld.GLShape.AddVertex | UnipointDemo/src/com/intel/umse/demo/GLShape.java:55-70 | Returns the shape's vertex at the place if there is one, changing nothing; else a fresh one is added to shape and world; no place is ever held twice. |
| MeshWorld.GLShape.GetIndexCount | UnipointDemo/src/com/intel/umse/demo/GLShape.java:45-53 | The loop adds up the counts of all faces. |
| MeshWorld.PutNext | UnipointDemo/src/com/intel/umse/demo/GLShape.java:37-43 | One face more: either its indices are appended or the buffer has no room for all faces. |
| MeshWorld.GLShape.PutIndices | UnipointDemo/src/com/intel/umse/demo/GLShape.java:37-43 | Appends the indices of all faces in order, and overflows exactly when they do not fit. |
| MeshWorld.ListsStay | UnipointDemo/src/com/intel/umse/demo/GLWorld.java:48-58 | Filling buffers leaves the vertex lists of all faces as they are. |
| MeshWorld.GLWorld.AddVertex | UnipointDemo/src/com/intel/umse/demo/GLWorld.java:61-65 | Appends a fresh, uncoloured vertex whose index is its position. |
| MeshWorld.GLWorld.AddShape | UnipointDemo/src/com/intel/umse/demo/GLWorld.java:30-33 | Appends the shape and adds the index count it has at that moment. |
| MeshWorld.GLWorld.PutVertices | UnipointDemo/src/com/intel/umse/demo/GLWorld.java:48-52 | Fills the position and the colour buffer exactly, in vertex order. |
| MeshWorld.GLWorld.PutShapes | UnipointDemo/src/com/intel/umse/demo/GLWorld.java:54-58 | Appends the indices of every shape in order, and overflows exactly when they exceed the buffer. |
| MeshWorld.GLWorld.Generate | UnipointDemo/src/com/intel/umse/demo/GLWorld.java:35-59 | Positions and colours are filled exactly; the index buffer overflows if and only if the shapes have more indices now than when they were added. |
| MeshWorld.PutVertex | UnipointDemo/src/com/intel/umse/demo/GLVertex.java:56-71 | Appends the fixed-point position and the colour, or four zeros for a vertex without one. |
| Kube.CornersDiffer | UnipointDemo/src/com/intel/umse/demo/Cube.java:24-31 | The eight corners of a box with extent in every direction are in eight places. |
| Kube.AddCorner | UnipointDemo/src/com/intel/umse/demo/GLShape.java:55-70 | A corner at a new place takes a new, uncoloured vertex, keeps the others, and keeps every vertex of the world at the place its index names. |
| Kube.AddCorners | UnipointDemo/src/com/intel/umse/demo/Cube.java:24-31 | The eight calls give eight distinct fresh uncoloured vertices in the order the faces rely on. |
| Kube.NewFaces | UnipointDemo/src/com/intel/umse/demo/Cube.java:34-45 | Six distinct settled faces of four of those corners each. |
| Kube.NewCube | UnipointDemo/src/com/intel/umse/demo/Cube.java:22-47 | A new cube is six distinct settled faces, each at its side of the box, over eight vertices of its own, which join the world at the places their indices name. |
| Kube.SettledJoin | UnipointDemo/src/com/intel/umse/demo/GLFace.java:49-70 | Sets of settled faces whose last vertices differ are settled together. |
| Kube.AppendCube | UnipointDemo/src/com/intel/umse/demo/Kube.java:55-90 | One more cube keeps the puzzle settled, because it brings its own vertices. |
| Kube.BuildCubes | UnipointDemo/src/com/intel/umse/demo/Kube.java:55-90 | All 26 cubes stand, every side at its place, the core is left out, and no face or last vertex is shared. |
| Kube.PaintSide | UnipointDemo/src/com/intel/umse/demo/Kube.java:99-122 | Painting one side of one cube changes that side's paint only, and ends. |
| Kube.PaintAllBlack | UnipointDemo/src/com/intel/umse/demo/Kube.java:95-101 | Every side of every cube is black, and the missing core is never touched. |
| Kube.PaintRange | UnipointDemo/src/com/intel/umse/demo/Kube.java:104-108 | The side changes for exactly the cubes of the range. |
| Kube.PaintColumn | UnipointDemo/src/com/intel/umse/demo/Kube.java:110-114 | The side changes for exactly every third cube. |
| Kube.PaintRows | UnipointDemo/src/com/intel/umse/demo/Kube.java:116-122 | The side changes for exactly three cubes in every nine. |
| Kube.OutsideByNumber | UnipointDemo/src/com/intel/umse/demo/Kube.java:55-90 | The index ranges of the painting loops are the cubes whose side lies on the outside of the puzzle. |
| Kube.PaintPuzzle | UnipointDemo/src/com/intel/umse/demo/Kube.java:92-122 | After all loops every outer side shows its colour, everything inside is black, and the missing core was never painted. |
| Kube.AddCube | UnipointDemo/src/com/intel/umse/demo/GLWorld.java:30-33 | A world that counts what its shapes put still does with one more cube, 36 indices later. |
| Kube.AddCubes | UnipointDemo/src/com/intel/umse/demo/Kube.java:124-126 | The world holds the 26 cubes in order and counts 936 indices. |
| Kube.Render | UnipointDemo/src/com/intel/umse/demo/GLWorld.java:35-59 | A world that counts what its shapes put fills all three buffers exactly, without overflow, with the positions and colours of its vertices and the indices of its shapes. |
| Kube.QuadIndicesAt | UnipointDemo/src/com/intel/umse/demo/GLFace.java:76-90 | Face number q of four corners puts its six indices at 6q. |
| Kube.CubeListAt | UnipointDemo/src/com/intel/umse/demo/GLShape.java:37-43 | Face s of cube i is face number 6i + s of the world. |
| Kube.ColorsAt | UnipointDemo/src/com/intel/umse/demo/GLVertex.java:56-71 | Colour cell 4i + c holds channel c of vertex i. |
| Kube.TriangleOfSide | UnipointDemo/src/com/intel/umse/demo/GLFace.java:76-90 | The indices of each triangle of a side are those of two neighbours and of the last vertex of that side. |
| Kube.FacesStand | UnipointDemo/src/com/intel/umse/demo/Cube.java:24-45 | The vertices of each face stand at the corners of its side of the box, in order. |
| Kube.PositionsAt | UnipointDemo/src/com/intel/umse/demo/GLVertex.java:56-59 | Position cells 3i, 3i + 1 and 3i + 2 hold x, y and z of vertex i in fixed point. |
| Kube.TriangleStands | UnipointDemo/src/com/intel/umse/demo/GLWorld.java:48-58 | Each index of each triangle of a side points at position cells that hold the corner of that side of its box. |
| Kube.IndexShowsPaint | UnipointDemo/src/com/intel/umse/demo/GLVertex.java:56-71 | The colour cells that a vertex's index points at hold the paint of that vertex. |
| Kube.TriangleShowsSide | UnipointDemo/src/com/intel/umse/demo/GLWorld.java:48-58 | Both triangles of a side end in a vertex whose four colour cells hold the colour of that side. |
| Kube.FurnishedWorld | UnipointDemo/src/com/intel/umse/demo/Kube.java:33-126 | Before rendering, the world holds the painted puzzle and counts the indices it will put. |
| Kube.MakeWorld | UnipointDemo/src/com/intel/umse/demo/Kube.java:33-139 | The finished puzzle renders into buffers that are exactly full, and for every side of every cube both triangles point at position cells of the corners of that side and end at colour cells that show it: its colour on the outside, black inside. |
| KubeGeometry.SideGoesAround | UnipointDemo/src/com/intel/umse/demo/Cube.java:34-45 | The vertices of a face are four corners of the box on its side, and each edge of the face is an edge of the box. |
| KubeGeometry.SideIsClockwise | UnipointDemo/src/com/intel/umse/demo/Cube.java:33-45 | Both triangles of every side are clockwise seen from outside: the vector product of their edges points into the box. |
| KubeGeometry.CubesFromLeft | UnipointDemo/src/com/intel/umse/demo/Kube.java:47-90 | From left to right three cubes span -1 to 1 with gaps of 0.06, and nothing else changes. |
| KubeGeometry.CubesFromBack | UnipointDemo/src/com/intel/umse/demo/Kube.java:47-90 | The same from back to front. |
| KubeGeometry.CubesFromTop | UnipointDemo/src/com/intel/umse/demo/Kube.java:47-90 | The same from top to bottom. |
| KubeGeometry.CubesAreUpright | UnipointDemo/src/com/intel/umse/demo/Kube.java:47-90 | Every box has its low ends below its high ends, so the laws of sides hold for each cube. |
| KubeGeometry.FixedWithin | UnipointDemo/src/com/intel/umse/demo/GLVertex.java:52-54 | A coordinate within range becomes the 65536-fold, rounded toward zero. |
| KubeGeometry.FixedSaturates | UnipointDemo/src/com/intel/umse/demo/GLVertex.java:52-54 | Beyond the range of an int it becomes the end of that range. |
| KubeGeometry.SideCells | UnipointDemo/src/com/intel/umse/demo/Kube.java:39-122 | The red, green, blue and alpha of every side of every cube, in numbers. |
| KubeGeometry.ThirdVertexCells | UnipointDemo/src/com/intel/umse/demo/Kube.java:92-122 | In the finished buffers the third vertex of both triangles of a side has exactly these four cells. |
| Protocol.DigitRunJoin | socketserver.c:167 | Stale bytes that continue a number are read as part of it. |
| Protocol.AtoiReads | socketserver.c:167 | White space, a sign, digits and then something else read as the signed value of the digits. |
| Protocol.ValueJoin | socketserver.c:167 | Each stale digit shifts the number sent by one decimal place. |
| Protocol.JoinedValue | socketserver.c:167 | Stale digits leave a number as it is only when there are none or all digits are zero; behind a zero they are the number; behind anything else they make it at least 10. |
| Protocol.ReadsOn | socketserver.c:127-169 | A number received over an old message is read on into the digits that are left behind it. |
| Protocol.StaleDigitsChangeNumbers | socketserver.c:127-169 | A number received over an old message reads as it was sent if and only if no stale digit follows it, or it and the stale digits are all zero. |
| Protocol.ServerHears | socketserver.c:164-167 | On any buffer, the server reads from a SET the digits sent followed by the digits left behind them. |
| Protocol.SetOutcome | socketserver.c:164-190 | For any buffer and any digits: taken as itself, for another mode, or refused, each with its exact condition on the digits sent and the digits left behind. |
| Protocol.TwelveLingers | socketserver.c:127-190 | After a 12, a SET of 1 is read as 12 and refused, and a SET of 0 is read as 2, accepted, and switches to volume mode. |
| Protocol.ReplyBegins | socketserver.c:172-183 | A reply over a stale buffer begins with its own code, whatever is left behind it. |
| Protocol.RepliesAreNotNotes | libunipoint/socketclient_interface.c:209-224 | The client never takes a reply for a notification, nor a failure for a success. |
| Protocol.DigitReads | libunipoint/socketclient_interface.c:413-425 | A digit followed by nothing or by a NUL reads as itself. |
| Protocol.SocketServer.constructor | socketserver.c:76-77 | Both buffers start cleared. |
| Protocol.SocketServer.CopyInto | socketserver.c:130-146 | Writes over the front of a buffer and keeps the rest. |
| Protocol.SocketServer.StrLen | socketserver.c:157 | The length runs to the first NUL. |
| Protocol.SocketServer.Append | socketserver.c:150-155 | Appends to the string in a cleared buffer and leaves the rest cleared. |
| Protocol.SocketServer.Serve | socketserver.c:127-200 | GET replies with the mode; SET sets a valid mode and replies success, or replies failure and keeps the mode; anything else is ignored; the message overlays the old one. |
| Protocol.SocketServer.SendReply | socketserver.c:157-159 | Sends the buffer up to its first NUL. |
| Protocol.SocketServer.SwitchTo | socketserver.c:233-280 | A switch by gestures sends the notification word followed by the new mode. |
| Protocol.SocketClient.Send | libunipoint/socketclient_interface.c:343-349 | Makes the command the awaited one and forgets the last response. |
| Protocol.SocketClient.ProcessResponse | libunipoint/socketclient_interface.c:400-465 | Mode for a successful GET, 0 for a successful SET, -1 otherwise; without a command nothing is recorded. |
| Protocol.SocketClient.Receive | libunipoint/socketclient_interface.c:196-227 | A notification reaches the listener and keeps the command waiting; anything else answers the command. |
| Protocol.GetMode | socketserver.c:143-163 | On a server with any past, a GET returns the server's mode and changes neither mode nor listener. |
| Protocol.SetMode | socketserver.c:164-190 | On a server with any past, a SET of any digits returns 0 and takes effect if and only if the number heard is a mode, and returns -1 otherwise. |
| Protocol.SwitchMode | libunipoint/socketclient_interface.c:209-219 | A switch by gestures reaches the listener once and leaves the awaited command and its result alone. |
| Protocol.Exchange | socketserver.c:127-206 | One request of any kind has the specified result and leaves the specified mode, buffer and notifications. |
| Protocol.ResultAt | socketserver.c:127-206 | The result of each request follows from the mode and the buffer that the requests before it leave. |
| Protocol.Session | socketserver.c:127-206 | A session of any length, on a server with any past, with switches by gestures in between, has the specified results, mode, buffer and notifications. |
| Protocol.OneDigitKeepsTail | socketserver.c:130 | Requests with one digit never touch what longer messages have left behind. |
| Protocol.OneDigitSession | socketserver.c:127-206 | Unless a digit was left behind before the session, one-digit requests behave as if the buffers were cleared: every GET returns the last valid mode set or switched to, every SET tells whether it was valid. |

## Left out

- Signal.ToPolar: does not model the values of `atan2` and `sqrt`, only what `SoundAngles` and `SoundRoots` state; floating-point rounding and NaN are not modelled.
- GestureLog.GestureHistory.IsDoubleTap: does not say what the bare `return` yields to its caller beyond not being 1, because the language leaves it undefined.
- GestureLog.GestureHistory.CheckAndSwitchMode: does not send the notification of a switch itself (`Protocol.SwitchMode` does), nor model the `statechanged` flag and the gesture counter.
- Protocol.SocketServer.Serve: does not model a message split over several receives, several messages in one, or a failing send; a message arrives whole and at most 100 bytes long.
- Protocol.StaleDigitsChangeNumbers: does not model overflow of `atoi`; numbers are unbounded.
- Protocol.SwitchMode: does not model a notification that arrives in the middle of a request, nor a client that is not connected.
- Protocol.SocketClient.Receive: does not model waiting, time-outs, reconnection and the mutexes; the awaited command is answered by the next response.
- Mesh.PaintInOrder: looks for a bare vertex before each colouring and stops there, where the code would turn the list for ever.
- Mesh.GLFace.SetColor: does not model a null colour argument, which would make a face unpainted again.
- Kube.NewCube: is stated for boxes with extent in every direction, since the demo builds no others; corners of a flat box would merge.
- Kube.MakeWorld: does not model the layers and the permutation, which only the animation uses.
- MeshWorld.Buffer.Put: does not model byte order and cell width of the native buffers; a buffer is a sequence with a limit.
- MeshWorld.GLShape.AddVertex: does not model NaN coordinates, which would never be found again; coordinates are reals.
- Daemon.Daemon.Dispatch: does not model the data race on the mode between the socket thread and the event loop; a mode set from outside is a step of its own. Clock differences are not truncated to an int.
- Features nothing reads: UDVelTrend, the smoothed velocities dXs and dYs, the smoothed Wx, the re-used dXts column, idxWindow, ClassificationPath.
- Code that is compiled out: the custom classifier, the segment search, the velocity triggers and the angles during trends.
- The gesture registers of the sensor, which the touch machine ignores.
- Recording and replay of samples, debug output, device search and permissions.
- uinput, evdev, poll and sockets as system calls; they appear as inputs and as an appended list of events.
- Layer turning, transformation matrices, vertex animation and the renderer of the demo; Android services, activities and the Java binding.
