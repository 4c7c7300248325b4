/** The second half of classifyGesture: the trained decision tree, against the regions it carves out. */
module DecisionTree {
  import opened Unipoint
  import opened Signal
  import opened Slots
  import opened Peaks

  /** The left-right features: the longest run, where it ended, and the trigger velocity. */
  datatype LrFeatures = LrFeatures(indexE: nat, maxEX: int, maxTrend: int, velTrig: real)

  datatype Features = Features(
    lr: LrFeatures, trends: Tallies,
    xClosure: real, yClosure: real,
    slots: SlotFeatures, peaks: PeakFeatures,
    frameCount: nat, classification: Gesture)

  /** Static storage starts out zero. */
  const ZeroFeatures := Features(
    LrFeatures(0, 0, 0, 0.0), Tallies(0, 0, 0, 0, 0.0, 0.0, 0.0), 0.0, 0.0,
    SlotFeatures(0, 0, 0, 0.0, 0.0, 0.0, 0, 0),
    PeakFeatures(0.0, 0.0, 0.0, 0.0, 0.0, 0.0, 0.0, 0.0), 0, NoGesture)

  // ---- the regions ----

  predicate FlickedLeft(f: Features) {
    f.lr.velTrig <= -22.0
  }

  predicate AtRightEdge(f: Features) {
    f.lr.maxEX > 264
  }

  predicate Dropped(f: Features) {
    f.trends.downDist <= -123.859314
  }

  predicate Raised(f: Features) {
    f.trends.upDist > 60.125
  }

  /** Neither a flick, nor at the edge, nor a clear trend up or down. */
  predicate Quiet(f: Features) {
    !FlickedLeft(f) && !AtRightEdge(f) && !Dropped(f) && !Raised(f) && f.lr.velTrig <= 32.666668
  }

  /** At the right edge, falling frames beyond this many make the contact a DOWN. */
  predicate FellAtEdge(f: Features) {
    if f.lr.maxTrend <= 117 then f.trends.down > 2
    else f.lr.maxEX <= 273 && f.trends.down > 6
  }

  predicate GoesLeft(f: Features) {
    || (FlickedLeft(f) && f.peaks.weightedPeakAngle <= 250.0 && f.yClosure <= 430.75)
    || (Quiet(f) && f.frameCount <= 8 && f.peaks.angleMagMax > 39.266991)
  }

  predicate GoesRight(f: Features) {
    && !FlickedLeft(f)
    && (|| (AtRightEdge(f) && !FellAtEdge(f))
        || (!AtRightEdge(f) && Dropped(f) && f.lr.velTrig > 38.666668)
        || (!AtRightEdge(f) && !Dropped(f) && !Raised(f) && f.lr.velTrig > 32.666668))
  }

  predicate GoesDown(f: Features) {
    || (FlickedLeft(f) && (f.peaks.weightedPeakAngle > 250.0 || f.yClosure > 430.75))
    || (!FlickedLeft(f) && AtRightEdge(f) && FellAtEdge(f))
    || (!FlickedLeft(f) && !AtRightEdge(f) && Dropped(f) && f.lr.velTrig <= 38.666668 && f.slots.downLocation <= 0.75)
    || (Quiet(f) && f.frameCount > 8 && f.xClosure > 46.5 && f.slots.downCode > 0)
  }

  predicate GoesUp(f: Features) {
    || (!FlickedLeft(f) && !AtRightEdge(f) && Dropped(f) && f.lr.velTrig <= 38.666668 && f.slots.downLocation > 0.75)
    || (Quiet(f) && f.frameCount > 8 && f.xClosure > 46.5 && f.slots.downCode == 0)
    || (!FlickedLeft(f) && !AtRightEdge(f) && !Dropped(f) && Raised(f) &&
        (f.yClosure > 68.75 || f.peaks.tapPeak <= 0.0))
  }

  predicate GoesTap(f: Features) {
    || (Quiet(f) && f.frameCount <= 8 && f.peaks.angleMagMax <= 39.266991)
    || (Quiet(f) && f.frameCount > 8 && f.xClosure <= 46.5)
    || (!FlickedLeft(f) && !AtRightEdge(f) && !Dropped(f) && Raised(f) && f.yClosure <= 68.75 && f.peaks.tapPeak > 0.0)
  }

  predicate IsSwipeOrTap(g: Gesture) {
    g == Left || g == Right || g == Down || g == Up || g == Tap
  }

  function Decision(f: Features): Gesture {
    if GoesLeft(f) then Left
    else if GoesRight(f) then Right
    else if GoesDown(f) then Down
    else if GoesUp(f) then Up
    else Tap
  }

  /** The five regions cover every feature vector and do not overlap. */
  lemma RegionsPartition(f: Features)
    ensures Decision(f) == Left <==> GoesLeft(f)
    ensures Decision(f) == Right <==> GoesRight(f)
    ensures Decision(f) == Down <==> GoesDown(f)
    ensures Decision(f) == Up <==> GoesUp(f)
    ensures Decision(f) == Tap <==> GoesTap(f)
    ensures IsSwipeOrTap(Decision(f))
  {
    assert Quiet(f) ==> !FlickedLeft(f) && !AtRightEdge(f) && !Dropped(f) && !Raised(f);
  }

  /** The nested tests of the tree; the placeholder result never survives them. */
  method Classify(f: Features) returns (g: Gesture)
    ensures g == Decision(f)
  {
    g := ProcessingComplete;
    if f.lr.velTrig <= -22.0 {
      if f.peaks.weightedPeakAngle <= 250.0 {
        if f.yClosure <= 430.75 {
          g := Left;
        }
        if f.yClosure > 430.75 {
          g := Down;
        }
      }
      if f.peaks.weightedPeakAngle > 250.0 {
        g := Down;
      }
    }
    if f.lr.velTrig > -22.0 {
      if f.lr.maxEX <= 264 {
        if f.trends.downDist <= -123.859314 {
          if f.lr.velTrig <= 38.666668 {
            if f.slots.downLocation <= 0.75 {
              g := Down;
            }
            if f.slots.downLocation > 0.75 {
              g := Up;
            }
          }
          if f.lr.velTrig > 38.666668 {
            g := Right;
          }
        }
        if f.trends.downDist > -123.859314 {
          if f.trends.upDist <= 60.125 {
            if f.lr.velTrig <= 32.666668 {
              if f.frameCount <= 8 {
                if f.peaks.angleMagMax <= 39.266991 {
                  g := Tap;
                }
                if f.peaks.angleMagMax > 39.266991 {
                  g := Left;
                }
              }
              if f.frameCount > 8 {
                if f.xClosure <= 46.5 {
                  g := Tap;
                }
                if f.xClosure > 46.5 {
                  if f.slots.downCode <= 0 {
                    g := Up;
                  }
                  if f.slots.downCode > 0 {
                    g := Down;
                  }
                }
              }
            }
            if f.lr.velTrig > 32.666668 {
              g := Right;
            }
          }
          if f.trends.upDist > 60.125 {
            if f.yClosure <= 68.75 {
              if f.peaks.tapPeak <= 0.0 {
                g := Up;
              }
              if f.peaks.tapPeak > 0.0 {
                g := Tap;
              }
            }
            if f.yClosure > 68.75 {
              g := Up;
            }
          }
        }
      }
      if f.lr.maxEX > 264 {
        if f.lr.maxTrend <= 117 {
          if f.trends.down <= 2 {
            g := Right;
          }
          if f.trends.down > 2 {
            g := Down;
          }
        }
        if f.lr.maxTrend > 117 {
          if f.lr.maxEX <= 273 {
            if f.trends.down <= 6 {
              g := Right;
            }
            if f.trends.down > 6 {
              g := Down;
            }
          }
          if f.lr.maxEX > 273 {
            g := Right;
          }
        }
      }
    }
  }
}
