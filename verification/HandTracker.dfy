/** The tracking machine as the calculators run it: shared predictors are started, stopped
    and queried view by view.  What a call needs of a predictor or of a stored point vector
    is its precondition. */
module HandTracker {
  import opened HandTracking

  /** Set or clear one flag. */
  function Flagged<T>(flags: set<T>, x: T, on: bool): set<T> { if on then flags + {x} else flags - {x} }

  lemma AllViewsFlagged(before: set<View>, after: set<View>)
    requires before <= VIEWS && after <= VIEWS
    ensures var (a, b) := (View(LeftHand, LeftCam), View(RightHand, LeftCam));
            var (c, d) := (View(LeftHand, RightCam), View(RightHand, RightCam));
            Flagged(Flagged(Flagged(Flagged(before, a, a in after), b, b in after), c, c in after), d, d in after)
            == after
  {
  }

  class HandTracker {
    const c: Config
    var step: nat
    var tracking2d: set<View>
    var tracking3d: set<Hand>
    var last2d: set<View>
    var last3d: Hands

    ghost function Abs(): State
      reads this
    {
      State(step, tracking2d, tracking3d, last2d, last3d)
    }

    ghost predicate Valid()
      reads this
    {
      c.interval >= 1 && Inv(c, Abs())
    }

    constructor (config: Config)
      requires config.interval >= 1
      ensures c == config && Abs() == INIT && Valid()
    {
      c := config;
      step, tracking2d, tracking3d, last2d, last3d := 0, {}, {}, {}, Hands({}, {});
    }

    /** Predict a root, shift the stored points by it and test their bounding box.  The
        predictor must be started and the stored points must be there. */
    method PredictBox(v: View, f: Frame) returns (inside: bool)
      requires v in tracking2d && v in last3d.points
      ensures inside == (v in f.inside)
    {
      inside := v in f.inside;
    }

    method TrackView(v: View, f: Frame, boxes: set<View>) returns (more: set<View>)
      requires Valid() && v in VIEWS
      ensures more == if v in last2d && v.hand in last3d.valid && v in f.inside then boxes + {v} else boxes
    {
      more := boxes;
      if v in last2d && v.hand in last3d.valid {
        var inside := PredictBox(v, f);
        if inside {
          more := more + {v};
        }
      }
    }

    method TrackViews(f: Frame) returns (boxes: set<View>)
      requires Valid()
      ensures boxes == set v | v in VIEWS && v in last2d && v.hand in last3d.valid && v in f.inside
    {
      boxes := TrackView(View(LeftHand, LeftCam), f, {});
      boxes := TrackView(View(RightHand, LeftCam), f, boxes);
      boxes := TrackView(View(LeftHand, RightCam), f, boxes);
      boxes := TrackView(View(RightHand, RightCam), f, boxes);
    }

    /** Track, or else detect; without any box all predictors stop. */
    method Detect(f: Frame) returns (ok: bool, boxes: set<View>)
      requires Valid()
      modifies this
      ensures ok == !Fails(c, old(Abs()), f)
      ensures ok ==> boxes == Boxes(c, old(Abs()), f)
      ensures step == StepAfter(c, old(Abs()), f) && last2d == old(last2d) && last3d == old(last3d)
      ensures if ok && boxes == {} then tracking2d == {} && tracking3d == {}
              else tracking2d == old(tracking2d) && tracking3d == old(tracking3d)
    {
      ok, boxes := true, {};
      var detect := true;
      if !f.poseValid {
        step, detect := 0, false;
      }
      if step != 0 && c.enableTrack && tracking2d != {} {
        boxes := TrackViews(f);
        if boxes != {} {
          detect := false;
          step := step + 1;
          if step > c.interval {
            step := 0;
          }
        }
      }
      if detect {
        if f.detected.None? {
          ok := false;
          return;
        }
        boxes := set v | v in VIEWS && v in f.detected.value && (v.camera.LeftCam? || !c.mono);
        step := 1;
      }
      if boxes == {} {
        tracking2d, tracking3d := {}, {};
      }
    }

    /** Start the predictor of a view at the root of this frame's points. */
    method StartTracking(v: View, hands: Hands)
      requires v in hands.points
      modifies this`tracking2d
      ensures tracking2d == old(tracking2d) + {v}
    {
      tracking2d := tracking2d + {v};
    }

    /** Correct the predictor of a view with the root of this frame's points and the speed
        from the previous frame's.  The correction does not change the tracking flag. */
    method TrackWithCorrect(v: View, hands: Hands)
      requires v in tracking2d && v in hands.points && v in last3d.points
    {
    }

    method FilterView(v: View, views: set<View>, hands: Hands)
      requires v in VIEWS && Measured(views, hands) <= hands.points
      requires v in tracking2d ==> v in last3d.points
      modifies this`tracking2d
      ensures tracking2d == Flagged(old(tracking2d), v, v in Measured(views, hands))
    {
      if v !in views || v.hand !in hands.valid {
        tracking2d := tracking2d - {v};
      } else if v !in tracking2d {
        StartTracking(v, hands);
      } else if v in last2d {
        TrackWithCorrect(v, hands);
      }
    }

    method FilterHand(h: Hand, hands: Hands)
      modifies this`tracking3d
      ensures tracking3d == Flagged(old(tracking3d), h, h in hands.valid)
    {
      if h !in hands.valid {
        tracking3d := tracking3d - {h};
      } else if h !in tracking3d {
        tracking3d := tracking3d + {h};
      }
    }

    /** Start, stop or correct the six predictors, then store the frame. */
    method Filter(views: set<View>, hands: Hands)
      requires Measured(views, hands) <= hands.points && hands.valid <= HANDS
      requires tracking2d <= VIEWS && tracking3d <= HANDS
      requires tracking2d <= last3d.points
      modifies this
      ensures step == old(step) && last2d == views && last3d == hands
      ensures tracking2d == Measured(views, hands) && tracking3d == hands.valid
    {
      FilterHand(LeftHand, hands);
      FilterHand(RightHand, hands);
      AllViewsFlagged(tracking2d, Measured(views, hands));
      FilterView(View(LeftHand, LeftCam), views, hands);
      FilterView(View(RightHand, LeftCam), views, hands);
      FilterView(View(LeftHand, RightCam), views, hands);
      FilterView(View(RightHand, RightCam), views, hands);
      last2d := views;
      last3d := hands;
    }

    /** A frame through all stages.  Valid() before and after is the promise that no stage
        queries an unstarted predictor or reads a missing point vector. */
    method ProcessFrame(f: Frame) returns (ok: bool)
      requires Valid()
      modifies this
      ensures Abs() == Next(c, old(Abs()), f) && Valid()
      ensures ok == !Fails(c, old(Abs()), f)
    {
      NextInv(c, Abs(), f);
      var boxes;
      ok, boxes := Detect(f);
      if ok {
        var views := Landmarks(boxes, f);
        var hands := Solved(views, f);
        MeasuredHavePoints(views, f);
        Filter(views, hands);
      }
    }
  }
}
