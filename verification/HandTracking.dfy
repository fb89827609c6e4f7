/** The per-frame tracking machine: detect or track the hand boxes, find landmarks, lift them
    to 3D hands, reject implausible hands, correct the six predictors and store the frame.

    A box, a landmark set or a predictor belongs to a view: one hand seen by one camera.
    What the networks and geometric tests answer is an input of the frame.  Predictors are
    kept as their tracking flag. */
module HandTracking {
  import opened Collections

  datatype Hand = LeftHand | RightHand

  datatype Camera = LeftCam | RightCam

  datatype View = View(hand: Hand, camera: Camera)

  const HANDS: set<Hand> := {LeftHand, RightHand}
  const VIEWS: set<View> :=
    {View(LeftHand, LeftCam), View(RightHand, LeftCam), View(LeftHand, RightCam), View(RightHand, RightCam)}

  datatype Config = Config(interval: nat, enableTrack: bool, mono: bool)

  /** 3D hands: which are valid, and which have 2D points for which camera. */
  datatype Hands = Hands(valid: set<Hand>, points: set<View>)

  datatype State = State(step: nat, tracking2d: set<View>, tracking3d: set<Hand>, last2d: set<View>, last3d: Hands)

  /** `inside`: views whose predicted box passes the box test.  `detected`: views whose
      detected box does, or None when the detector fails.  The other fields name the hands
      for which a network succeeds, or that the hard rules reject. */
  datatype Frame = Frame(
    poseValid: bool,
    inside: set<View>,
    detected: Option<set<View>>,
    pairFound: set<Hand>,
    singleFound: set<Hand>,
    lifted: set<Hand>,
    solvedMono: set<Hand>,
    rejected: set<Hand>)

  const INIT := State(0, {}, {}, {}, Hands({}, {}))

  // ----- the stages

  /** The camera on the side of the hand; only this one is used alone. */
  function Main(h: Hand): View { View(h, if h.LeftHand? then LeftCam else RightCam) }

  function Other(h: Hand): View { View(h, if h.LeftHand? then RightCam else LeftCam) }

  function StepBefore(s: State, f: Frame): nat { if f.poseValid then s.step else 0 }

  /** The boxes predicted from the last frame. */
  function Tracked(c: Config, s: State, f: Frame): set<View>
  {
    if StepBefore(s, f) != 0 && c.enableTrack && s.tracking2d != {}
    then set v | v in VIEWS && v in s.last2d && v.hand in s.last3d.valid && v in f.inside
    else {}
  }

  predicate RunsDetector(c: Config, s: State, f: Frame) { f.poseValid && Tracked(c, s, f) == {} }

  predicate Fails(c: Config, s: State, f: Frame) { RunsDetector(c, s, f) && f.detected.None? }

  function Boxes(c: Config, s: State, f: Frame): set<View>
  {
    if RunsDetector(c, s, f) && f.detected.Some?
    then set v | v in VIEWS && v in f.detected.value && (v.camera.LeftCam? || !c.mono)
    else Tracked(c, s, f)
  }

  function StepAfter(c: Config, s: State, f: Frame): nat
  {
    var before := StepBefore(s, f);
    if Fails(c, s, f) then before
    else if RunsDetector(c, s, f) then 1
    else if Tracked(c, s, f) == {} then before
    else if before + 1 > c.interval then 0
    else before + 1
  }

  /** Views with landmarks: both of a hand seen by both cameras, or the main one alone. */
  function Landmarks(boxes: set<View>, f: Frame): set<View>
  {
    set v | v in VIEWS &&
      if Main(v.hand) in boxes && Other(v.hand) in boxes then v.hand in f.pairFound
      else v == Main(v.hand) && v in boxes && v.hand in f.singleFound
  }

  predicate SolvedBino(views: set<View>, f: Frame, h: Hand) { Main(h) in views && Other(h) in views && h in f.lifted }

  predicate SolvedMono(views: set<View>, f: Frame, h: Hand)
  {
    Main(h) in views && Other(h) !in views && h in f.solvedMono
  }

  /** 3D hands after the hard rules; a rejected hand keeps its points. */
  function Solved(views: set<View>, f: Frame): Hands
  {
    Hands(set h | h in HANDS && (SolvedBino(views, f, h) || SolvedMono(views, f, h)) && h !in f.rejected,
          set v | v in VIEWS && (SolvedBino(views, f, v.hand) || (v == Main(v.hand) && SolvedMono(views, f, v.hand))))
  }

  /** Predictors that have a measurement in this frame. */
  function Measured(views: set<View>, hands: Hands): set<View>
  {
    set v | v in VIEWS && v in views && v.hand in hands.valid
  }

  /** One whole frame.  When the detector fails the frame ends there. */
  function Next(c: Config, s: State, f: Frame): State
  {
    if Fails(c, s, f) then s.(step := StepAfter(c, s, f))
    else
      var views := Landmarks(Boxes(c, s, f), f);
      var hands := Solved(views, f);
      State(StepAfter(c, s, f), Measured(views, hands), hands.valid, views, hands)
  }

  // ----- what every frame boundary satisfies

  /** A predictor is tracking exactly when the stored flags it depends on are set, and the
      points that tracking reads are there. */
  ghost predicate Inv(c: Config, s: State)
  {
    && s.tracking2d == Measured(s.last2d, s.last3d)
    && s.tracking3d == s.last3d.valid
    && s.last3d.valid <= HANDS
    && s.tracking2d <= s.last3d.points
    && s.step <= c.interval
  }

  lemma NextInv(c: Config, s: State, f: Frame)
    requires c.interval >= 1 && Inv(c, s)
    ensures Inv(c, Next(c, s, f))
  {
    if !Fails(c, s, f) {
      var views := Landmarks(Boxes(c, s, f), f);
      MeasuredHavePoints(views, f);
    }
  }

  /** A measured view of a solved hand always has 2D points. */
  lemma MeasuredHavePoints(views: set<View>, f: Frame)
    ensures Measured(views, Solved(views, f)) <= Solved(views, f).points
    ensures Solved(views, f).valid <= HANDS
  {
    forall v | v in Measured(views, Solved(views, f))
      ensures v in Solved(views, f).points
    {
      assert v == Main(v.hand) || v == Other(v.hand);
    }
  }

  // ----- runs

  ghost predicate Follows(c: Config, s: State, f: Frame, t: State) { t == Next(c, s, f) }

  /** The states at the frame boundaries of a run. */
  ghost predicate IsRun(c: Config, frames: seq<Frame>, states: seq<State>)
  {
    && |states| == |frames| + 1 && states[0] == INIT
    && forall k | 0 <= k < |frames| :: Follows(c, states[k], frames[k], states[k + 1])
  }

  lemma {:induction false} RunInv(c: Config, frames: seq<Frame>, states: seq<State>, k: nat)
    requires c.interval >= 1 && IsRun(c, frames, states) && k <= |frames|
    ensures Inv(c, states[k])
    decreases k
  {
    if k > 0 {
      RunInv(c, frames, states, k - 1);
      assert Follows(c, states[k - 1], frames[k - 1], states[k]);
      NextInv(c, states[k - 1], frames[k - 1]);
    }
  }

  lemma TrackedStep(c: Config, s: State, f: Frame)
    requires Inv(c, s) && f.poseValid && !RunsDetector(c, s, f)
    ensures 1 <= s.step <= c.interval
    ensures Next(c, s, f).step == if s.step == c.interval then 0 else s.step + 1
  {
  }

  /** Steps that count up one per frame and wrap after the interval. */
  lemma {:induction false} Countdown(interval: nat, steps: seq<int>)
    requires |steps| > 0
    requires forall k | 0 <= k < |steps| - 1 ::
               1 <= steps[k] <= interval && steps[k + 1] == if steps[k] == interval then 0 else steps[k] + 1
    ensures |steps| - 1 <= interval
    ensures |steps| > 1 ==> steps[|steps| - 1] == 0 || steps[|steps| - 1] >= |steps|
  {
    var n := |steps| - 1;
    if n > 0 {
      Countdown(interval, steps[..n]);
      assert steps[n - 1] >= n;
    }
  }

  /** In every run, any interval + 1 consecutive frames with a valid pose include one that
      runs the detector. */
  lemma DetectorRunsInEveryWindow(c: Config, frames: seq<Frame>, states: seq<State>, i: nat)
    requires c.interval >= 1 && IsRun(c, frames, states) && i + c.interval + 1 <= |frames|
    requires forall k | i <= k <= i + c.interval :: frames[k].poseValid
    ensures exists k :: i <= k <= i + c.interval && RunsDetector(c, states[k], frames[k])
  {
    if k :| i <= k <= i + c.interval && RunsDetector(c, states[k], frames[k]) {
    } else {
      var steps := seq(c.interval + 2, k requires 0 <= k < c.interval + 2 => states[i + k].step);
      forall k | 0 <= k < |steps| - 1
        ensures 1 <= steps[k] <= c.interval && steps[k + 1] == if steps[k] == c.interval then 0 else steps[k] + 1
      {
        RunInv(c, frames, states, i + k);
        assert Follows(c, states[i + k], frames[i + k], states[i + k + 1]);
        TrackedStep(c, states[i + k], frames[i + k]);
      }
      Countdown(c.interval, steps);
      assert false;
    }
  }

  // ----- hands seen by one camera, rejected hands and lost hands

  /** A hand seen by a single camera is used only if that is the camera on its own side. */
  ghost predicate SeenFromOwnSide(views: set<View>)
  {
    && (View(LeftHand, RightCam) in views ==> View(LeftHand, LeftCam) in views)
    && (View(RightHand, LeftCam) in views ==> View(RightHand, RightCam) in views)
  }

  ghost predicate OwnSideInv(s: State)
  {
    && SeenFromOwnSide(s.last2d) && SeenFromOwnSide(s.last3d.points) && SeenFromOwnSide(s.tracking2d)
    && (LeftHand in s.last3d.valid ==> View(LeftHand, LeftCam) in s.tracking2d)
    && (RightHand in s.last3d.valid ==> View(RightHand, RightCam) in s.tracking2d)
  }

  /** At every frame boundary of every run, a valid hand is measured by the camera on its own
      side, and the other camera alone never is enough for landmarks, points or a predictor. */
  lemma {:induction false} OwnSideAlways(c: Config, frames: seq<Frame>, states: seq<State>, k: nat)
    requires IsRun(c, frames, states) && k <= |frames|
    ensures OwnSideInv(states[k])
    decreases k
  {
    if k > 0 {
      OwnSideAlways(c, frames, states, k - 1);
      assert Follows(c, states[k - 1], frames[k - 1], states[k]);
      OwnSideNext(c, states[k - 1], frames[k - 1]);
    }
  }

  lemma OwnSideNext(c: Config, s: State, f: Frame)
    requires OwnSideInv(s)
    ensures OwnSideInv(Next(c, s, f))
  {
  }

  /** The hands of a frame, left and right spelled out: a hand needs a box in the camera on its
      own side; a box in the other camera, if there is one too, makes it a pair. */
  lemma HandsFound(c: Config, s: State, f: Frame)
    requires !Fails(c, s, f)
    ensures var (boxes, t) := (Boxes(c, s, f), Next(c, s, f));
            var (own, far) := (View(LeftHand, LeftCam), View(LeftHand, RightCam));
            var found := if own !in boxes then {} else if far in boxes then f.pairFound else f.singleFound;
            var solved := if far in boxes then f.lifted else f.solvedMono;
            && (own in t.last2d <==> LeftHand in found)
            && (far in t.last2d <==> LeftHand in found && far in boxes)
            && (LeftHand in t.last3d.valid <==> LeftHand in found && LeftHand in solved && LeftHand !in f.rejected)
    ensures var (boxes, t) := (Boxes(c, s, f), Next(c, s, f));
            var (own, far) := (View(RightHand, RightCam), View(RightHand, LeftCam));
            var found := if own !in boxes then {} else if far in boxes then f.pairFound else f.singleFound;
            var solved := if far in boxes then f.lifted else f.solvedMono;
            && (own in t.last2d <==> RightHand in found)
            && (far in t.last2d <==> RightHand in found && far in boxes)
            && (RightHand in t.last3d.valid <==> RightHand in found && RightHand in solved && RightHand !in f.rejected)
  {
  }

  ghost predicate OnlyLeftView(s: State)
  {
    && (forall v | v in s.last2d :: v == View(LeftHand, LeftCam))
    && (forall v | v in s.last3d.points :: v == View(LeftHand, LeftCam))
    && RightHand !in s.last3d.valid
  }

  lemma OneCameraNext(c: Config, s: State, f: Frame)
    requires c.mono && OnlyLeftView(s)
    ensures OnlyLeftView(Next(c, s, f))
  {
    if !Fails(c, s, f) {
      var boxes := Boxes(c, s, f);
      assert forall v | v in boxes :: v.camera.LeftCam?;
      var views := Landmarks(boxes, f);
      forall v | v in views
        ensures v == View(LeftHand, LeftCam)
      {
        assert Main(v.hand) in boxes;
      }
      forall v | v in Solved(views, f).points
        ensures v == View(LeftHand, LeftCam)
      {
        assert Main(v.hand) in views;
      }
    }
  }

  /** With one camera, the left one, no run ever reports a right hand. */
  lemma {:induction false} OneCameraNoRightHand(c: Config, frames: seq<Frame>, states: seq<State>, k: nat)
    requires IsRun(c, frames, states) && k <= |frames| && c.mono
    ensures OnlyLeftView(states[k])
    decreases k
  {
    if k > 0 {
      OneCameraNoRightHand(c, frames, states, k - 1);
      assert Follows(c, states[k - 1], frames[k - 1], states[k]);
      OneCameraNext(c, states[k - 1], frames[k - 1]);
    }
  }

  /** A hand that the hard rules reject is not valid in that frame, whatever the networks
      found, and none of its predictors goes on; otherwise a hand with points is valid. */
  lemma RejectedStops(c: Config, s: State, f: Frame, h: Hand)
    requires !Fails(c, s, f) && h in HANDS
    ensures var t := Next(c, s, f);
            && (h in f.rejected ==> h !in t.last3d.valid && h !in t.tracking3d)
            && (h in f.rejected ==> forall v | v in t.tracking2d :: v.hand != h)
            && (h !in f.rejected && (exists v :: v in t.last3d.points && v.hand == h) ==> h in t.last3d.valid)
  {
    var t := Next(c, s, f);
    if h !in f.rejected {
      if v :| v in t.last3d.points && v.hand == h {
        assert v in VIEWS;
        assert h in t.last3d.valid;
      }
    }
  }

  /** A hand that is not valid at one frame boundary can be valid at a later one only if the
      detector has run in between. */
  lemma {:induction false} LostNeedsDetector(c: Config, frames: seq<Frame>, states: seq<State>, h: Hand, i: nat, k: nat)
    requires IsRun(c, frames, states) && i <= k <= |frames| && h !in states[i].last3d.valid
    requires forall j | i <= j < k :: !RunsDetector(c, states[j], frames[j])
    ensures h !in states[k].last3d.valid
    decreases k
  {
    if i < k {
      LostNeedsDetector(c, frames, states, h, i, k - 1);
      assert Follows(c, states[k - 1], frames[k - 1], states[k]);
      UntrackedStaysLost(c, states[k - 1], frames[k - 1], h);
    }
  }

  lemma UntrackedStaysLost(c: Config, s: State, f: Frame, h: Hand)
    requires h !in s.last3d.valid && !RunsDetector(c, s, f)
    ensures h !in Next(c, s, f).last3d.valid
  {
    assert forall v | v in Boxes(c, s, f) :: v.hand != h;
    assert forall v | v in Landmarks(Boxes(c, s, f), f) :: v.hand != h;
  }

  /** Nor does tracking ever find a hand in a camera that had no landmarks of it. */
  lemma {:induction false} ViewNeedsDetector(c: Config, frames: seq<Frame>, states: seq<State>, v: View, i: nat, k: nat)
    requires IsRun(c, frames, states) && i <= k <= |frames| && v !in states[i].last2d
    requires forall j | i <= j < k :: !RunsDetector(c, states[j], frames[j])
    ensures v !in states[k].last2d
    decreases k
  {
    if i < k {
      ViewNeedsDetector(c, frames, states, v, i, k - 1);
      assert Follows(c, states[k - 1], frames[k - 1], states[k]);
      UnseenStaysUnseen(c, states[k - 1], frames[k - 1], v);
    }
  }

  lemma UnseenStaysUnseen(c: Config, s: State, f: Frame, v: View)
    requires v !in s.last2d && !RunsDetector(c, s, f)
    ensures v !in Next(c, s, f).last2d
  {
    assert v !in Boxes(c, s, f);
  }

  /** A frame whose detector fails leaves everything as it was, so the next one with a valid pose
      tries again unless a box can be tracked. */
  lemma FailureChangesNothing(c: Config, s: State, f: Frame, f': Frame)
    requires Fails(c, s, f)
    ensures Next(c, s, f) == s
    ensures f'.poseValid && f'.inside <= f.inside ==> RunsDetector(c, Next(c, s, f), f')
  {
    if f'.poseValid && f'.inside <= f.inside {
      assert StepBefore(s, f') == StepBefore(s, f);
      assert forall v | v in Tracked(c, s, f') :: v in Tracked(c, s, f);
    }
  }

  /** After a frame without any box the next one with a valid pose runs the detector. */
  lemma EmptyFrameDetectsNext(c: Config, s: State, f: Frame, f': Frame)
    requires !Fails(c, s, f) && Boxes(c, s, f) == {} && f'.poseValid
    ensures Next(c, s, f).tracking2d == {} && Next(c, s, f).tracking3d == {}
    ensures RunsDetector(c, Next(c, s, f), f')
  {
    assert Landmarks(Boxes(c, s, f), f) == {};
  }

  /** A frame without a valid pose puts the machine back to where it began. */
  lemma NoPoseIsRestart(c: Config, s: State, f: Frame)
    requires !f.poseValid
    ensures Next(c, s, f) == INIT
  {
    assert Landmarks(Boxes(c, s, f), f) == {};
  }

  /** So a rejected hand stays lost until the detector runs again. */
  lemma RejectedNeedsDetector(c: Config, frames: seq<Frame>, states: seq<State>, h: Hand, i: nat, k: nat)
    requires IsRun(c, frames, states) && i < k <= |frames|
    requires h in frames[i].rejected && !Fails(c, states[i], frames[i]) && h in states[k].last3d.valid
    ensures exists j :: i < j < k && RunsDetector(c, states[j], frames[j])
  {
    assert Follows(c, states[i], frames[i], states[i + 1]);
    if forall j | i < j < k :: !RunsDetector(c, states[j], frames[j]) {
      LostNeedsDetector(c, frames, states, h, i + 1, k);
    }
  }

  // ----- the bound is met

  const ALL_GOOD := Frame(true, VIEWS, Some(VIEWS), HANDS, HANDS, HANDS, HANDS, {})

  lemma GoodFrame(c: Config, s: State)
    requires Inv(c, s) && c.interval >= 1 && c.enableTrack && (s.step == 0 || View(LeftHand, LeftCam) in s.tracking2d)
    ensures RunsDetector(c, s, ALL_GOOD) <==> s.step == 0
    ensures View(LeftHand, LeftCam) in Next(c, s, ALL_GOOD).tracking2d
    ensures Next(c, s, ALL_GOOD).step == if s.step == c.interval then 0 else s.step + 1
  {
    var v := View(LeftHand, LeftCam);
    if s.step != 0 { assert v in Tracked(c, s, ALL_GOOD); }
    assert v in Boxes(c, s, ALL_GOOD);
    assert v in Landmarks(Boxes(c, s, ALL_GOOD), ALL_GOOD);
  }

  /** While every box stays inside the image, exactly `interval` tracked frames separate the
      first detection from the second. */
  lemma {:induction false} BoundIsMet(c: Config, frames: seq<Frame>, states: seq<State>, k: nat)
    requires c.interval >= 1 && c.enableTrack && IsRun(c, frames, states) && k <= c.interval + 1 < |frames|
    requires forall j | 0 <= j < |frames| :: frames[j] == ALL_GOOD
    ensures states[k].step == if k <= c.interval then k else 0
    ensures RunsDetector(c, states[k], frames[k]) <==> k == 0 || k == c.interval + 1
    ensures k == 0 || View(LeftHand, LeftCam) in states[k].tracking2d
    decreases k
  {
    RunInv(c, frames, states, k);
    if k > 0 {
      BoundIsMet(c, frames, states, k - 1);
      RunInv(c, frames, states, k - 1);
      assert Follows(c, states[k - 1], frames[k - 1], states[k]);
      GoodFrame(c, states[k - 1]);
    }
    GoodFrame(c, states[k]);
  }
}
