/** The gesture recogniser: features with memory, an occlusion mask that freezes the
    thumb-to-finger distances, and rules of which one reads the last gesture. */
module Gesture {
  import opened Collections
  import opened FingerState

  datatype HandGesture = Invalid | Pinch | Click | Grab | ThumbUp | OpenHand | Victory | Call | Home

  datatype Orientation = Undefined | Horizontal | Vertical | Other

  /** The angles at the three joints of a finger, from the palm to the tip. */
  datatype Angles = Angles(base: real, middle: real, tip: real)

  const FINGERS: nat := 5

  /** One state per finger, thumb first. */
  datatype Features = Features(
    curl: seq<FingerState>,
    flexion: seq<FingerState>,
    abduction: seq<FingerState>,
    opposition: seq<FingerState>,
    orientation: Orientation)

  /** What is measured on one frame of scaled keypoints.  `distances` are from the thumb tip
      to the other tips; the two triangle tests say whether a tip is hidden by the palm. */
  datatype Sample = Sample(
    angles: seq<Angles>,
    spread: seq<real>,
    distances: seq<real>,
    handAngle: real,
    toFace: bool,
    mono: bool,
    thumbHidden: bool,
    indexHidden: bool,
    tracked: bool,
    speed: real,
    thumbUp: bool,
    thumbGap: real)

  ghost predicate SampleOk(x: Sample) { |x.angles| == FINGERS && |x.spread| == 4 && |x.distances| == 4 }

  ghost predicate FeaturesOk(f: Features)
  {
    |f.curl| == FINGERS && |f.flexion| == FINGERS && |f.abduction| == FINGERS && |f.opposition| == FINGERS
  }

  /** The settable thresholds of the thumb-to-finger distance. */
  datatype PinchBands = PinchBands(
    closedAt: real, width: real,
    moveClosedAt: real, moveWidth: real,
    relaxClosedAt: real, relaxWidth: real,
    openAt: real)

  const DEFAULT_BANDS := PinchBands(0.017, 0.006, 0.023, 0.016, 0.026, 0.01, 0.1)

  const CURL_THUMB := Band(140.0, 155.0, 10.0)
  const CURL_OTHER := Band(80.0, 130.0, 10.0)
  const FLEXION_THUMB := Band(120.0, 150.0, 8.0)
  const FLEXION_OTHER := Band(110.0, 145.0, 8.0)
  const ABDUCTION_THUMB := Band(20.0, 35.0, 2.0)
  const ABDUCTION_OTHER := Band(10.0, 13.0, 2.0)

  const PINCH_SPEED := -0.015
  const PINCH_DISTANCE := 0.010
  const MOVE_SPEED := 0.1

  // ----- features

  function CurlBand(finger: nat): Band { if finger == 0 then CURL_THUMB else CURL_OTHER }

  function CurlAngle(x: Sample, finger: nat): real
    requires finger < |x.angles|
  {
    if finger == 0 then 180.0 - x.angles[0].tip else 180.0 - x.angles[finger].middle - x.angles[finger].tip
  }

  ghost function CurlStep(states: seq<FingerState>, x: Sample): seq<FingerState>
    requires |states| == FINGERS && SampleOk(x)
  {
    seq(FINGERS, i requires 0 <= i < FINGERS => UpdateState(CurlAngle(x, i), CurlBand(i), states[i]))
  }

  function FlexionBand(finger: nat): Band { if finger == 0 then FLEXION_THUMB else FLEXION_OTHER }

  function FlexionAngle(x: Sample, finger: nat): real
    requires finger < |x.angles|
  {
    180.0 - if finger == 0 then x.angles[0].middle else x.angles[finger].base
  }

  ghost function FlexionStep(curl: seq<FingerState>, x: Sample): seq<FingerState>
    requires |curl| == FINGERS && SampleOk(x)
  {
    seq(FINGERS, i requires 0 <= i < FINGERS => UpdateState(FlexionAngle(x, i), FlexionBand(i), curl[i]))
  }

  function AbductionBand(finger: nat): Band { if finger == 0 then ABDUCTION_THUMB else ABDUCTION_OTHER }

  /** There is no gap after the little finger, whose state is never updated. */
  ghost function AbductionStep(states: seq<FingerState>, x: Sample): seq<FingerState>
    requires |states| == FINGERS && SampleOk(x)
  {
    seq(FINGERS, i requires 0 <= i < FINGERS =>
      if i < FINGERS - 1 then UpdateState(x.spread[i], AbductionBand(i), states[i]) else states[i])
  }

  predicate Relaxed(x: Sample) { x.toFace || x.mono }

  predicate Moving(x: Sample) { x.speed > MOVE_SPEED }

  function BandInForce(th: PinchBands, x: Sample): Band
  {
    if Relaxed(x) then Band(th.relaxClosedAt, th.openAt, th.relaxWidth)
    else if Moving(x) then Band(th.moveClosedAt, th.openAt, th.moveWidth)
    else Band(th.closedAt, th.openAt, th.width)
  }

  ghost function OppositionStep(states: seq<FingerState>, x: Sample, band: Band): seq<FingerState>
    requires |states| == FINGERS && SampleOk(x)
  {
    seq(FINGERS, i requires 0 <= i < FINGERS =>
      if i == 0 then states[0] else UpdateState(x.distances[i - 1], band, states[i]))
  }

  function OrientationOf(angle: real): Orientation
  {
    if 0.0 <= angle <= 30.0 || 150.0 <= angle <= 180.0 then Horizontal
    else if 60.0 <= angle then Vertical
    else Other
  }

  predicate Masked(last: HandGesture, x: Sample) { x.thumbHidden && x.indexHidden && !x.toFace && last.Pinch? }

  ghost function FeatureStep(th: PinchBands, f: Features, last: HandGesture, x: Sample): (f': Features)
    requires FeaturesOk(f) && SampleOk(x)
    ensures FeaturesOk(f')
  {
    var curl := CurlStep(f.curl, x);
    Features(curl, FlexionStep(curl, x), AbductionStep(f.abduction, x),
             if Masked(last, x) then f.opposition else OppositionStep(f.opposition, x, BandInForce(th, x)),
             OrientationOf(x.handAngle))
  }

  // ----- rules

  /** How fast the pinch distance grows, in metres per second at 30 frames per second. */
  function PinchVelocity(x: Sample, before: Option<real>): real
    requires |x.distances| > 0
  {
    if !x.tracked then 0.0
    else if before.None? then -1.0
    else (x.distances[0] - before.value) * 30.0
  }

  predicate PinchRule(f: Features, x: Sample, last: HandGesture, velocity: real)
    requires FeaturesOk(f) && SampleOk(x)
  {
    if last.Pinch? then f.opposition[1].Closed?
    else (f.opposition[1].Closed? && velocity < PINCH_SPEED) || x.distances[0] < PINCH_DISTANCE
  }

  predicate Matches(g: HandGesture, f: Features, x: Sample, last: HandGesture, velocity: real)
    requires FeaturesOk(f) && SampleOk(x)
  {
    match g
    case Invalid => false
    case Pinch => PinchRule(f, x, last, velocity)
    case Click =>
      && f.curl[1].Open? && f.curl[2].Closed? && f.curl[3].Closed? && f.curl[4].Closed? && !f.opposition[1].Closed?
      && (!f.curl[0].Open? || (!f.abduction[0].Closed? && x.thumbGap < 0.05))
    case Grab => f.curl[1].Closed? && f.curl[2].Closed? && f.curl[3].Closed? && f.curl[4].Closed? && !f.curl[0].Open?
    case ThumbUp =>
      && f.curl[1].Closed? && f.curl[2].Closed? && f.curl[3].Closed? && f.curl[4].Closed?
      && f.abduction[0].Open? && x.thumbUp
    case OpenHand =>
      && f.curl[0].Open? && !f.curl[1].Closed? && f.curl[2].Open? && f.curl[3].Open? && f.curl[4].Open?
      && !f.flexion[1].Closed? && f.flexion[2].Open? && f.flexion[3].Open? && f.flexion[4].Open?
    case Victory =>
      && f.curl[1].Open? && f.curl[2].Open? && f.curl[3].Closed? && !f.curl[4].Open?
      && f.abduction[1].Open? && !f.curl[0].Open?
    case Call =>
      && f.curl[0].Open? && (f.curl[1].Closed? || f.flexion[1].Closed?) && (f.curl[2].Closed? || f.flexion[2].Closed?)
      && (f.curl[3].Closed? || f.flexion[3].Closed?) && !f.curl[4].Closed?
    case Home =>
      && (f.curl[0].Closed? || f.flexion[0].Closed?) && f.curl[1].Open? && f.curl[2].Open? && f.curl[3].Open?
      && f.curl[4].Open? && f.orientation.Horizontal?
  }

  /** The gestures with a rule, in the order they are tried. */
  const ORDER := [Pinch, Click, Grab, ThumbUp, OpenHand, Victory, Call, Home]

  /** g is the first gesture in the order whose rule matches, or Invalid. */
  ghost predicate IsFirstMatch(g: HandGesture, f: Features, x: Sample, last: HandGesture, velocity: real)
    requires FeaturesOk(f) && SampleOk(x)
  {
    || (g.Invalid? && forall k | 0 <= k < |ORDER| :: !Matches(ORDER[k], f, x, last, velocity))
    || (exists k :: 0 <= k < |ORDER| && ORDER[k] == g && Matches(g, f, x, last, velocity) &&
                    forall j | 0 <= j < k :: !Matches(ORDER[j], f, x, last, velocity))
  }

  lemma PinchIsTriedFirst(g: HandGesture, f: Features, x: Sample, last: HandGesture, velocity: real)
    requires FeaturesOk(f) && SampleOk(x) && IsFirstMatch(g, f, x, last, velocity)
    ensures g.Pinch? <==> PinchRule(f, x, last, velocity)
  {
    assert ORDER[0] == Pinch;
    if PinchRule(f, x, last, velocity) {
      assert Matches(ORDER[0], f, x, last, velocity);
    }
  }

  /** Some hand fits both rules. */
  ghost predicate MayBothMatch(g: HandGesture, h: HandGesture)
  {
    exists f, x, last, velocity ::
      FeaturesOk(f) && SampleOk(x) && Matches(g, f, x, last, velocity) && Matches(h, f, x, last, velocity)
  }

  /** The pairs of rules between which the order decides. */
  predicate OrderDecides(g: HandGesture, h: HandGesture)
  {
    || (g.Grab? && h.ThumbUp?) || (g.ThumbUp? && h.Grab?)
    || (g.Home? && (h.OpenHand? || h.Call?)) || (h.Home? && (g.OpenHand? || g.Call?))
  }

  lemma Exclusive(g: HandGesture, h: HandGesture, f: Features, x: Sample, last: HandGesture, velocity: real)
    requires FeaturesOk(f) && SampleOk(x) && g != h && !g.Pinch? && !h.Pinch? && !OrderDecides(g, h)
    ensures !(Matches(g, f, x, last, velocity) && Matches(h, f, x, last, velocity))
  {
  }

  const STRAIGHT := [Open, Open, Open, Open, Open]
  const BENT := [Closed, Closed, Closed, Closed, Closed]
  const FLAT_SAMPLE := Sample([Angles(0.0, 0.0, 0.0), Angles(0.0, 0.0, 0.0), Angles(0.0, 0.0, 0.0),
                               Angles(0.0, 0.0, 0.0), Angles(0.0, 0.0, 0.0)],
                              [0.0, 0.0, 0.0, 0.0], [1.0, 1.0, 1.0, 1.0], 0.0, false, false, false, false, false,
                              0.0, true, 0.0)

  /** Apart from pinches, a hand fits two rules only for three pairs of gestures. */
  lemma RulesExclusiveUnlessOrdered(g: HandGesture, h: HandGesture)
    requires g != h && !g.Pinch? && !h.Pinch?
    ensures MayBothMatch(g, h) <==> OrderDecides(g, h)
  {
    if OrderDecides(g, h) {
      var x := FLAT_SAMPLE;
      var fist := Features(BENT, BENT, STRAIGHT, STRAIGHT, Horizontal);
      var open := Features(STRAIGHT, [Closed, Open, Open, Open, Open], STRAIGHT, STRAIGHT, Horizontal);
      var call := Features(STRAIGHT, BENT, STRAIGHT, STRAIGHT, Horizontal);
      assert Matches(Grab, fist, x, Invalid, 0.0) && Matches(ThumbUp, fist, x, Invalid, 0.0);
      assert Matches(OpenHand, open, x, Invalid, 0.0) && Matches(Home, open, x, Invalid, 0.0);
      assert Matches(Call, call, x, Invalid, 0.0) && Matches(Home, call, x, Invalid, 0.0);
    } else {
      forall f, x, last, velocity | FeaturesOk(f) && SampleOk(x)
        ensures !(Matches(g, f, x, last, velocity) && Matches(h, f, x, last, velocity))
      {
        Exclusive(g, h, f, x, last, velocity);
      }
    }
  }

  /** A fist with the thumb up is a grab unless the thumb is straight. */
  lemma ThumbUpNeedsStraightThumb(f: Features, x: Sample, last: HandGesture, velocity: real)
    requires FeaturesOk(f) && SampleOk(x) && IsFirstMatch(ThumbUp, f, x, last, velocity)
    ensures f.curl[0].Open?
  {
    assert ORDER[2] == Grab && ORDER[3] == ThumbUp;
    var k :| 0 <= k < |ORDER| && ORDER[k] == ThumbUp && forall j | 0 <= j < k ::
      !Matches(ORDER[j], f, x, last, velocity);
    assert k == 3 && !Matches(ORDER[2], f, x, last, velocity);
  }

  // ----- the machine

  datatype Machine = Machine(features: Features, last: HandGesture, distance: Option<real>)

  const UNKNOWN := [Unknown, Unknown, Unknown, Unknown, Unknown]
  const UNKNOWN_FEATURES := Features(UNKNOWN, UNKNOWN, UNKNOWN, UNKNOWN, Undefined)
  const INIT := Machine(UNKNOWN_FEATURES, Invalid, None)

  /** One frame; the gesture recognised is the new `last`. */
  ghost predicate Follows(th: PinchBands, m: Machine, x: Sample, m': Machine)
  {
    && FeaturesOk(m.features) && SampleOk(x)
    && m'.features == FeatureStep(th, m.features, m.last, x)
    && m'.distance == (if x.tracked then Some(x.distances[0]) else None)
    && IsFirstMatch(m'.last, m'.features, x, m.last, PinchVelocity(x, m.distance))
  }

  ghost predicate IsRun(th: PinchBands, samples: seq<Sample>, states: seq<Machine>)
  {
    && |states| == |samples| + 1 && states[0] == INIT
    && forall k | 0 <= k < |samples| :: Follows(th, states[k], samples[k], states[k + 1])
  }

  // ----- pinches

  /** A recognised pinch is a closed index opposition. */
  ghost predicate PinchIsClosed(m: Machine)
  {
    FeaturesOk(m.features) && (m.last.Pinch? ==> m.features.opposition[1].Closed?)
  }

  /** Whatever band is in force, the close-range rule of a new pinch lies inside it. */
  ghost predicate BandsCoverPinch(th: PinchBands)
  {
    && th.closedAt - th.width / 2.0 >= PINCH_DISTANCE
    && th.moveClosedAt - th.moveWidth / 2.0 >= PINCH_DISTANCE
    && th.relaxClosedAt - th.relaxWidth / 2.0 >= PINCH_DISTANCE
  }

  lemma StepKeepsPinchClosed(th: PinchBands, m: Machine, x: Sample, m': Machine)
    requires BandsCoverPinch(th) && PinchIsClosed(m) && Follows(th, m, x, m')
    ensures PinchIsClosed(m')
  {
    PinchIsTriedFirst(m'.last, m'.features, x, m.last, PinchVelocity(x, m.distance));
  }

  lemma {:induction false} RunKeepsPinchClosed(th: PinchBands, samples: seq<Sample>, states: seq<Machine>, k: nat)
    requires BandsCoverPinch(th) && IsRun(th, samples, states) && k <= |samples|
    ensures PinchIsClosed(states[k])
    decreases k
  {
    if k > 0 {
      RunKeepsPinchClosed(th, samples, states, k - 1);
      StepKeepsPinchClosed(th, states[k - 1], samples[k - 1], states[k]);
    }
  }

  ghost predicate PinchAlwaysClosed(th: PinchBands)
  {
    forall samples, states | IsRun(th, samples, states) :: forall k | 0 <= k < |states| :: PinchIsClosed(states[k])
  }

  /** In every run a recognised pinch has the index opposition closed, exactly if every band
      that can be in force covers the close range. */
  lemma PinchClosedIffBandsCover(th: PinchBands)
    ensures PinchAlwaysClosed(th) <==> BandsCoverPinch(th)
  {
    if BandsCoverPinch(th) {
      forall samples, states, k | IsRun(th, samples, states) && 0 <= k < |states|
        ensures PinchIsClosed(states[k])
      {
        RunKeepsPinchClosed(th, samples, states, k);
      }
    } else {
      OpenPinch(th);
    }
  }

  /** Otherwise the first frame can be a pinch at a distance that no band calls closed. */
  lemma OpenPinch(th: PinchBands)
    requires !BandsCoverPinch(th)
    ensures !PinchAlwaysClosed(th)
  {
    var relax := th.relaxClosedAt - th.relaxWidth / 2.0 < PINCH_DISTANCE;
    var move := th.moveClosedAt - th.moveWidth / 2.0 < PINCH_DISTANCE;
    var x0 := Sample(seq(FINGERS, _ => Angles(0.0, 0.0, 0.0)), [0.0, 0.0, 0.0, 0.0], [0.0, 0.0, 0.0, 0.0],
                     0.0, relax, false, false, false, false, if move then 1.0 else 0.0, false, 0.0);
    var band := BandInForce(th, x0);
    var edge := band.closedAt - band.width / 2.0;
    var d := if edge < 0.0 then 0.0 else (edge + PINCH_DISTANCE) / 2.0;
    var x := x0.(distances := [d, d, d, d]);
    assert edge < d < PINCH_DISTANCE;
    FirstFramePinches(th, x);
  }

  lemma FirstFramePinches(th: PinchBands, x: Sample)
    requires SampleOk(x) && x.distances[0] < PINCH_DISTANCE
    requires x.distances[0] > BandInForce(th, x).closedAt - BandInForce(th, x).width / 2.0
    ensures !PinchAlwaysClosed(th)
  {
    var f := FeatureStep(th, INIT.features, INIT.last, x);
    var velocity := PinchVelocity(x, INIT.distance);
    assert ORDER[0] == Pinch && Matches(Pinch, f, x, Invalid, velocity);
    assert IsFirstMatch(Pinch, f, x, Invalid, velocity);
    var m := Machine(f, Pinch, if x.tracked then Some(x.distances[0]) else None);
    assert Follows(th, INIT, x, m);
    assert IsRun(th, [x], [INIT, m]);
    assert !PinchIsClosed([INIT, m][1]);
  }

  /** A frame with the finger tips hidden repeats the pinch. */
  lemma MaskedFrameRepeatsPinch(th: PinchBands, samples: seq<Sample>, states: seq<Machine>, k: nat)
    requires BandsCoverPinch(th) && IsRun(th, samples, states) && k < |samples|
    requires states[k].last.Pinch? && samples[k].thumbHidden && samples[k].indexHidden && !samples[k].toFace
    ensures states[k + 1].last.Pinch? && states[k + 1].features.opposition == states[k].features.opposition
  {
    RunKeepsPinchClosed(th, samples, states, k);
    var (m, x, m') := (states[k], samples[k], states[k + 1]);
    assert Follows(th, m, x, m');
    PinchIsTriedFirst(m'.last, m'.features, x, m.last, PinchVelocity(x, m.distance));
  }

  /** The distances at which a closed finger leaves the closed state.  Around the open
      threshold there is a gap in which it stays closed. */
  predicate Releases(band: Band, distance: real)
  {
    && distance > band.closedAt - band.width / 2.0
    && (band.closedAt + band.width / 2.0 < distance < band.openAt - band.width / 2.0 ||
        distance > band.openAt + band.width / 2.0)
  }

  /** A pinch ends exactly on an unmasked frame whose distance releases it, and then the
      distance is beyond the upper edge of the band in force. */
  lemma PinchEnds(th: PinchBands, samples: seq<Sample>, states: seq<Machine>, k: nat)
    requires BandsCoverPinch(th) && IsRun(th, samples, states) && k < |samples| && states[k].last.Pinch?
    ensures SampleOk(samples[k])
    ensures !states[k + 1].last.Pinch? <==>
              !Masked(Pinch, samples[k]) && Releases(BandInForce(th, samples[k]), samples[k].distances[0])
    ensures var band := BandInForce(th, samples[k]);
            !states[k + 1].last.Pinch? && band.closedAt <= band.openAt && band.width >= 0.0 ==>
              samples[k].distances[0] > band.closedAt + band.width / 2.0
  {
    RunKeepsPinchClosed(th, samples, states, k);
    var (m, x, m') := (states[k], samples[k], states[k + 1]);
    assert Follows(th, m, x, m');
    PinchIsTriedFirst(m'.last, m'.features, x, m.last, PinchVelocity(x, m.distance));
  }

  lemma DefaultBandsCoverPinch()
    ensures BandsCoverPinch(DEFAULT_BANDS)
    ensures forall x :: BandInForce(DEFAULT_BANDS, x).closedAt <= BandInForce(DEFAULT_BANDS, x).openAt
    ensures forall x :: BandInForce(DEFAULT_BANDS, x).width > 0.0
  {
  }

  // ----- features do not flicker

  /** In every run a curl feature is the state of its own angle signal. */
  lemma {:induction false} CurlHistory(th: PinchBands, samples: seq<Sample>, states: seq<Machine>, finger: nat,
                                       signal: seq<real>, k: nat)
    requires IsRun(th, samples, states) && finger < FINGERS && k <= |samples| == |signal|
    requires forall j | 0 <= j < |samples| :: SampleOk(samples[j]) && signal[j] == CurlAngle(samples[j], finger)
    ensures FeaturesOk(states[k].features)
    ensures states[k].features.curl[finger] == StateAfter(signal, CurlBand(finger), Unknown, k)
    decreases k
  {
    if k > 0 {
      CurlHistory(th, samples, states, finger, signal, k - 1);
      assert Follows(th, states[k - 1], samples[k - 1], states[k]);
    }
  }

  /** And so is an abduction feature, except the one the program never updates. */
  lemma {:induction false} AbductionHistory(th: PinchBands, samples: seq<Sample>, states: seq<Machine>, finger: nat,
                                            signal: seq<real>, k: nat)
    requires IsRun(th, samples, states) && finger < FINGERS - 1 && k <= |samples| == |signal|
    requires forall j | 0 <= j < |samples| :: SampleOk(samples[j]) && signal[j] == samples[j].spread[finger]
    ensures FeaturesOk(states[k].features)
    ensures states[k].features.abduction[finger] == StateAfter(signal, AbductionBand(finger), Unknown, k)
    decreases k
  {
    if k > 0 {
      AbductionHistory(th, samples, states, finger, signal, k - 1);
      assert Follows(th, states[k - 1], samples[k - 1], states[k]);
    }
  }

  /** In every run, whatever the hand does, a curl, abduction or opposition state changes
      again only after its signal has moved by the width of its band. */
  lemma CurlChangesCost(th: PinchBands, samples: seq<Sample>, states: seq<Machine>, finger: nat,
                        signal: seq<real>, history: seq<FingerState>)
    requires IsRun(th, samples, states) && finger < FINGERS && |samples| == |signal| && |history| == |states|
    requires forall j | 0 <= j < |samples| :: SampleOk(samples[j]) && signal[j] == CurlAngle(samples[j], finger)
    requires forall j | 0 <= j < |states| ::
               |states[j].features.curl| == FINGERS && history[j] == states[j].features.curl[finger]
    ensures Cost(Flips(history), CurlBand(finger).width) <= Variation(signal, |signal|)
  {
    forall k | 1 <= k < |history|
      ensures history[k] == UpdateState(signal[k - 1], CurlBand(finger), history[k - 1])
    {
      assert Follows(th, states[k - 1], samples[k - 1], states[k]);
    }
    FlipsCostVariation(history, signal, CurlBand(finger));
  }

  lemma AbductionChangesCost(th: PinchBands, samples: seq<Sample>, states: seq<Machine>, finger: nat,
                             signal: seq<real>, history: seq<FingerState>)
    requires IsRun(th, samples, states) && finger < FINGERS - 1 && |samples| == |signal| && |history| == |states|
    requires forall j | 0 <= j < |samples| :: SampleOk(samples[j]) && signal[j] == samples[j].spread[finger]
    requires forall j | 0 <= j < |states| ::
               |states[j].features.abduction| == FINGERS && history[j] == states[j].features.abduction[finger]
    ensures Cost(Flips(history), AbductionBand(finger).width) <= Variation(signal, |signal|)
  {
    forall k | 1 <= k < |history|
      ensures history[k] == UpdateState(signal[k - 1], AbductionBand(finger), history[k - 1])
    {
      assert Follows(th, states[k - 1], samples[k - 1], states[k]);
    }
    FlipsCostVariation(history, signal, AbductionBand(finger));
  }

  ghost predicate BandsInOrder(th: PinchBands, w: real)
  {
    && InOrder(Band(th.closedAt, th.openAt, th.width), w) && InOrder(Band(th.moveClosedAt, th.openAt, th.moveWidth), w)
    && InOrder(Band(th.relaxClosedAt, th.openAt, th.relaxWidth), w)
  }

  /** Masked frames freeze the state, and the band in force may change from frame to frame: every
      change of state is paid for with a path of the least width, but for the first and one more
      at each change of band. */
  lemma OppositionChangesCost(th: PinchBands, samples: seq<Sample>, states: seq<Machine>, finger: nat,
                              signal: seq<real>, bands: seq<Band>, history: seq<FingerState>, w: real)
    requires IsRun(th, samples, states) && BandsInOrder(th, w) && w >= 0.0
    requires 0 < finger < FINGERS && |samples| == |signal| == |bands| && |history| == |states|
    requires forall j | 0 <= j < |samples| ::
               && SampleOk(samples[j]) && signal[j] == samples[j].distances[finger - 1]
               && bands[j] == BandInForce(th, samples[j])
    requires forall j | 0 <= j < |states| ::
               |states[j].features.opposition| == FINGERS && history[j] == states[j].features.opposition[finger]
    ensures Price(Flips(history), w) <= Variation(signal, |signal|) + Price(Switches(bands) + 1, w)
  {
    forall k | 1 <= k < |history|
      ensures history[k] == history[k - 1] || history[k] == UpdateState(signal[k - 1], bands[k - 1], history[k - 1])
    {
      OppositionMoves(th, states[k - 1], samples[k - 1], states[k], finger);
    }
    FlipsAcrossBands(history, signal, bands, w);
  }

  lemma OppositionMoves(th: PinchBands, m: Machine, x: Sample, m': Machine, finger: nat)
    requires Follows(th, m, x, m') && 0 < finger < FINGERS
    ensures FeaturesOk(m.features) && FeaturesOk(m'.features) && SampleOk(x)
    ensures var (before, after) := (m.features.opposition[finger], m'.features.opposition[finger]);
            after == before || after == UpdateState(x.distances[finger - 1], BandInForce(th, x), before)
  {
  }

  /** A change of band is free: with the shipped numbers there is a distance at which a finger is
      closed by one band and neutral by another. */
  lemma SwitchIsFree(s: FingerState)
    ensures var th := DEFAULT_BANDS;
            && BandsInOrder(th, 0.006)
            && UpdateState(0.0205, Band(th.relaxClosedAt, th.openAt, th.relaxWidth), s) == Closed
            && UpdateState(0.0205, Band(th.closedAt, th.openAt, th.width), s) == Neutral
  {
  }
}
