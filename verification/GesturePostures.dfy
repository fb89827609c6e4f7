/** What the recogniser makes of a hand, in degrees and metres of its joints and finger tips:
    a reference for the thresholds, the rules and their order, apart from how they are coded. */
module GesturePostures {
  import opened Collections
  import opened FingerState
  import opened Gesture

  // ----- what is measured

  /** How far the two outer joints of a finger are bent together; of the thumb, the last one. */
  function Bend(x: Sample, finger: nat): real
    requires finger < |x.angles|
  {
    if finger == 0 then x.angles[0].tip else x.angles[finger].middle + x.angles[finger].tip
  }

  /** How far a finger is bent where it starts. */
  function Lean(x: Sample, finger: nat): real
    requires finger < |x.angles|
  {
    if finger == 0 then x.angles[0].middle else x.angles[finger].base
  }

  /** Below `open` a finger is open, between `from` and `to` neutral, from `shut` on closed, and
      otherwise as it was. */
  function ByBend(bend: real, open: real, from: real, to: real, shut: real, before: FingerState): FingerState
  {
    if bend < open then Open else if from < bend < to then Neutral else if bend >= shut then Closed else before
  }

  function ByGap(gap: real, shut: real, from: real, to: real, open: real, before: FingerState): FingerState
  {
    if gap <= shut then Closed else if from < gap < to then Neutral else if gap > open then Open else before
  }

  /** The states of all fingers after a frame, in degrees.  A knuckle in doubt takes the new state
      of its finger, and the last gap never changes. */
  lemma FeaturesFollowJoints(th: PinchBands, m: Machine, x: Sample, m': Machine, finger: nat)
    requires Follows(th, m, x, m') && finger < FINGERS
    ensures FeaturesOk(m.features) && FeaturesOk(m'.features) && SampleOk(x)
    ensures m'.features.curl[finger] ==
              if finger == 0 then ByBend(Bend(x, 0), 20.0, 30.0, 35.0, 45.0, m.features.curl[0])
              else ByBend(Bend(x, finger), 45.0, 55.0, 95.0, 105.0, m.features.curl[finger])
    ensures m'.features.flexion[finger] ==
              if finger == 0 then ByBend(Lean(x, 0), 26.0, 34.0, 56.0, 64.0, m'.features.curl[0])
              else ByBend(Lean(x, finger), 31.0, 39.0, 66.0, 74.0, m'.features.curl[finger])
    ensures m'.features.abduction[finger] ==
              if finger == 0 then ByGap(x.spread[0], 19.0, 21.0, 34.0, 36.0, m.features.abduction[0])
              else if finger == 4 then m.features.abduction[4]
              else ByGap(x.spread[finger], 9.0, 11.0, 12.0, 14.0, m.features.abduction[finger])
  {
  }

  /** A hand is upright from 60 degrees on, as far as it is not level. */
  lemma OrientationFollowsAngle(th: PinchBands, m: Machine, x: Sample, m': Machine)
    requires Follows(th, m, x, m') && 0.0 <= x.handAngle <= 180.0
    ensures m'.features.orientation == if x.handAngle <= 30.0 then Horizontal else if x.handAngle < 60.0 then Other
                                       else if x.handAngle < 150.0 then Vertical else Horizontal
  {
  }

  // ----- frames without a measurement in doubt

  predicate Clear(v: real, open: real, from: real, to: real, shut: real) { v < open || from < v < to || v >= shut }

  predicate Between(v: real, from: real, to: real) { from < v < to }

  /** The thumb touches the index finger: by the relaxed band if the palm faces the eyes or one camera
      sees the hand, moving or not, otherwise by the wide band while the hand moves. */
  predicate Touches(th: PinchBands, x: Sample)
    requires |x.distances| > 0
  {
    x.distances[0] <=
      if x.toFace || x.mono then th.relaxClosedAt - th.relaxWidth / 2.0
      else if x.speed > 0.1 then th.moveClosedAt - th.moveWidth / 2.0
      else th.closedAt - th.width / 2.0
  }

  /** The tips of thumb and index finger are both behind the palm while a pinch goes on. */
  predicate TipsHidden(last: HandGesture, x: Sample) { last.Pinch? && x.thumbHidden && x.indexHidden && !x.toFace }

  ghost predicate InNoDoubt(th: PinchBands, x: Sample)
  {
    && SampleOk(x)
    && Clear(Bend(x, 0), 20.0, 30.0, 35.0, 45.0) && Clear(Lean(x, 0), 26.0, 34.0, 56.0, 64.0)
    && (forall i | 1 <= i < FINGERS ::
          Clear(Bend(x, i), 45.0, 55.0, 95.0, 105.0) && Clear(Lean(x, i), 31.0, 39.0, 66.0, 74.0))
    && (x.spread[0] <= 19.0 || Between(x.spread[0], 21.0, 34.0) || x.spread[0] > 36.0)
    && (x.spread[1] <= 9.0 || Between(x.spread[1], 11.0, 12.0) || x.spread[1] > 14.0)
    && (Touches(th, x) || Releases(BandInForce(th, x), x.distances[0]))
  }

  /** The fingers from the index finger on are all curled. */
  ghost predicate Fist(x: Sample)
    requires SampleOk(x)
  {
    forall i | 1 <= i < FINGERS :: Bend(x, i) >= 105.0
  }

  ghost predicate ThumbStraight(x: Sample)
    requires SampleOk(x)
  {
    Bend(x, 0) < 20.0
  }

  /** A finger that points: its outer joints are straight. */
  ghost predicate Straight(x: Sample, finger: nat)
    requires SampleOk(x) && 0 < finger < FINGERS
  {
    Bend(x, finger) < 45.0
  }

  /** A finger that is folded, at its outer joints or where it starts. */
  ghost predicate Folded(x: Sample, finger: nat)
    requires SampleOk(x) && 0 < finger < FINGERS
  {
    Bend(x, finger) >= 105.0 || Lean(x, finger) >= 74.0
  }

  /** A pinch goes on while thumb and index finger touch.  It starts when they touch and have come
      closer by more than half a millimetre since the last frame, if that was tracked as well, or when
      they are closer than a centimetre. */
  ghost predicate PinchShown(th: PinchBands, x: Sample, last: HandGesture, before: Option<real>)
    requires SampleOk(x)
  {
    if last.Pinch? then Touches(th, x)
    else
      || x.distances[0] < 0.01
      || (Touches(th, x) && x.tracked && (before.None? || x.distances[0] < before.value - 0.0005))
  }

  ghost predicate ClickShown(th: PinchBands, x: Sample)
    requires SampleOk(x)
  {
    && Straight(x, 1) && Bend(x, 2) >= 105.0 && Bend(x, 3) >= 105.0 && Bend(x, 4) >= 105.0 && !Touches(th, x)
    && (ThumbStraight(x) ==> x.spread[0] > 19.0 && x.thumbGap < 0.05)
  }

  ghost predicate OpenHandShown(x: Sample)
    requires SampleOk(x)
  {
    && ThumbStraight(x) && !Folded(x, 1)
    && forall i | 2 <= i < FINGERS :: Straight(x, i) && Lean(x, i) < 31.0
  }

  ghost predicate VictoryShown(x: Sample)
    requires SampleOk(x)
  {
    && Straight(x, 1) && Straight(x, 2) && Bend(x, 3) >= 105.0 && !Straight(x, 4)
    && x.spread[1] > 14.0 && !ThumbStraight(x)
  }

  ghost predicate CallShown(x: Sample)
    requires SampleOk(x)
  {
    ThumbStraight(x) && Folded(x, 1) && Folded(x, 2) && Folded(x, 3) && Bend(x, 4) < 105.0
  }

  ghost predicate HomeShown(x: Sample)
    requires SampleOk(x)
  {
    && (Bend(x, 0) >= 45.0 || Lean(x, 0) >= 64.0) && (forall i | 1 <= i < FINGERS :: Straight(x, i))
    && (0.0 <= x.handAngle <= 30.0 || 150.0 <= x.handAngle <= 180.0)
  }

  /** The gesture of a hand in no doubt.  A fist with the thumb straight is a thumb up only if the
      thumb points up and away, and is no gesture otherwise. */
  ghost function Shown(th: PinchBands, x: Sample, last: HandGesture, before: Option<real>): HandGesture
    requires SampleOk(x)
  {
    if PinchShown(th, x, last, before) then Pinch
    else if ClickShown(th, x) then Click
    else if Fist(x) && !ThumbStraight(x) then Grab
    else if Fist(x) && x.spread[0] > 36.0 && x.thumbUp then ThumbUp
    else if OpenHandShown(x) then OpenHand
    else if VictoryShown(x) then Victory
    else if CallShown(x) then Call
    else if HomeShown(x) then Home
    else Invalid
  }

  /** The features of a hand in no doubt say what its joints say, whatever they were before. */
  ghost predicate Reads(th: PinchBands, f: Features, x: Sample)
    requires SampleOk(x)
  {
    && FeaturesOk(f)
    && (f.curl[0].Open? <==> ThumbStraight(x)) && (f.curl[0].Closed? <==> Bend(x, 0) >= 45.0)
    && (forall i | 1 <= i < FINGERS ::
          (f.curl[i].Open? <==> Straight(x, i)) && (f.curl[i].Closed? <==> Bend(x, i) >= 105.0))
    && (f.flexion[0].Closed? <==> Lean(x, 0) >= 64.0)
    && (forall i | 1 <= i < FINGERS ::
          (f.flexion[i].Open? <==> Lean(x, i) < 31.0) && (f.flexion[i].Closed? <==> Lean(x, i) >= 74.0))
    && (f.abduction[0].Open? <==> x.spread[0] > 36.0) && (f.abduction[0].Closed? <==> x.spread[0] <= 19.0)
    && (f.abduction[1].Open? <==> x.spread[1] > 14.0)
    && (f.opposition[1].Closed? <==> Touches(th, x))
    && (f.orientation.Horizontal? <==> 0.0 <= x.handAngle <= 30.0 || 150.0 <= x.handAngle <= 180.0)
  }

  lemma FeaturesRead(th: PinchBands, m: Machine, x: Sample, m': Machine)
    requires Follows(th, m, x, m') && InNoDoubt(th, x) && !TipsHidden(m.last, x)
    ensures Reads(th, m'.features, x)
  {
    FeaturesFollowJoints(th, m, x, m', 0);
    FeaturesFollowJoints(th, m, x, m', 1);
    forall i | 1 <= i < FINGERS
      ensures var f := m'.features;
              && (f.curl[i].Open? <==> Straight(x, i)) && (f.curl[i].Closed? <==> Bend(x, i) >= 105.0)
              && (f.flexion[i].Open? <==> Lean(x, i) < 31.0) && (f.flexion[i].Closed? <==> Lean(x, i) >= 74.0)
    {
      FeaturesFollowJoints(th, m, x, m', i);
    }
    assert m'.features.opposition[1] == UpdateState(x.distances[0], BandInForce(th, x), m.features.opposition[1]);
  }

  lemma PinchReads(th: PinchBands, f: Features, x: Sample, last: HandGesture, before: Option<real>)
    requires SampleOk(x) && Reads(th, f, x)
    ensures PinchRule(f, x, last, PinchVelocity(x, before)) <==> PinchShown(th, x, last, before)
  {
  }

  lemma FistReads(th: PinchBands, f: Features, x: Sample, last: HandGesture, v: real)
    requires SampleOk(x) && Reads(th, f, x)
    ensures Matches(Click, f, x, last, v) <==> ClickShown(th, x)
    ensures Matches(Grab, f, x, last, v) <==> Fist(x) && !ThumbStraight(x)
    ensures Matches(ThumbUp, f, x, last, v) <==> Fist(x) && x.spread[0] > 36.0 && x.thumbUp
  {
  }

  lemma OpenReads(th: PinchBands, f: Features, x: Sample, last: HandGesture, v: real)
    requires SampleOk(x) && Reads(th, f, x)
    ensures Matches(OpenHand, f, x, last, v) <==> OpenHandShown(x)
    ensures Matches(Victory, f, x, last, v) <==> VictoryShown(x)
  {
  }

  lemma SignReads(th: PinchBands, f: Features, x: Sample, last: HandGesture, v: real)
    requires SampleOk(x) && Reads(th, f, x)
    ensures Matches(Call, f, x, last, v) <==> CallShown(x)
    ensures Matches(Home, f, x, last, v) <==> HomeShown(x)
  {
  }

  /** The rules of the recogniser and their order, from the features of such a hand. */
  lemma RulesRead(th: PinchBands, f: Features, x: Sample, last: HandGesture, before: Option<real>, g: HandGesture)
    requires SampleOk(x) && Reads(th, f, x) && IsFirstMatch(g, f, x, last, PinchVelocity(x, before))
    ensures g == Shown(th, x, last, before)
  {
    var v := PinchVelocity(x, before);
    FirstMatch(g, f, x, last, v);
    PinchReads(th, f, x, last, before);
    FistReads(th, f, x, last, v);
    OpenReads(th, f, x, last, v);
    SignReads(th, f, x, last, v);
  }

  lemma FirstMatch(g: HandGesture, f: Features, x: Sample, last: HandGesture, v: real)
    requires FeaturesOk(f) && SampleOk(x) && IsFirstMatch(g, f, x, last, v)
    ensures g == if Matches(Pinch, f, x, last, v) then Pinch
                 else if Matches(Click, f, x, last, v) then Click
                 else if Matches(Grab, f, x, last, v) then Grab
                 else if Matches(ThumbUp, f, x, last, v) then ThumbUp
                 else if Matches(OpenHand, f, x, last, v) then OpenHand
                 else if Matches(Victory, f, x, last, v) then Victory
                 else if Matches(Call, f, x, last, v) then Call
                 else if Matches(Home, f, x, last, v) then Home else Invalid
  {
    assert ORDER[0] == Pinch && ORDER[1] == Click && ORDER[2] == Grab && ORDER[3] == ThumbUp;
    assert ORDER[4] == OpenHand && ORDER[5] == Victory && ORDER[6] == Call && ORDER[7] == Home;
  }

  /** On a frame in no doubt and not masked, in any run, the gesture is the one that the joints and
      the tips show.  Of the past it depends only on whether there was a pinch, and on how far apart
      thumb and index finger were in the last tracked frame. */
  lemma SettledFrame(th: PinchBands, samples: seq<Sample>, states: seq<Machine>, k: nat)
    requires IsRun(th, samples, states) && k < |samples|
    requires InNoDoubt(th, samples[k]) && !TipsHidden(states[k].last, samples[k])
    ensures states[k + 1].last == Shown(th, samples[k], states[k].last, states[k].distance)
    ensures states[k].distance == if k > 0 && samples[k - 1].tracked && SampleOk(samples[k - 1])
                                  then Some(samples[k - 1].distances[0]) else None
  {
    var (m, x, m') := (states[k], samples[k], states[k + 1]);
    assert Follows(th, m, x, m');
    FeaturesRead(th, m, x, m');
    RulesRead(th, m'.features, x, m.last, m.distance, m'.last);
    if k > 0 {
      assert Follows(th, states[k - 1], samples[k - 1], m);
    }
  }
}
