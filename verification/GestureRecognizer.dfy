/** The gesture recogniser as the object that the calculators call, its loops tied to the
    steps of `Gesture`. */
module GestureRecognizer {
  import opened Collections
  import opened FingerState
  import opened Gesture

  class GestureRecognizer {
    var bands: PinchBands
    var curl: seq<FingerState>
    var flexion: seq<FingerState>
    var abduction: seq<FingerState>
    var opposition: seq<FingerState>
    var orientation: Orientation
    var last: HandGesture
    var distance: Option<real>

    ghost function Abs(): Machine
      reads this
    {
      Machine(Features(curl, flexion, abduction, opposition, orientation), last, distance)
    }

    ghost predicate Valid()
      reads this
    {
      FeaturesOk(Abs().features)
    }

    constructor ()
      ensures Valid() && Abs() == INIT && bands == DEFAULT_BANDS
    {
      bands := DEFAULT_BANDS;
      curl, flexion, abduction, opposition := UNKNOWN, UNKNOWN, UNKNOWN, UNKNOWN;
      orientation, last, distance := Undefined, Invalid, None;
    }

    method UpdateCurl(x: Sample)
      requires Valid() && SampleOk(x)
      modifies this`curl
      ensures curl == CurlStep(old(curl), x)
    {
      var list := curl[0 := UpdateState(180.0 - x.angles[0].tip, CURL_THUMB, curl[0])];
      for id := 0 to FINGERS - 1
        invariant |list| == FINGERS
        invariant forall i | 0 <= i < FINGERS ::
                    list[i] == if i <= id then UpdateState(CurlAngle(x, i), CurlBand(i), curl[i]) else curl[i]
      {
        var angle := 180.0 - x.angles[id + 1].middle - x.angles[id + 1].tip;
        list := list[id + 1 := UpdateState(angle, CURL_OTHER, list[id + 1])];
      }
      curl := list;
    }

    /** The update starts from the curl states, not from the previous flexion states. */
    method UpdateFlexion(x: Sample)
      requires Valid() && SampleOk(x)
      modifies this`flexion
      ensures flexion == FlexionStep(curl, x)
    {
      var list := curl[0 := UpdateState(180.0 - x.angles[0].middle, FLEXION_THUMB, curl[0])];
      for id := 0 to FINGERS - 1
        invariant |list| == FINGERS
        invariant forall i | 0 <= i < FINGERS ::
                    list[i] == if i <= id then UpdateState(FlexionAngle(x, i), FlexionBand(i), curl[i]) else curl[i]
      {
        list := list[id + 1 := UpdateState(180.0 - x.angles[id + 1].base, FLEXION_OTHER, list[id + 1])];
      }
      flexion := list;
    }

    method UpdateAbduction(x: Sample)
      requires Valid() && SampleOk(x)
      modifies this`abduction
      ensures abduction == AbductionStep(old(abduction), x)
    {
      var list := abduction[0 := UpdateState(x.spread[0], ABDUCTION_THUMB, abduction[0])];
      for id := 0 to FINGERS - 2
        invariant |list| == FINGERS
        invariant forall i | 0 <= i < FINGERS ::
                    list[i] == if i <= id then UpdateState(x.spread[i], AbductionBand(i), abduction[i])
                               else abduction[i]
      {
        list := list[id + 1 := UpdateState(x.spread[id + 1], ABDUCTION_OTHER, list[id + 1])];
      }
      abduction := list;
    }

    method UpdateOpposition(x: Sample)
      requires Valid() && SampleOk(x)
      modifies this`opposition
      ensures opposition == OppositionStep(old(opposition), x, BandInForce(bands, x))
    {
      var (closedAt, width) := (bands.closedAt, bands.width);
      if x.speed > MOVE_SPEED {
        closedAt, width := bands.moveClosedAt, bands.moveWidth;
      }
      if x.toFace || x.mono {
        closedAt, width := bands.relaxClosedAt, bands.relaxWidth;
      }
      var band := Band(closedAt, bands.openAt, width);
      var list := opposition;
      for id := 0 to FINGERS - 1
        invariant |list| == FINGERS
        invariant forall i | 0 <= i < FINGERS ::
                    list[i] == if 1 <= i <= id then UpdateState(x.distances[i - 1], band, opposition[i])
                               else opposition[i]
      {
        list := list[id + 1 := UpdateState(x.distances[id], band, list[id + 1])];
      }
      opposition := list;
    }

    method UpdateFeatures(x: Sample)
      requires Valid() && SampleOk(x)
      modifies this`curl, this`flexion, this`abduction, this`opposition, this`orientation
      ensures Valid() && Abs().features == FeatureStep(bands, old(Abs()).features, last, x)
    {
      UpdateCurl(x);
      UpdateFlexion(x);
      UpdateAbduction(x);
      if !(x.thumbHidden && x.indexHidden && !x.toFace && last.Pinch?) {
        UpdateOpposition(x);
      }
      orientation := OrientationOf(x.handAngle);
    }

    /** Try the rules in the order of the gestures. */
    method Classify(x: Sample, velocity: real) returns (g: HandGesture)
      requires Valid() && SampleOk(x)
      ensures IsFirstMatch(g, Abs().features, x, last, velocity)
    {
      var f := Features(curl, flexion, abduction, opposition, orientation);
      for i := 0 to |ORDER|
        invariant forall j | 0 <= j < i :: !Matches(ORDER[j], f, x, last, velocity)
      {
        if Matches(ORDER[i], f, x, last, velocity) {
          return ORDER[i];
        }
      }
      return Invalid;
    }

    method Predict(x: Sample) returns (g: HandGesture)
      requires Valid() && SampleOk(x)
      modifies this
      ensures Valid() && bands == old(bands) && g == last
      ensures Follows(bands, old(Abs()), x, Abs())
    {
      var velocity := PinchVelocity(x, distance);
      distance := if x.tracked then Some(x.distances[0]) else None;
      UpdateFeatures(x);
      g := Classify(x, velocity);
      last := g;
    }
  }
}
