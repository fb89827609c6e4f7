/** The hand-over between the one-camera and the two-camera hand models.

    When a hand that was valid in the previous frame is seen by the other model, the new
    points are shifted rigidly so that the hand does not jump, and the shift fades out over
    30 frames.  Points are computed in the left camera and published in the world. */
module HandBlend {
  import opened Collections
  import opened Geometry
  import opened CoordTransform
  import opened CameraFrames

  const SMOOTH_TOTAL_FRAMES: nat := 30
  const KEYPOINTS: nat := 26

  datatype Source = Unknown | Mono | Bino

  /** `smooth` is the number of blended frames still to come. */
  datatype Hand = Hand(points: seq<Vec3>, source: Source, smooth: nat)

  /** The hand stored for the next frame, in the world. */
  datatype Stored = Stored(valid: bool, hand: Hand)

  /** Camera to head, by way of the graphics frame of the left camera. */
  datatype Rig = Rig(cvToGl: Isometry, leftToHead: Isometry)

  ghost predicate RigOk(rig: Rig, head: Isometry)
  {
    IsRigid(rig.cvToGl) && IsRigid(rig.leftToHead) && IsRigid(head)
  }

  // ----- conversions

  function CamToWorld(rig: Rig, head: Isometry, p: Vec3): Vec3
  {
    Apply(head, Apply(rig.leftToHead, Apply(rig.cvToGl, p)))
  }

  function WorldToCam(rig: Rig, head: Isometry, p: Vec3): Vec3
  {
    Apply(Inverse(rig.cvToGl), Apply(Inverse(rig.leftToHead), Apply(Inverse(head), p)))
  }

  function AllToWorld(rig: Rig, head: Isometry, points: seq<Vec3>): seq<Vec3>
  {
    seq(|points|, i requires 0 <= i < |points| => CamToWorld(rig, head, points[i]))
  }

  lemma ApplyInverse(f: Isometry, p: Vec3)
    requires IsRigid(f)
    ensures Apply(f, Apply(Inverse(f), p)) == p && Apply(Inverse(f), Apply(f, p)) == p
  {
    ComposeInverse(f);
    ApplyCompose(f, Inverse(f), p);
    ApplyCompose(Inverse(f), f, p);
    assert Apply(IDENTITY, p) == p;
  }

  /** Re-expressing world points in the camera and publishing them again changes nothing. */
  lemma WorldRoundTrip(rig: Rig, head: Isometry, p: Vec3)
    requires RigOk(rig, head)
    ensures CamToWorld(rig, head, WorldToCam(rig, head, p)) == p
    ensures WorldToCam(rig, head, CamToWorld(rig, head, p)) == p
  {
    var q := Apply(Inverse(head), p);
    ApplyInverse(head, p);
    ApplyInverse(rig.leftToHead, q);
    ApplyInverse(rig.cvToGl, Apply(Inverse(rig.leftToHead), q));
    var u := Apply(rig.cvToGl, p);
    ApplyInverse(rig.cvToGl, p);
    ApplyInverse(rig.leftToHead, u);
    ApplyInverse(head, Apply(rig.leftToHead, u));
  }

  /** The point at fraction k on the way from p to q. */
  function Between(p: Vec3, q: Vec3, k: real): Vec3 { Add(p, Scale(k, Sub(q, p))) }

  lemma ApplyBetween(f: Isometry, p: Vec3, q: Vec3, k: real)
    ensures Apply(f, Between(p, q, k)) == Between(Apply(f, p), Apply(f, q), k)
  {
    MulVecAdd(f.r, p, Scale(k, Sub(q, p)));
    MulVecScale(f.r, k, Sub(q, p));
    MulVecSub(f.r, q, p);
    assert Sub(Apply(f, q), Apply(f, p)) == Sub(MulVec(f.r, q), MulVec(f.r, p));
  }

  lemma MulVecSub(m: Mat3, u: Vec3, v: Vec3)
    ensures MulVec(m, Sub(u, v)) == Sub(MulVec(m, u), MulVec(m, v))
  {
  }

  lemma WorldBetween(rig: Rig, head: Isometry, p: Vec3, q: Vec3, k: real)
    ensures CamToWorld(rig, head, Between(p, q, k)) == Between(CamToWorld(rig, head, p), CamToWorld(rig, head, q), k)
  {
    ApplyBetween(rig.cvToGl, p, q, k);
    var (p1, q1) := (Apply(rig.cvToGl, p), Apply(rig.cvToGl, q));
    ApplyBetween(rig.leftToHead, p1, q1, k);
    ApplyBetween(head, Apply(rig.leftToHead, p1), Apply(rig.leftToHead, q1), k);
  }

  lemma ApplyDifference(f: Isometry, p: Vec3, q: Vec3, p': Vec3, q': Vec3)
    requires Sub(p, q) == Sub(p', q')
    ensures Sub(Apply(f, p), Apply(f, q)) == Sub(Apply(f, p'), Apply(f, q'))
  {
    MulVecSub(f.r, p, q);
    MulVecSub(f.r, p', q');
  }

  lemma WorldDifference(rig: Rig, head: Isometry, p: Vec3, q: Vec3, p': Vec3, q': Vec3)
    requires Sub(p, q) == Sub(p', q')
    ensures Sub(CamToWorld(rig, head, p), CamToWorld(rig, head, q)) ==
            Sub(CamToWorld(rig, head, p'), CamToWorld(rig, head, q'))
  {
    ApplyDifference(rig.cvToGl, p, q, p', q');
    ApplyDifference(rig.leftToHead, Apply(rig.cvToGl, p), Apply(rig.cvToGl, q), Apply(rig.cvToGl, p'),
                    Apply(rig.cvToGl, q'));
    ApplyDifference(head, Apply(rig.leftToHead, Apply(rig.cvToGl, p)), Apply(rig.leftToHead, Apply(rig.cvToGl, q)),
                    Apply(rig.leftToHead, Apply(rig.cvToGl, p')), Apply(rig.leftToHead, Apply(rig.cvToGl, q')));
  }

  // ----- one frame

  /** The two calculators use the same rule, each for its own source. */
  function BlendCount(stored: Stored, source: Source): nat
  {
    if stored.valid && stored.hand.source != source && stored.hand.source != Unknown then SMOOTH_TOTAL_FRAMES
    else if stored.valid && stored.hand.source == source then stored.hand.smooth
    else 0
  }

  function Shift(stored: Stored, rig: Rig, head: Isometry, raw: seq<Vec3>, count: nat): Vec3
    requires |raw| == KEYPOINTS && |stored.hand.points| == KEYPOINTS
  {
    Scale(count as real / 30.0, Sub(WorldToCam(rig, head, stored.hand.points[0]), raw[0]))
  }

  function ShiftAll(points: seq<Vec3>, shift: Vec3): seq<Vec3>
  {
    seq(|points|, i requires 0 <= i < |points| => Add(points[i], shift))
  }

  /** The hand computed in the camera for this frame. */
  function Blended(stored: Stored, rig: Rig, head: Isometry, source: Source, raw: seq<Vec3>): Hand
    requires |raw| == KEYPOINTS && (stored.valid ==> |stored.hand.points| == KEYPOINTS)
  {
    var count := BlendCount(stored, source);
    if count > 0 then Hand(ShiftAll(raw, Shift(stored, rig, head, raw, count)), source, count - 1)
    else Hand(raw, source, 0)
  }

  /** The branch of the calculators that smooths a hand, shifting the points in place. */
  method SmoothHand(points: array<Vec3>, stored: Stored, rig: Rig, head: Isometry, source: Source) returns (smooth: nat)
    requires points.Length == KEYPOINTS && source != Unknown && (stored.valid ==> |stored.hand.points| == KEYPOINTS)
    modifies points
    ensures Hand(points[..], source, smooth) == Blended(stored, rig, head, source, old(points[..]))
  {
    smooth := 0;
    if stored.valid && stored.hand.source != source && stored.hand.source != Unknown {
      smooth := SMOOTH_TOTAL_FRAMES;
    } else if stored.valid && stored.hand.source == source && stored.hand.smooth > 0 {
      smooth := stored.hand.smooth;
    }
    if smooth > 0 {
      ghost var raw := points[..];
      var delta := smooth as real / 30.0;
      var shift := Scale(delta, Sub(WorldToCam(rig, head, stored.hand.points[0]), points[0]));
      for i := 0 to KEYPOINTS
        invariant forall k :: 0 <= k < KEYPOINTS ==> points[k] == if k < i then Add(raw[k], shift) else raw[k]
      {
        points[i] := Add(points[i], shift);
      }
      assert points[..] == ShiftAll(raw, shift);
      smooth := smooth - 1;
    }
  }

  // ----- whole runs

  /** What reaches the hand in one frame: the points of the model that saw it, if any, and
      whether the hard rules then reject it. */
  datatype Input = Input(seen: Option<(Source, seq<Vec3>)>, rejected: bool, rig: Rig, head: Isometry)

  ghost predicate InputOk(i: Input)
  {
    && RigOk(i.rig, i.head)
    && (i.seen.Some? ==> i.seen.value.0 != Unknown && |i.seen.value.1| == KEYPOINTS)
  }

  ghost predicate StoredOk(s: Stored)
  {
    && (s.valid ==> |s.hand.points| == KEYPOINTS && s.hand.source != Unknown)
    && s.hand.smooth < SMOOTH_TOTAL_FRAMES
  }

  const NO_HAND := Stored(false, Hand([], Unknown, 0))

  /** The frame as stored for the next one: blended, rejected or not, moved to the world. */
  function Next(s: Stored, i: Input): Stored
    requires (s.valid ==> |s.hand.points| == KEYPOINTS) && (i.seen.Some? ==> |i.seen.value.1| == KEYPOINTS)
  {
    if i.seen.None? then NO_HAND
    else
      var hand := Blended(s, i.rig, i.head, i.seen.value.0, i.seen.value.1);
      if i.rejected then Stored(false, hand)
      else Stored(true, hand.(points := AllToWorld(i.rig, i.head, hand.points)))
  }

  lemma NextOk(s: Stored, i: Input)
    requires StoredOk(s) && InputOk(i)
    ensures StoredOk(Next(s, i))
  {
  }

  /** The world points this frame would have without blending. */
  ghost function RawWorld(i: Input): seq<Vec3>
    requires i.seen.Some?
  {
    AllToWorld(i.rig, i.head, i.seen.value.1)
  }

  ghost predicate Accepted(i: Input) { i.seen.Some? && !i.rejected }

  /** A frame published with `count` blended frames to go, this one included.  The root lies
      on the segment from the raw root to the previous one, at the fraction given by the
      count; the hand has the shape of the raw hand, and with no count left it is raw. */
  ghost predicate IsBlended(before: Stored, after: Stored, i: Input, count: nat)
    requires i.seen.Some?
  {
    var raw := RawWorld(i);
    && after.valid && |after.hand.points| == |raw| == KEYPOINTS
    && (count > 0 ==> before.valid && |before.hand.points| == KEYPOINTS &&
                      after.hand.points[0] == Between(raw[0], before.hand.points[0], count as real / 30.0))
    && (count == 0 ==> after.hand.points == raw)
    && (forall m, n | 0 <= m < KEYPOINTS && 0 <= n < KEYPOINTS ::
          Sub(after.hand.points[m], after.hand.points[n]) == Sub(raw[m], raw[n]))
  }

  lemma PublishedHand(s: Stored, i: Input)
    requires StoredOk(s) && InputOk(i) && Accepted(i)
    ensures var (t, count) := (Next(s, i), BlendCount(s, i.seen.value.0));
            && IsBlended(s, t, i, count) && count <= SMOOTH_TOTAL_FRAMES
            && t.hand.source == i.seen.value.0
            && t.hand.smooth == if count > 0 then count - 1 else 0
  {
    var points := i.seen.value.1;
    var count := BlendCount(s, i.seen.value.0);
    if count > 0 {
      var shift := Shift(s, i.rig, i.head, points, count);
      var target := WorldToCam(i.rig, i.head, s.hand.points[0]);
      WorldBetween(i.rig, i.head, points[0], target, count as real / 30.0);
      WorldRoundTrip(i.rig, i.head, s.hand.points[0]);
      forall m, n | 0 <= m < KEYPOINTS && 0 <= n < KEYPOINTS
        ensures Sub(CamToWorld(i.rig, i.head, Add(points[m], shift)),
                    CamToWorld(i.rig, i.head, Add(points[n], shift))) ==
                Sub(CamToWorld(i.rig, i.head, points[m]), CamToWorld(i.rig, i.head, points[n]))
      {
        WorldDifference(i.rig, i.head, Add(points[m], shift), Add(points[n], shift), points[m], points[n]);
      }
    }
  }

  /** Switching models on a hand that was valid publishes the root where it was. */
  lemma SwitchKeepsRoot(s: Stored, i: Input)
    requires StoredOk(s) && InputOk(i) && Accepted(i)
    requires s.valid && s.hand.source != i.seen.value.0
    ensures Next(s, i).hand.points[0] == s.hand.points[0]
    ensures Next(s, i).hand.smooth == SMOOTH_TOTAL_FRAMES - 1
  {
    PublishedHand(s, i);
    var raw := RawWorld(i)[0];
    assert Between(raw, s.hand.points[0], 1.0) == s.hand.points[0];
  }

  /** Frames that go on with the same model, none of them rejected. */
  ghost predicate Steady(inputs: seq<Input>, source: Source)
  {
    forall k | 0 <= k < |inputs| :: InputOk(inputs[k]) && Accepted(inputs[k]) && inputs[k].seen.value.0 == source
  }

  ghost function Run(s: Stored, inputs: seq<Input>): (t: Stored)
    requires StoredOk(s) && forall k | 0 <= k < |inputs| :: InputOk(inputs[k])
    ensures StoredOk(t)
    decreases |inputs|
  {
    if inputs == [] then s
    else
      NextOk(Run(s, inputs[..|inputs| - 1]), inputs[|inputs| - 1]);
      Next(Run(s, inputs[..|inputs| - 1]), inputs[|inputs| - 1])
  }

  /** After k frames of the other model the count left is 30 - k, and never below zero. */
  lemma {:induction false} CountsDown(s: Stored, frames: seq<Input>, source: Source)
    requires StoredOk(s) && s.valid && s.hand.source != source && Steady(frames, source)
    ensures var t := Run(s, frames);
            && t.valid
            && (frames == [] ==> t == s)
            && (frames != [] ==> t.hand.source == source && t.hand.smooth == Left(|frames|))
    decreases |frames|
  {
    if frames != [] {
      var (rest, last) := (frames[..|frames| - 1], frames[|frames| - 1]);
      CountsDown(s, rest, source);
      PublishedHand(Run(s, rest), last);
      NextOk(Run(s, rest), last);
    }
  }

  function Left(frames: nat): nat { if frames < SMOOTH_TOTAL_FRAMES then SMOOTH_TOTAL_FRAMES - frames else 0 }

  /** A whole hand-over, from any state a run can reach: a hand valid in the previous frame
      is taken over by the other model and stays with it.  Frame k is blended by
      (30 - k) / 30, so the first one publishes the old root and frame 30 and all later
      ones are raw; every frame keeps the shape of the raw hand. */
  lemma HandOver(s: Stored, frames: seq<Input>, source: Source, k: nat)
    requires StoredOk(s) && s.valid && s.hand.source != source
    requires Steady(frames, source) && k < |frames|
    ensures IsBlended(Run(s, frames[..k]), Run(s, frames[..k + 1]), frames[k], Left(k))
    ensures k == 0 ==> Run(s, frames[..1]).hand.points[0] == s.hand.points[0]
  {
    assert frames[..k + 1][..k] == frames[..k];
    CountsDown(s, frames[..k], source);
    var before := Run(s, frames[..k]);
    assert Run(s, frames[..k + 1]) == Next(before, frames[k]);
    assert BlendCount(before, source) == Left(k);
    PublishedHand(before, frames[k]);
    if k == 0 { SwitchKeepsRoot(before, frames[k]); }
  }

  /** The model that saw the hand in a frame, unless the frame ended without the hand. */
  ghost function SourceOf(i: Input): Source { if Accepted(i) then i.seen.value.0 else Unknown }

  /** What a frame leaves for the next one is a valid hand exactly if it saw the hand and did
      not reject it. */
  lemma {:induction false} ValidIffAccepted(s: Stored, frames: seq<Input>)
    requires StoredOk(s) && frames != [] && forall k | 0 <= k < |frames| :: InputOk(frames[k])
    ensures var (t, last) := (Run(s, frames), frames[|frames| - 1]);
            t.valid <==> Accepted(last)
    ensures var (t, last) := (Run(s, frames), frames[|frames| - 1]);
            t.valid ==> t.hand.source == SourceOf(last)
  {
    var (rest, last) := (frames[..|frames| - 1], frames[|frames| - 1]);
    var before := Run(s, rest);
    assert Run(s, frames) == Next(before, last);
    if Accepted(last) { PublishedHand(before, last); }
  }

  /** From a frame that ended without the hand on, the hand is published as it was measured,
      for as long as the same model sees it. */
  lemma {:induction false} FreshHandIsRaw(s: Stored, frames: seq<Input>, source: Source, k: nat)
    requires StoredOk(s) && !s.valid && Steady(frames, source) && k < |frames|
    ensures var t := Run(s, frames[..k + 1]);
            && IsBlended(Run(s, frames[..k]), t, frames[k], 0)
            && t.hand.source == source && t.hand.smooth == 0
    decreases k
  {
    var before := Run(s, frames[..k]);
    if k > 0 {
      FreshHandIsRaw(s, frames, source, k - 1);
    } else {
      assert frames[..0] == [];
    }
    assert frames[..k + 1][..k] == frames[..k];
    assert Run(s, frames[..k + 1]) == Next(before, frames[k]);
    assert BlendCount(before, source) == 0;
    PublishedHand(before, frames[k]);
  }

  /** Running the frames from s ends in t. */
  ghost predicate Leads(s: Stored, frames: seq<Input>, t: Stored)
  {
    StoredOk(s) && StoredOk(t) && AllOk(frames) && t == Run(s, frames)
  }

  ghost predicate Follows(s: Stored, i: Input, t: Stored) { StoredOk(s) && InputOk(i) && t == Next(s, i) }

  lemma LeadsMore(s: Stored, frames: seq<Input>, t: Stored, last: Input, u: Stored)
    requires Leads(s, frames, t) && Follows(t, last, u)
    ensures Leads(s, frames + [last], u)
  {
    NextOk(t, last);
    assert (frames + [last])[..|frames|] == frames;
  }

  lemma LeadsLast(s: Stored, frames: seq<Input>, u: Stored) returns (t: Stored)
    requires Leads(s, frames, u) && frames != []
    ensures Leads(s, frames[..|frames| - 1], t) && Follows(t, frames[|frames| - 1], u)
  {
    t := Run(s, frames[..|frames| - 1]);
  }

  lemma {:induction false} LeadsOn(s: Stored, frames: seq<Input>, t: Stored, more: seq<Input>, u: Stored)
    requires Leads(s, frames, t) && Leads(t, more, u)
    ensures Leads(s, frames + more, u)
    decreases |more|
  {
    if more == [] {
      assert frames + more == frames;
    } else {
      var (rest, last) := (more[..|more| - 1], more[|more| - 1]);
      var v := LeadsLast(t, more, u);
      LeadsOn(s, frames, t, rest, v);
      LeadsMore(s, frames + rest, v, last, u);
      assert (frames + rest) + [last] == frames + more;
    }
  }

  ghost predicate AllOk(frames: seq<Input>) { forall i | 0 <= i < |frames| :: InputOk(frames[i]) }

  lemma BlendFrom(s: Stored, frames: seq<Input>, source: Source, k: nat)
    requires StoredOk(s) && Steady(frames, source) && k < |frames| && (s.valid ==> s.hand.source != source)
    ensures IsBlended(Run(s, frames[..k]), Run(s, frames[..k + 1]), frames[k], if s.valid then Left(k) else 0)
  {
    if s.valid {
      HandOver(s, frames, source, k);
    } else {
      FreshHandIsRaw(s, frames, source, k);
    }
  }

  /** A run that starts without a hand. */
  ghost function FromStart(frames: seq<Input>): (t: Stored)
    requires AllOk(frames)
    ensures StoredOk(t)
  {
    Run(NO_HAND, frames)
  }

  lemma StartSplit(frames: seq<Input>, j: nat, k: nat)
    requires j <= k <= |frames| && AllOk(frames)
    ensures AllOk(frames[..j]) && AllOk(frames[..k]) && AllOk(frames[j..k])
    ensures FromStart(frames[..k]) == Run(FromStart(frames[..j]), frames[j..k])
  {
    var t := FromStart(frames[..j]);
    LeadsOn(NO_HAND, frames[..j], t, frames[j..k], Run(t, frames[j..k]));
    assert frames[..j] + frames[j..k] == frames[..k];
  }

  /** The blending of every frame of every run, from the frames alone.  Let one model see the
      hand in frames j to k, none of them rejected.  If frame j - 1 was the other model's, frame
      k is blended by (30 - (k - j)) / 30; if frame j - 1 did not see the hand or rejected it, or
      there was none, the hand is published as measured, even if the other model saw it in a
      frame before. */
  lemma BlendFromFrames(frames: seq<Input>, j: nat, k: nat, source: Source)
    requires j <= k < |frames| && AllOk(frames) && Steady(frames[j..k + 1], source)
    requires j > 0 ==> SourceOf(frames[j - 1]) != source
    ensures AllOk(frames[..k]) && AllOk(frames[..k + 1])
    ensures var count := if j > 0 && Accepted(frames[j - 1]) then Left(k - j) else 0;
            IsBlended(FromStart(frames[..k]), FromStart(frames[..k + 1]), frames[k], count)
  {
    StartSplit(frames, j, k);
    StartSplit(frames, j, k + 1);
    StartValid(frames, j);
    Window(frames, j, k);
    BlendFrom(FromStart(frames[..j]), frames[j..k + 1], source, k - j);
  }

  lemma Window(frames: seq<Input>, j: nat, k: nat)
    requires j <= k < |frames|
    ensures var rest := frames[j..k + 1];
            |rest| == k - j + 1 && rest[..k - j] == frames[j..k] && rest[..k - j + 1] == rest && rest[k - j] == frames[k]
  {
  }

  lemma StartValid(frames: seq<Input>, j: nat)
    requires j <= |frames| && AllOk(frames)
    ensures AllOk(frames[..j])
    ensures var s := FromStart(frames[..j]);
            && (s.valid <==> j > 0 && Accepted(frames[j - 1]))
            && (s.valid ==> s.hand.source == SourceOf(frames[j - 1]))
  {
    if j > 0 {
      ValidIffAccepted(NO_HAND, frames[..j]);
    }
  }

  /** The conversions of the program go through the table of the frame service; for a table
      that a placement implies they are the conversions above. */
  lemma TableConversions(service: CoordTransformService, poses: seq<Isometry>, head: Isometry, p: Vec3)
    requires service.Valid() && service.n == FRAMES && ArePoses(poses, FRAMES) && service.Implied(poses)
    requires IsRigid(head)
    ensures var t := service.transforms;
            var rig := Rig(t[CV_LEFT_CAM, GL_LEFT_CAM], t[GL_LEFT_CAM, GL_HEAD]);
            && RigOk(rig, head)
            && WorldToCam(rig, head, p) ==
                 Apply(t[GL_LEFT_CAM, CV_LEFT_CAM], Apply(t[GL_HEAD, GL_LEFT_CAM], Apply(Inverse(head), p)))
  {
    service.TableLaws(poses, CV_LEFT_CAM, GL_LEFT_CAM, GL_HEAD, p);
    service.TableLaws(poses, GL_LEFT_CAM, GL_HEAD, GL_HEAD, p);
    RelativeInverse(poses, CV_LEFT_CAM, GL_LEFT_CAM);
    RelativeInverse(poses, GL_LEFT_CAM, GL_HEAD);
  }
}
