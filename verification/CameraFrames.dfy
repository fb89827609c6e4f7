/** The one client of the frame service: the camera set-up registers four pairs of the five
    frames and completes the table. */
module CameraFrames {
  import opened Geometry
  import opened CoordTransform

  const CV_LEFT_CAM: nat := 0
  const GL_LEFT_CAM: nat := 1
  const GL_HEAD: nat := 2
  const GL_RIGHT_CAM: nat := 3
  const CV_RIGHT_CAM: nat := 4
  const FRAMES: nat := 5

  function Registrations(glCv: Isometry, leftRight: Isometry, headLeft: Isometry): seq<Registration>
  {
    [Registration(CV_LEFT_CAM, GL_LEFT_CAM, glCv), Registration(GL_RIGHT_CAM, GL_LEFT_CAM, leftRight),
     Registration(GL_LEFT_CAM, GL_HEAD, headLeft), Registration(CV_RIGHT_CAM, GL_RIGHT_CAM, glCv)]
  }

  lemma RegisteredSteps(regs: seq<Registration>)
    requires |regs| == 4
    ensures Registered(regs[..0]) == map[]
    ensures Registered(regs[..1]) == Register(map[], regs[0])
    ensures Registered(regs[..2]) == Register(Registered(regs[..1]), regs[1])
    ensures Registered(regs[..3]) == Register(Registered(regs[..2]), regs[2])
    ensures Registered(regs) == Register(Registered(regs[..3]), regs[3])
  {
    assert regs[..1][..0] == regs[..0] == [];
    assert regs[..2][..1] == regs[..1];
    assert regs[..3][..2] == regs[..2];
  }

  lemma CameraPairsFormTree(glCv: Isometry, leftRight: Isometry, headLeft: Isometry)
    requires IsRigid(glCv) && IsRigid(leftRight) && IsRigid(headLeft)
    ensures IsForest(Registrations(glCv, leftRight, headLeft), FRAMES)
    ensures Connected(Registered(Registrations(glCv, leftRight, headLeft)).Keys, FRAMES)
  {
    var regs := Registrations(glCv, leftRight, headLeft);
    RegisteredSteps(regs);
    ClosedSetSeparates(Registered(regs[..0]).Keys, {0}, 0, 1);
    ClosedSetSeparates(Registered(regs[..1]).Keys, {3}, 3, 1);
    ClosedSetSeparates(Registered(regs[..2]).Keys, {0, 1, 3}, 1, 2);
    ClosedSetSeparates(Registered(regs[..3]).Keys, {4}, 4, 3);
    CameraPairsConnect(Registered(regs).Keys);
  }

  /** Every camera frame is linked to the left camera and back. */
  lemma CameraPairsConnect(g: set<Edge>)
    requires (0, 1) in g && (1, 0) in g && (3, 1) in g && (1, 3) in g
    requires (1, 2) in g && (2, 1) in g && (4, 3) in g && (3, 4) in g
    ensures Connected(g, FRAMES)
  {
    LinkedEdge(g, 4, 3);
    LinkedEdge(g, 3, 1);
    LinkedEdge(g, 1, 3);
    LinkedEdge(g, 3, 4);
    LinkedTrans(g, 4, 3, 1);
    LinkedTrans(g, 1, 3, 4);
    LinkedSelf(g, 1);
    LinkedEdge(g, 0, 1);
    LinkedEdge(g, 1, 0);
    LinkedEdge(g, 2, 1);
    LinkedEdge(g, 1, 2);
    forall a: nat, b: nat | a < FRAMES && b < FRAMES
      ensures Linked(g, a, b)
    {
      LinkedTrans(g, a, 1, b);
    }
  }

  /** The rotations are exact, not only within the tolerance of the tests. */
  predicate AreExact(glRcv: Mat3, glLRglR: Quaternion, glHRglL: Quaternion)
  {
    IsRotation(glRcv) && IsUnit(glLRglR) && IsUnit(glHRglL)
  }

  lemma ExactPasses(glRcv: Mat3, glLRglR: Quaternion, glHRglL: Quaternion)
    requires AreExact(glRcv, glLRglR, glHRglL)
    ensures PassesUnitTest(glLRglR) && PassesUnitTest(glHRglL)
    ensures IsRotation(ToMatrix(glLRglR)) && IsRotation(ToMatrix(glHRglL))
  {
    UnitPasses(glLRglR);
    UnitPasses(glHRglL);
    QuaternionRotates(glLRglR);
    QuaternionRotates(glHRglL);
  }

  /** The table after the four registrations. */
  ghost function WithCameras(links: Links, glCv: Isometry, leftRight: Isometry, headLeft: Isometry): Links
  {
    Register(Register(Register(Register(links, Registration(CV_LEFT_CAM, GL_LEFT_CAM, glCv)),
      Registration(GL_RIGHT_CAM, GL_LEFT_CAM, leftRight)), Registration(GL_LEFT_CAM, GL_HEAD, headLeft)),
      Registration(CV_RIGHT_CAM, GL_RIGHT_CAM, glCv))
  }

  /** For rotations that pass the tests the set-up never fails, whatever the service of the
      process has registered before.  On an empty table exact rotations, which every such test
      accepts, complete it to the one implied by a placement of the frames, so that conversions
      between any two frames invert each other and chain.  On a completed table only the entries
      of the four pairs change. */
  method SetGlobalCameraParams(service: CoordTransformService, glRcv: Mat3, glLRglR: Quaternion, glLtglR: Vec3,
                               glHRglL: Quaternion, glHtglL: Vec3)
    returns (r: Outcome, ghost poses: seq<Isometry>)
    requires service.Valid() && service.n == FRAMES
    modifies service.transforms, service.known
    ensures service.Valid()
    ensures r == if !service.accepts(glRcv) then InvalidRotation
                 else if PassesUnitTest(glLRglR) && PassesUnitTest(glHRglL) then Ok else InvalidQuaternion
    ensures r.Ok? ==>
              var registered := WithCameras(old(service.Known()), Isometry(glRcv, ORIGIN),
                                            Isometry(ToMatrix(glLRglR), glLtglR),
                                      Isometry(ToMatrix(glHRglL), glHtglL));
              && Extends(registered, service.Known()) && Complete(service.Known(), FRAMES)
              && (Complete(old(service.Known()), FRAMES) ==> service.Known() == registered)
    ensures r.Ok? && old(service.Known()) == map[] && AreExact(glRcv, glLRglR, glHRglL) ==>
              && ArePoses(poses, FRAMES) && service.Implied(poses)
              && LeadsThrough(service.Known(), Isometry(glRcv, ORIGIN), Isometry(ToMatrix(glLRglR), glLtglR),
                              Isometry(ToMatrix(glHRglL), glHtglL))
  {
    poses := [];
    ghost var before := service.Known();
    ghost var exact := AreExact(glRcv, glLRglR, glHRglL);
    if exact { ExactPasses(glRcv, glLRglR, glHRglL); }
    r := service.SetTransform(CV_LEFT_CAM, GL_LEFT_CAM, glRcv, ORIGIN);
    if !r.Ok? { return; }
    r := service.SetTransformByQuaternion(GL_RIGHT_CAM, GL_LEFT_CAM, glLRglR, glLtglR);
    if !r.Ok? { return; }
    r := service.SetTransformByQuaternion(GL_LEFT_CAM, GL_HEAD, glHRglL, glHtglL);
    if !r.Ok? { return; }
    r := service.SetTransform(CV_RIGHT_CAM, GL_RIGHT_CAM, glRcv, ORIGIN);
    if !r.Ok? { return; }
    ghost var links := service.Known();
    ghost var (glCv, leftRight, headLeft) :=
      (Isometry(glRcv, ORIGIN), Isometry(ToMatrix(glLRglR), glLtglR), Isometry(ToMatrix(glHRglL), glHtglL));
    assert links == WithCameras(before, glCv, leftRight, headLeft);
    LinksConnect(before, glCv, leftRight, headLeft);
    if exact && before == map[] {
      RotationIsRigid(glRcv, ORIGIN);
      RotationIsRigid(ToMatrix(glLRglR), glLtglR);
      RotationIsRigid(ToMatrix(glHRglL), glHtglL);
      poses := CameraPoses(glCv, leftRight, headLeft);
    }
    r := service.Finalize(poses);
    if exact && before == map[] {
      service.KnownAgrees(poses);
      CameraPaths(service.Known(), poses, glCv, leftRight, headLeft);
    }
  }

  /** Where the completed table takes a point: from an input camera to the head by way of the
      graphics cameras, and from the right camera to the left one. */
  ghost predicate TakesPoints(links: Links, glCv: Isometry, leftRight: Isometry, headLeft: Isometry, p: Vec3)
    requires Complete(links, FRAMES)
  {
    var inRight := Apply(glCv, p);
    var inLeft := Apply(leftRight, inRight);
    && Apply(links[(CV_LEFT_CAM, GL_HEAD)], p) == Apply(headLeft, Apply(glCv, p))
    && Apply(links[(CV_RIGHT_CAM, GL_LEFT_CAM)], p) == inLeft
    && Apply(links[(CV_RIGHT_CAM, GL_HEAD)], p) == Apply(headLeft, inLeft)
    && Apply(links[(CV_RIGHT_CAM, CV_LEFT_CAM)], p) == Apply(Inverse(glCv), inLeft)
    && Apply(links[(GL_HEAD, CV_RIGHT_CAM)], Apply(headLeft, inLeft)) == p
  }

  lemma ThroughFrame(links: Links, poses: seq<Isometry>, i: nat, j: nat, k: nat, p: Vec3)
    requires ArePoses(poses, |poses|) && Agrees(links, poses)
    requires (i, j) in links && (j, k) in links && (i, k) in links
    ensures Apply(links[(i, k)], p) == Apply(links[(j, k)], Apply(links[(i, j)], p))
  {
    RelativeChain(poses, i, j, k);
    ApplyCompose(links[(j, k)], links[(i, j)], p);
  }

  lemma PointPaths(links: Links, poses: seq<Isometry>, glCv: Isometry, leftRight: Isometry, headLeft: Isometry,
                    p: Vec3)
    requires Complete(links, FRAMES) && ArePoses(poses, FRAMES) && Agrees(links, poses)
    requires HoldsCameras(links, glCv, leftRight, headLeft)
    ensures TakesPoints(links, glCv, leftRight, headLeft, p)
  {
    var inRight := Apply(glCv, p);
    var inLeft := Apply(leftRight, inRight);
    ThroughFrame(links, poses, CV_LEFT_CAM, GL_LEFT_CAM, GL_HEAD, p);
    ThroughFrame(links, poses, CV_RIGHT_CAM, GL_RIGHT_CAM, GL_LEFT_CAM, p);
    ThroughFrame(links, poses, CV_RIGHT_CAM, GL_LEFT_CAM, GL_HEAD, p);
    ThroughFrame(links, poses, CV_RIGHT_CAM, GL_LEFT_CAM, CV_LEFT_CAM, p);
    OppositeAgrees(links, poses, CV_LEFT_CAM, GL_LEFT_CAM);
    OppositeAgrees(links, poses, CV_RIGHT_CAM, GL_HEAD);
    RelativeInverse(poses, CV_RIGHT_CAM, GL_HEAD);
    var f := links[(CV_RIGHT_CAM, GL_HEAD)];
    ComposeInverse(f);
    ApplyCompose(Inverse(f), f, p);
    assert Apply(IDENTITY, p) == p;
  }

  ghost predicate LeadsThrough(links: Links, glCv: Isometry, leftRight: Isometry, headLeft: Isometry)
  {
    Complete(links, FRAMES) && forall p :: TakesPoints(links, glCv, leftRight, headLeft, p)
  }

  lemma CameraPaths(links: Links, poses: seq<Isometry>, glCv: Isometry, leftRight: Isometry, headLeft: Isometry)
    requires Complete(links, FRAMES) && ArePoses(poses, FRAMES) && Agrees(links, poses)
    requires Extends(WithCameras(map[], glCv, leftRight, headLeft), links)
    ensures LeadsThrough(links, glCv, leftRight, headLeft)
  {
    RegisteredEntries(glCv, leftRight, headLeft);
    forall p
      ensures TakesPoints(links, glCv, leftRight, headLeft, p)
    {
      PointPaths(links, poses, glCv, leftRight, headLeft, p);
    }
  }

  lemma RegisteredEntries(glCv: Isometry, leftRight: Isometry, headLeft: Isometry)
    ensures var links := WithCameras(map[], glCv, leftRight, headLeft);
            && (CV_LEFT_CAM, GL_LEFT_CAM) in links && links[(CV_LEFT_CAM, GL_LEFT_CAM)] == glCv
            && (CV_RIGHT_CAM, GL_RIGHT_CAM) in links && links[(CV_RIGHT_CAM, GL_RIGHT_CAM)] == glCv
            && (GL_RIGHT_CAM, GL_LEFT_CAM) in links && links[(GL_RIGHT_CAM, GL_LEFT_CAM)] == leftRight
            && (GL_LEFT_CAM, GL_HEAD) in links && links[(GL_LEFT_CAM, GL_HEAD)] == headLeft
  {
  }

  lemma LinksConnect(before: Links, glCv: Isometry, leftRight: Isometry, headLeft: Isometry)
    ensures Connected(WithCameras(before, glCv, leftRight, headLeft).Keys, FRAMES)
    ensures Complete(before, FRAMES) ==> Complete(WithCameras(before, glCv, leftRight, headLeft), FRAMES)
  {
    CameraPairsConnect(WithCameras(before, glCv, leftRight, headLeft).Keys);
  }

  /** The table holds these parameters. */
  ghost predicate HoldsCameras(links: Links, glCv: Isometry, leftRight: Isometry, headLeft: Isometry)
    requires Complete(links, FRAMES)
  {
    && links[(CV_LEFT_CAM, GL_LEFT_CAM)] == links[(CV_RIGHT_CAM, GL_RIGHT_CAM)] == glCv
    && links[(GL_RIGHT_CAM, GL_LEFT_CAM)] == leftRight && links[(GL_LEFT_CAM, GL_HEAD)] == headLeft
  }

  /** A set-up on a completed table leaves one that a placement implies exactly if it brings no
      new parameters: the derived entries stay as they were. */
  lemma SecondSetUpPlacedIff(links: Links, poses: seq<Isometry>, glCv: Isometry, leftRight: Isometry,
                             headLeft: Isometry)
    requires Complete(links, FRAMES) && ArePoses(poses, FRAMES) && Agrees(links, poses)
    ensures Placed(WithCameras(links, glCv, leftRight, headLeft), FRAMES) <==>
              HoldsCameras(links, glCv, leftRight, headLeft)
  {
    var changed := WithCameras(links, glCv, leftRight, headLeft);
    assert changed.Keys == links.Keys;
    DerivedPairsKept(links, glCv, leftRight, headLeft);
    ChangedPlacedIff(links, changed, poses);
    OppositeAgrees(links, poses, CV_LEFT_CAM, GL_LEFT_CAM);
    OppositeAgrees(links, poses, GL_RIGHT_CAM, GL_LEFT_CAM);
    OppositeAgrees(links, poses, GL_LEFT_CAM, GL_HEAD);
    OppositeAgrees(links, poses, CV_RIGHT_CAM, GL_RIGHT_CAM);
    UnchangedIffHeld(links, glCv, leftRight, headLeft);
  }

  lemma OppositeAgrees(links: Links, poses: seq<Isometry>, i: nat, j: nat)
    requires ArePoses(poses, |poses|) && Agrees(links, poses) && (i, j) in links && (j, i) in links
    ensures links[(j, i)] == Inverse(links[(i, j)])
  {
    RelativeInverse(poses, i, j);
  }

  lemma UnchangedIffHeld(links: Links, glCv: Isometry, leftRight: Isometry, headLeft: Isometry)
    requires Complete(links, FRAMES)
    requires links[(1, 0)] == Inverse(links[(0, 1)]) && links[(1, 3)] == Inverse(links[(3, 1)])
    requires links[(2, 1)] == Inverse(links[(1, 2)]) && links[(3, 4)] == Inverse(links[(4, 3)])
    ensures WithCameras(links, glCv, leftRight, headLeft) == links <==> HoldsCameras(links, glCv, leftRight, headLeft)
  {
    var changed := WithCameras(links, glCv, leftRight, headLeft);
    assert changed[(0, 1)] == changed[(4, 3)] == glCv && changed[(3, 1)] == leftRight && changed[(1, 2)] == headLeft;
  }

  lemma PairKept(links: Links, glCv: Isometry, leftRight: Isometry, headLeft: Isometry, i: nat, j: nat)
    requires Complete(links, FRAMES) && i < FRAMES && j < FRAMES && i != j
    requires (i, j) !in {(0, 1), (1, 0), (3, 1), (1, 3), (1, 2), (2, 1), (4, 3), (3, 4)}
    ensures (i, j) in Kept(links, WithCameras(links, glCv, leftRight, headLeft))
  {
  }

  lemma DerivedPairsKept(links: Links, glCv: Isometry, leftRight: Isometry, headLeft: Isometry)
    requires Complete(links, FRAMES)
    ensures Connected(Kept(links, WithCameras(links, glCv, leftRight, headLeft)), FRAMES)
  {
    PairKept(links, glCv, leftRight, headLeft, 0, 2);
    PairKept(links, glCv, leftRight, headLeft, 2, 0);
    PairKept(links, glCv, leftRight, headLeft, 0, 3);
    PairKept(links, glCv, leftRight, headLeft, 3, 0);
    PairKept(links, glCv, leftRight, headLeft, 0, 4);
    PairKept(links, glCv, leftRight, headLeft, 4, 0);
    PairKept(links, glCv, leftRight, headLeft, 1, 4);
    PairKept(links, glCv, leftRight, headLeft, 4, 1);
    DerivedPairsConnect(Kept(links, WithCameras(links, glCv, leftRight, headLeft)));
  }

  /** So do the pairs that are never registered, by the left input camera and the right one. */
  lemma DerivedPairsConnect(g: set<Edge>)
    requires (0, 2) in g && (2, 0) in g && (0, 3) in g && (3, 0) in g
    requires (0, 4) in g && (4, 0) in g && (1, 4) in g && (4, 1) in g
    ensures Connected(g, FRAMES)
  {
    LinkedSelf(g, 0);
    LinkedEdge(g, 2, 0);
    LinkedEdge(g, 0, 2);
    LinkedEdge(g, 3, 0);
    LinkedEdge(g, 0, 3);
    LinkedEdge(g, 4, 0);
    LinkedEdge(g, 0, 4);
    LinkedEdge(g, 1, 4);
    LinkedEdge(g, 4, 1);
    LinkedTrans(g, 1, 4, 0);
    LinkedTrans(g, 0, 4, 1);
    forall a: nat, b: nat | a < FRAMES && b < FRAMES
      ensures Linked(g, a, b)
    {
      LinkedTrans(g, a, 0, b);
    }
  }

  lemma CameraPoses(glCv: Isometry, leftRight: Isometry, headLeft: Isometry) returns (poses: seq<Isometry>)
    requires IsRigid(glCv) && IsRigid(leftRight) && IsRigid(headLeft)
    ensures ArePoses(poses, FRAMES) && Agrees(WithCameras(map[], glCv, leftRight, headLeft), poses)
  {
    var regs := Registrations(glCv, leftRight, headLeft);
    RegisteredSteps(regs);
    CameraPairsFormTree(glCv, leftRight, headLeft);
    poses := ForestHasPoses(regs, FRAMES);
  }
}
