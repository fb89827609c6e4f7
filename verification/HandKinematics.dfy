/** Filling a table along a tree whose parents come before their children. */
module ParentTable {

  ghost predicate ParentsPrecede(parents: seq<int>) { forall j | 0 < j < |parents| :: 0 <= parents[j] < j }

  /** The value of node j: the root value, carried down by `step` along the chain of parents. */
  ghost function Carried<P>(parents: seq<int>, root: P, step: (P, int) -> P, j: int): P
    requires ParentsPrecede(parents) && 0 <= j < |parents|
    decreases j
  {
    if j == 0 then root else step(Carried(parents, root, step, parents[j]), j)
  }

  method Fill<P(0)>(parents: seq<int>, root: P, step: (P, int) -> P) returns (table: array<P>)
    requires |parents| > 0 && ParentsPrecede(parents)
    ensures fresh(table) && table.Length == |parents|
    ensures forall j | 0 <= j < table.Length :: table[j] == Carried(parents, root, step, j)
  {
    table := new P[|parents|];
    table[0] := root;
    for i := 0 to table.Length - 1
      invariant forall j | 0 <= j <= i :: table[j] == Carried(parents, root, step, j)
    {
      table[i + 1] := step(table[parents[i + 1]], i + 1);
    }
  }

  method Gather<P, V>(table: array<P>, rows: seq<int>, view: P -> V) returns (values: seq<V>)
    requires forall i | 0 <= i < |rows| :: 0 <= rows[i] < table.Length
    ensures |values| == |rows| && forall i | 0 <= i < |rows| :: values[i] == view(table[rows[i]])
  {
    values := [];
    for i := 0 to |rows|
      invariant |values| == i && forall k | 0 <= k < i :: values[k] == view(table[rows[k]])
    {
      values := values + [view(table[rows[i]])];
    }
  }
}

/** Forward kinematics: every joint of a tree is posed relative to its parent. */
module Kinematics {
  import opened Geometry
  import opened ParentTable

  /** Joints with their rest positions and rotations, parents before children. */
  datatype Skeleton = Skeleton(parents: seq<int>, joints: seq<Vec3>, rotations: seq<Mat3>)

  ghost predicate IsSkeleton(s: Skeleton)
  {
    |s.parents| == |s.joints| == |s.rotations| > 0 && ParentsPrecede(s.parents)
  }

  /** The step from a parent to a joint that lies at `bone` from it. */
  function Child(parent: Isometry, rotation: Mat3, bone: Vec3): Isometry { Compose(parent, Isometry(rotation, bone)) }

  function Bone(s: Skeleton, j: int): Vec3
  {
    if 0 <= j < |s.joints| && j < |s.parents| && 0 <= s.parents[j] < |s.joints|
    then Sub(s.joints[j], s.joints[s.parents[j]]) else ORIGIN
  }

  function Step(s: Skeleton): (Isometry, int) -> Isometry
  {
    (parent: Isometry, j: int) => Child(parent, if 0 <= j < |s.rotations| then s.rotations[j] else UNIT, Bone(s, j))
  }

  /** The pose of joint j.  The root is not rotated. */
  ghost function Pose(s: Skeleton, j: int): Isometry
    requires IsSkeleton(s) && 0 <= j < |s.parents|
  {
    Carried(s.parents, Isometry(UNIT, s.joints[0]), Step(s), j)
  }

  lemma PoseStep(s: Skeleton, j: int)
    requires IsSkeleton(s) && 0 < j < |s.parents|
    ensures Pose(s, j) == Child(Pose(s, s.parents[j]), s.rotations[j], Bone(s, j))
  {
  }

  // ----- bones keep their length

  lemma ChildOrthogonal(parent: Isometry, rotation: Mat3, bone: Vec3)
    requires IsOrthogonal(parent.r) && IsOrthogonal(rotation)
    ensures IsOrthogonal(Child(parent, rotation, bone).r)
  {
    OrthogonalMul(parent.r, rotation);
  }

  lemma ChildOffset(parent: Isometry, rotation: Mat3, bone: Vec3)
    requires IsOrthogonal(parent.r)
    ensures Norm2(Sub(Child(parent, rotation, bone).t, parent.t)) == Norm2(bone)
  {
    OrthogonalNorm(parent.r, bone);
    assert Sub(Child(parent, rotation, bone).t, parent.t) == MulVec(parent.r, bone);
  }

  ghost predicate AllOrthogonal(s: Skeleton) { forall j | 0 <= j < |s.rotations| :: IsOrthogonal(s.rotations[j]) }

  lemma {:induction false} PosesAreOrthogonal(s: Skeleton, j: int)
    requires IsSkeleton(s) && AllOrthogonal(s) && 0 <= j < |s.parents|
    ensures IsOrthogonal(Pose(s, j).r)
    decreases j
  {
    if j > 0 {
      PosesAreOrthogonal(s, s.parents[j]);
      PoseStep(s, j);
      ChildOrthogonal(Pose(s, s.parents[j]), s.rotations[j], Bone(s, j));
    }
  }

  /** However the joints are turned, a joint stays as far from its parent as at rest. */
  lemma BoneLength(s: Skeleton, j: int)
    requires IsSkeleton(s) && AllOrthogonal(s) && 0 < j < |s.parents|
    ensures Norm2(Sub(Pose(s, j).t, Pose(s, s.parents[j]).t)) == Norm2(Bone(s, j))
  {
    PosesAreOrthogonal(s, s.parents[j]);
    PoseStep(s, j);
    ChildOffset(Pose(s, s.parents[j]), s.rotations[j], Bone(s, j));
  }

  // ----- turning a joint

  lemma ComposeBack(f: Isometry, g: Isometry)
    requires IsOrthogonal(f.r)
    ensures Compose(Inverse(f), Compose(f, g)) == g
  {
    OrthogonalTranspose(f.r);
    ComposeAssoc(Inverse(f), f, g);
    ComposeInverse(f);
    ComposeIdentity(g);
  }

  /** Seen from its parent a joint is turned by its own rotation, and lies where it does at rest. */
  lemma RelativePose(s: Skeleton, j: int)
    requires IsSkeleton(s) && AllOrthogonal(s) && 0 < j < |s.parents|
    ensures Compose(Inverse(Pose(s, s.parents[j])), Pose(s, j))
         == Isometry(s.rotations[j], Sub(s.joints[j], s.joints[s.parents[j]]))
  {
    PosesAreOrthogonal(s, s.parents[j]);
    PoseStep(s, j);
    ComposeBack(Pose(s, s.parents[j]), Isometry(s.rotations[j], Bone(s, j)));
  }

  // ----- which rotations matter

  /** Joint a lies strictly above joint j in the tree. */
  ghost predicate IsAncestor(s: Skeleton, a: int, j: int)
    requires IsSkeleton(s) && 0 <= j < |s.parents|
    decreases j
  {
    j > 0 && (s.parents[j] == a || IsAncestor(s, a, s.parents[j]))
  }

  ghost predicate SameRest(s: Skeleton, s': Skeleton)
  {
    IsSkeleton(s) && IsSkeleton(s') && s.parents == s'.parents && s.joints == s'.joints
  }

  lemma {:induction false} SamePose(s: Skeleton, s': Skeleton, j: int)
    requires SameRest(s, s') && 0 <= j < |s.parents|
    requires forall a | 0 < a < |s.parents| && (a == j || IsAncestor(s, a, j)) :: s.rotations[a] == s'.rotations[a]
    ensures Pose(s, j) == Pose(s', j)
    decreases j
  {
    if j > 0 {
      SamePose(s, s', s.parents[j]);
      PoseStep(s, j);
      PoseStep(s', j);
    }
  }

  lemma ChildPosition(parent: Isometry, rotation: Mat3, rotation': Mat3, bone: Vec3)
    ensures Child(parent, rotation, bone).t == Child(parent, rotation', bone).t
  {
  }

  /** A joint moves only with the rotations of the joints strictly above it. */
  lemma OnlyAncestorsMove(s: Skeleton, s': Skeleton, j: int)
    requires SameRest(s, s') && 0 <= j < |s.parents|
    requires forall a | 0 < a < |s.parents| && IsAncestor(s, a, j) :: s.rotations[a] == s'.rotations[a]
    ensures Pose(s, j).t == Pose(s', j).t
  {
    if j > 0 {
      SamePose(s, s', s.parents[j]);
      PoseStep(s, j);
      PoseStep(s', j);
      ChildPosition(Pose(s, s.parents[j]), s.rotations[j], s'.rotations[j], Bone(s, j));
    }
  }

  ghost predicate SameBut(s: Skeleton, s': Skeleton, a: int)
  {
    SameRest(s, s') && forall k | 0 <= k < |s.rotations| && k != a :: s'.rotations[k] == s.rotations[k]
  }

  lemma {:induction false} AncestorsPrecede(s: Skeleton, a: int, j: int)
    requires IsSkeleton(s) && 0 <= j < |s.parents| && IsAncestor(s, a, j)
    ensures 0 <= a < j
    decreases j
  {
    if s.parents[j] != a { AncestorsPrecede(s, a, s.parents[j]); }
  }

  /** Below joint a everything is posed relative to it as before. */
  lemma {:induction false} CarriedAlong(s: Skeleton, s': Skeleton, a: int, j: int) returns (rel: Isometry)
    requires SameBut(s, s', a) && 0 < a && 0 <= j < |s.parents| && IsAncestor(s, a, j)
    ensures a < j && Pose(s, j) == Compose(Pose(s, a), rel) && Pose(s', j) == Compose(Pose(s', a), rel)
    decreases j
  {
    AncestorsPrecede(s, a, j);
    var (p, own) := (s.parents[j], Isometry(s.rotations[j], Bone(s, j)));
    PoseStep(s, j);
    PoseStep(s', j);
    if p == a {
      rel := own;
    } else {
      var up := CarriedAlong(s, s', a, p);
      ComposeAssoc(Pose(s, a), up, own);
      ComposeAssoc(Pose(s', a), up, own);
      rel := Compose(up, own);
    }
  }

  /** The turn that takes the axes of joint a from one skeleton to the other. */
  ghost function Turn(s: Skeleton, s': Skeleton, a: int): Mat3
    requires SameRest(s, s') && 0 <= a < |s.parents|
  {
    Mul(Pose(s', a).r, Transpose(Pose(s, a).r))
  }

  lemma TurnIsOrthogonal(s: Skeleton, s': Skeleton, a: int)
    requires SameRest(s, s') && AllOrthogonal(s) && AllOrthogonal(s') && 0 <= a < |s.parents|
    ensures IsOrthogonal(Turn(s, s', a))
  {
    PosesAreOrthogonal(s, a);
    PosesAreOrthogonal(s', a);
    OrthogonalTranspose(Pose(s, a).r);
    OrthogonalMul(Pose(s', a).r, Transpose(Pose(s, a).r));
  }

  lemma TurnedOffset(f: Isometry, f': Isometry, rel: Isometry)
    requires IsOrthogonal(f.r)
    ensures Sub(Compose(f', rel).t, f'.t) == MulVec(Mul(f'.r, Transpose(f.r)), Sub(Compose(f, rel).t, f.t))
  {
    assert Sub(Compose(f, rel).t, f.t) == MulVec(f.r, rel.t) && Sub(Compose(f', rel).t, f'.t) == MulVec(f'.r, rel.t);
    MulVecAssoc(f'.r, Transpose(f.r), MulVec(f.r, rel.t));
    MulVecAssoc(Transpose(f.r), f.r, rel.t);
    assert MulVec(UNIT, rel.t) == rel.t;
  }

  /** Everything below joint a has turned by q about it, and all other joints stay. */
  ghost predicate TurnsAbout(s: Skeleton, s': Skeleton, a: int, q: Mat3)
    requires SameRest(s, s') && 0 <= a < |s.parents|
  {
    && IsOrthogonal(q) && Pose(s', a).t == Pose(s, a).t
    && forall j | 0 <= j < |s.parents| ::
         if IsAncestor(s, a, j)
         then Sub(Pose(s', j).t, Pose(s', a).t) == MulVec(q, Sub(Pose(s, j).t, Pose(s, a).t))
         else Pose(s', j).t == Pose(s, j).t
  }

  /** Turning one joint turns everything below it as one rigid body about that joint. */
  lemma TurnsBelow(s: Skeleton, s': Skeleton, a: int)
    requires SameBut(s, s', a) && AllOrthogonal(s) && AllOrthogonal(s') && 0 < a < |s.parents|
    ensures TurnsAbout(s, s', a, Turn(s, s', a))
  {
    TurnIsOrthogonal(s, s', a);
    PosesAreOrthogonal(s, a);
    forall j | 0 <= j < |s.parents|
      ensures IsAncestor(s, a, j) ==>
                Sub(Pose(s', j).t, Pose(s', a).t) == MulVec(Turn(s, s', a), Sub(Pose(s, j).t, Pose(s, a).t))
      ensures !IsAncestor(s, a, j) ==> Pose(s', j).t == Pose(s, j).t
    {
      if IsAncestor(s, a, j) {
        var rel := CarriedAlong(s, s', a, j);
        TurnedOffset(Pose(s, a), Pose(s', a), rel);
      } else {
        OnlyAncestorsMove(s, s', j);
      }
    }
    if IsAncestor(s, a, a) { AncestorsPrecede(s, a, a); }
  }

  lemma ChildUnrotated(parent: Isometry, rotation: Mat3, bone: Vec3)
    requires parent.r == UNIT && rotation == UNIT
    ensures Child(parent, rotation, bone) == Isometry(UNIT, Add(bone, parent.t))
  {
  }

  lemma BoneEnds(s: Skeleton, j: int)
    requires IsSkeleton(s) && 0 < j < |s.parents|
    ensures Add(Bone(s, j), s.joints[s.parents[j]]) == s.joints[j]
  {
  }

  ghost predicate Unrotated(s: Skeleton) { forall k | 0 <= k < |s.rotations| :: s.rotations[k] == UNIT }

  lemma RestStep(s: Skeleton, j: int)
    requires IsSkeleton(s) && 0 < j < |s.parents| && s.rotations[j] == UNIT
    requires Pose(s, s.parents[j]) == Isometry(UNIT, s.joints[s.parents[j]])
    ensures Pose(s, j) == Isometry(UNIT, s.joints[j])
  {
    var (parent, bone) := (Pose(s, s.parents[j]), Bone(s, j));
    ChildUnrotated(parent, s.rotations[j], bone);
    BoneEnds(s, j);
    PoseStep(s, j);
  }

  /** Without rotation every joint is at its rest position. */
  lemma {:induction false} RestPose(s: Skeleton, j: int)
    requires IsSkeleton(s) && 0 <= j < |s.parents| && Unrotated(s)
    ensures Pose(s, j) == Isometry(UNIT, s.joints[j])
    decreases j
  {
    if j > 0 {
      RestPose(s, s.parents[j]);
      RestStep(s, j);
    }
  }
}

/** The hand model: a template of 25 joints, scaled about its root and posed by the rotations
    of its bones. */
module HandNimble {
  import opened Geometry
  import opened Kinematics
  import opened ParentTable
  import opened Sums

  const JOINTS: nat := 25
  const BONES: nat := 20

  const PARENTS: seq<int> := [-1, 0, 1, 2, 3, 0, 5, 6, 7, 8, 0, 10, 11, 12, 13, 0, 15, 16, 17, 18, 0, 20, 21, 22, 23]

  /** The joint behind each of the 26 output rows. */
  const ROWS: seq<int> := [0, 1, 2, 3, 4, 6, 7, 8, 9, 11, 12, 13, 14, 16, 17, 18, 19, 21, 22, 23, 24, 0, 20, 5, 10, 15]

  /** The bone whose rotation poses a joint; finger tips have none. */
  const BONE_OF: map<int, int> :=
    map[0 := 0, 1 := 1, 2 := 2, 3 := 3, 5 := 4, 6 := 5, 7 := 6, 8 := 7, 10 := 8, 11 := 9, 12 := 10, 13 := 11,
        15 := 12, 16 := 13, 17 := 14, 18 := 15, 20 := 16, 21 := 17, 22 := 18, 23 := 19]

  lemma HandParents()
    ensures |PARENTS| == JOINTS && ParentsPrecede(PARENTS)
  {
  }

  lemma RowsInRange()
    ensures |ROWS| == 26 && forall i | 0 <= i < 26 :: 0 <= ROWS[i] < JOINTS
  {
  }

  lemma BoneInRange(j: int)
    requires 0 < j && j in BONE_OF
    ensures 0 < BONE_OF[j] < BONES
  {
  }

  /** A template joint, scaled about the root. */
  function ScaledJoint(template: seq<Vec3>, scale: real, j: int): Vec3
    requires 0 <= j < |template|
  {
    Add(Scale(1.0 + scale, Sub(template[j], template[0])), template[0])
  }

  /** `rotations` starts at bone 1. */
  function JointRotation(rotations: seq<Mat3>, j: int): Mat3
    requires |rotations| == BONES - 1
  {
    if 0 < j && j in BONE_OF then
      BoneInRange(j);
      rotations[BONE_OF[j] - 1]
    else UNIT
  }

  ghost function HandSkeleton(template: seq<Vec3>, scale: real, rotations: seq<Mat3>): (s: Skeleton)
    requires |template| == JOINTS && |rotations| == BONES - 1
    ensures IsSkeleton(s) && |s.parents| == JOINTS
  {
    HandParents();
    Skeleton(PARENTS,
             seq(JOINTS, j requires 0 <= j < JOINTS => ScaledJoint(template, scale, j)),
             seq(JOINTS, j requires 0 <= j < JOINTS => JointRotation(rotations, j)))
  }

  /** A pose relative to the root, in metres. */
  function InMetres(pose: Isometry, root: Isometry): Vec3 { Scale(1.0 / 1000.0, Sub(pose.t, root.t)) }

  /** Joint j of a posed skeleton as the caller gets it. */
  ghost function Posed(s: Skeleton, j: int): Vec3
    requires IsSkeleton(s) && 0 <= j < |s.parents|
  {
    InMetres(Pose(s, j), Pose(s, 0))
  }

  ghost function Decoded(template: seq<Vec3>, scale: real, rotations: seq<Mat3>, j: int): Vec3
    requires |template| == JOINTS && |rotations| == BONES - 1 && 0 <= j < JOINTS
  {
    Posed(HandSkeleton(template, scale, rotations), j)
  }

  method BuildSkeleton(template: seq<Vec3>, scale: real, rotations: seq<Mat3>) returns (s: Skeleton)
    requires |template| == JOINTS && |rotations| == BONES - 1
    ensures s == HandSkeleton(template, scale, rotations)
  {
    var joints := [];
    var turns := [];
    for j := 0 to JOINTS
      invariant |joints| == |turns| == j
      invariant forall k | 0 <= k < j :: joints[k] == ScaledJoint(template, scale, k)
      invariant forall k | 0 <= k < j :: turns[k] == JointRotation(rotations, k)
    {
      joints := joints + [ScaledJoint(template, scale, j)];
      turns := turns + [JointRotation(rotations, j)];
    }
    s := Skeleton(PARENTS, joints, turns);
  }

  method DecodeHandJoints(template: seq<Vec3>, scale: real, rotations: seq<Mat3>) returns (joints: seq<Vec3>)
    requires |template| == JOINTS && |rotations| == BONES - 1
    ensures |joints| == |ROWS| == 26
    ensures forall i | 0 <= i < 26 :: 0 <= ROWS[i] < JOINTS && joints[i] == Decoded(template, scale, rotations, ROWS[i])
  {
    var s := BuildSkeleton(template, scale, rotations);
    var poses := Fill(s.parents, Isometry(UNIT, s.joints[0]), Step(s));
    RowsInRange();
    var root := poses[0];
    joints := Gather(poses, ROWS, pose => InMetres(pose, root));
  }

  // ----- what the caller gets

  function Square(x: real): real { Times(x, x) }

  lemma ScaleNorm(k: real, v: Vec3)
    ensures Norm2(Scale(k, v)) == Times(Square(k), Norm2(v))
  {
  }

  lemma ScaledBone(k: real, u: Vec3, v: Vec3, root: Vec3)
    ensures Sub(Add(Scale(k, Sub(u, root)), root), Add(Scale(k, Sub(v, root)), root)) == Scale(k, Sub(u, v))
  {
  }

  lemma MetresDifference(p: Isometry, q: Isometry, root: Isometry)
    ensures Sub(InMetres(p, root), InMetres(q, root)) == Scale(1.0 / 1000.0, Sub(p.t, q.t))
  {
  }

  lemma MetreFactor(k: real, n: real)
    ensures Times(Square(1.0 / 1000.0), Times(Square(k), n)) == Times(Square(k / 1000.0), n)
  {
  }

  /** Two posed joints as far apart as a scaled bone, in metres. */
  lemma BoneInMetres(p: Isometry, q: Isometry, root: Isometry, bone: Vec3, k: real)
    requires Norm2(Sub(p.t, q.t)) == Norm2(Scale(k, bone))
    ensures Norm2(Sub(InMetres(p, root), InMetres(q, root))) == Times(Square(k / 1000.0), Norm2(bone))
  {
    MetresDifference(p, q, root);
    ScaleNorm(1.0 / 1000.0, Sub(p.t, q.t));
    ScaleNorm(k, bone);
    MetreFactor(k, Norm2(bone));
  }

  lemma UnitIsOrthogonal()
    ensures IsOrthogonal(UNIT)
  {
  }

  lemma JointOrthogonal(rotations: seq<Mat3>, j: int)
    requires |rotations| == BONES - 1 && forall k | 0 <= k < |rotations| :: IsOrthogonal(rotations[k])
    ensures IsOrthogonal(JointRotation(rotations, j))
  {
    if 0 < j && j in BONE_OF { BoneInRange(j); } else { UnitIsOrthogonal(); }
  }

  lemma RotationsOrthogonal(template: seq<Vec3>, scale: real, rotations: seq<Mat3>)
    requires |template| == JOINTS && |rotations| == BONES - 1
    requires forall k | 0 <= k < |rotations| :: IsOrthogonal(rotations[k])
    ensures AllOrthogonal(HandSkeleton(template, scale, rotations))
  {
    forall j | 0 <= j < JOINTS
      ensures IsOrthogonal(JointRotation(rotations, j))
    {
      JointOrthogonal(rotations, j);
    }
  }

  /** Two points are as far apart as a bone scaled by k, in metres. */
  ghost predicate SameBone(p: Vec3, q: Vec3, bone: Vec3, k: real)
  {
    Norm2(Sub(p, q)) == Times(Square(k / 1000.0), Norm2(bone))
  }

  lemma PosedBoneInMetres(s: Skeleton, j: int, bone: Vec3, k: real)
    requires IsSkeleton(s) && AllOrthogonal(s) && 0 < j < |s.parents| && Bone(s, j) == Scale(k, bone)
    ensures SameBone(Posed(s, j), Posed(s, s.parents[j]), bone, k)
  {
    BoneLength(s, j);
    BoneInMetres(Pose(s, j), Pose(s, s.parents[j]), Pose(s, 0), bone, k);
  }

  /** The parent of a joint, with its place in the skeleton. */
  lemma HandParent(template: seq<Vec3>, scale: real, rotations: seq<Mat3>, j: int) returns (p: int)
    requires |template| == JOINTS && |rotations| == BONES - 1 && 0 < j < JOINTS
    ensures |PARENTS| == JOINTS && p == PARENTS[j] && 0 <= p < j
    ensures HandSkeleton(template, scale, rotations).parents[j] == p
  {
    HandParents();
    p := PARENTS[j];
  }

  lemma HandBone(template: seq<Vec3>, scale: real, rotations: seq<Mat3>, j: int, p: int)
    requires |template| == JOINTS && |rotations| == BONES - 1 && 0 <= p < j < JOINTS
    requires HandSkeleton(template, scale, rotations).parents[j] == p
    ensures Bone(HandSkeleton(template, scale, rotations), j) == Scale(1.0 + scale, Sub(template[j], template[p]))
  {
    ScaledBone(1.0 + scale, template[j], template[p], template[0]);
  }

  lemma DecodedBoneTo(template: seq<Vec3>, scale: real, rotations: seq<Mat3>, j: int, p: int)
    requires |template| == JOINTS && |rotations| == BONES - 1 && 0 <= p < j < JOINTS
    requires HandSkeleton(template, scale, rotations).parents[j] == p
    requires forall k | 0 <= k < |rotations| :: IsOrthogonal(rotations[k])
    ensures SameBone(Decoded(template, scale, rotations, j), Decoded(template, scale, rotations, p),
                     Sub(template[j], template[p]), 1.0 + scale)
  {
    RotationsOrthogonal(template, scale, rotations);
    HandBone(template, scale, rotations, j, p);
    PosedBoneInMetres(HandSkeleton(template, scale, rotations), j, Sub(template[j], template[p]), 1.0 + scale);
  }

  /** For any rotations and any scale, a decoded joint is (1 + scale) / 1000 times as far from
      its parent as in the template. */
  lemma DecodedBoneLength(template: seq<Vec3>, scale: real, rotations: seq<Mat3>, j: int)
    requires |template| == JOINTS && |rotations| == BONES - 1 && 0 < j < JOINTS
    requires forall k | 0 <= k < |rotations| :: IsOrthogonal(rotations[k])
    ensures |PARENTS| == JOINTS && 0 <= PARENTS[j] < j
    ensures Norm2(Sub(Decoded(template, scale, rotations, j), Decoded(template, scale, rotations, PARENTS[j])))
         == Times(Square((1.0 + scale) / 1000.0), Norm2(Sub(template[j], template[PARENTS[j]])))
  {
    var p := HandParent(template, scale, rotations, j);
    DecodedBoneTo(template, scale, rotations, j, p);
  }

  lemma MetresOfRest(k: real, u: Vec3, root: Vec3)
    ensures Scale(1.0 / 1000.0, Sub(Add(Scale(k, Sub(u, root)), root), Add(Scale(k, Sub(root, root)), root)))
         == Scale(k / 1000.0, Sub(u, root))
  {
  }

  /** Without rotation the hand is the template about its root, scaled. */
  lemma DecodedRest(template: seq<Vec3>, scale: real, rotations: seq<Mat3>, j: int)
    requires |template| == JOINTS && |rotations| == BONES - 1 && 0 <= j < JOINTS
    requires forall k | 0 <= k < |rotations| :: rotations[k] == UNIT
    ensures Decoded(template, scale, rotations, j) == Scale((1.0 + scale) / 1000.0, Sub(template[j], template[0]))
  {
    var s := HandSkeleton(template, scale, rotations);
    forall k | 0 <= k < JOINTS
      ensures s.rotations[k] == UNIT
    {
      assert s.rotations[k] == JointRotation(rotations, k);
      if 0 < k && k in BONE_OF { BoneInRange(k); }
    }
    RestPose(s, j);
    MetresOfRest(1.0 + scale, template[j], template[0]);
  }

  // ----- one bone turned

  lemma BonesDiffer(i: int, j: int)
    requires i in BONE_OF && j in BONE_OF && i != j
    ensures BONE_OF[i] != BONE_OF[j]
  {
  }

  /** The rotation of a bone is the rotation of its joint and of no other. */
  lemma OneJointTurned(template: seq<Vec3>, scale: real, rotations: seq<Mat3>, rotations': seq<Mat3>, a: int)
    requires |template| == JOINTS && |rotations| == |rotations'| == BONES - 1
    requires 0 < a < JOINTS && a in BONE_OF && 0 < BONE_OF[a] < BONES
    requires forall i | 0 <= i < BONES - 1 && i != BONE_OF[a] - 1 :: rotations'[i] == rotations[i]
    ensures SameBut(HandSkeleton(template, scale, rotations), HandSkeleton(template, scale, rotations'), a)
  {
    forall j | 0 <= j < JOINTS && j != a
      ensures JointRotation(rotations', j) == JointRotation(rotations, j)
    {
      if 0 < j && j in BONE_OF {
        BoneInRange(j);
        BonesDiffer(a, j);
      }
    }
  }

  lemma TurnedMetres(p: Isometry, a: Isometry, p': Isometry, a': Isometry, root: Isometry, q: Mat3)
    requires Sub(p'.t, a'.t) == MulVec(q, Sub(p.t, a.t))
    ensures Sub(InMetres(p', root), InMetres(a', root)) == MulVec(q, Sub(InMetres(p, root), InMetres(a, root)))
  {
    MetresDifference(p', a', root);
    MetresDifference(p, a, root);
    MulVecScale(q, 1.0 / 1000.0, Sub(p.t, a.t));
  }

  /** Turning the bone of joint a turns, in the decoded hand, all joints below it as one rigid
      body about it and moves nothing else. */
  lemma DecodedTurn(template: seq<Vec3>, scale: real, rotations: seq<Mat3>, rotations': seq<Mat3>, a: int)
    returns (q: Mat3)
    requires |template| == JOINTS && |rotations| == |rotations'| == BONES - 1
    requires forall k | 0 <= k < BONES - 1 :: IsOrthogonal(rotations[k]) && IsOrthogonal(rotations'[k])
    requires 0 < a < JOINTS && a in BONE_OF && 0 < BONE_OF[a] < BONES
    requires forall i | 0 <= i < BONES - 1 && i != BONE_OF[a] - 1 :: rotations'[i] == rotations[i]
    ensures IsOrthogonal(q)
    ensures forall j | 0 <= j < JOINTS ::
              if IsAncestor(HandSkeleton(template, scale, rotations), a, j)
              then Sub(Decoded(template, scale, rotations', j), Decoded(template, scale, rotations', a))
                == MulVec(q, Sub(Decoded(template, scale, rotations, j), Decoded(template, scale, rotations, a)))
              else Decoded(template, scale, rotations', j) == Decoded(template, scale, rotations, j)
  {
    var (s, s') := (HandSkeleton(template, scale, rotations), HandSkeleton(template, scale, rotations'));
    OneJointTurned(template, scale, rotations, rotations', a);
    RotationsOrthogonal(template, scale, rotations);
    RotationsOrthogonal(template, scale, rotations');
    TurnsBelow(s, s', a);
    q := Turn(s, s', a);
    forall j | 0 <= j < JOINTS
      ensures IsAncestor(s, a, j) ==> Sub(Posed(s', j), Posed(s', a)) == MulVec(q, Sub(Posed(s, j), Posed(s, a)))
      ensures !IsAncestor(s, a, j) ==> Posed(s', j) == Posed(s, j)
    {
      if IsAncestor(s, a, j) {
        TurnedMetres(Pose(s, j), Pose(s, a), Pose(s', j), Pose(s', a), Pose(s, 0), q);
      }
    }
  }
}
