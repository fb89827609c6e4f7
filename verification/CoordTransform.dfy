/** The coordinate-frame service: pairwise rigid transforms are registered, and a
    depth-first search then completes the table of all pairs, reading the table that it
    is filling in. */
module CoordTransform {
  import opened Geometry

  type Edge = (nat, nat)

  /** The known entries of the table, keyed by (from, to). */
  type Links = map<Edge, Isometry>

  datatype Outcome = Ok | InvalidRotation | InvalidQuaternion | Unreachable(from: nat, to: nat)

  // ----- walks over known entries

  ghost predicate IsWalk(g: set<Edge>, p: seq<nat>, a: nat, b: nat)
  {
    && |p| > 0 && p[0] == a && p[|p| - 1] == b
    && forall k :: 0 <= k < |p| - 1 ==> (p[k], p[k + 1]) in g
  }

  ghost predicate Linked(g: set<Edge>, a: nat, b: nat) { exists p :: IsWalk(g, p, a, b) }

  ghost predicate Connected(g: set<Edge>, n: nat) { forall a: nat, b: nat | a < n && b < n :: Linked(g, a, b) }

  ghost predicate Symmetric(g: set<Edge>) { forall a, b :: (a, b) in g ==> (b, a) in g }

  lemma LinkedSelf(g: set<Edge>, a: nat)
    ensures Linked(g, a, a)
  {
    assert IsWalk(g, [a], a, a);
  }

  lemma LinkedEdge(g: set<Edge>, a: nat, b: nat)
    requires (a, b) in g
    ensures Linked(g, a, b)
  {
    assert IsWalk(g, [a, b], a, b);
  }

  lemma LinkedTrans(g: set<Edge>, a: nat, b: nat, c: nat)
    requires Linked(g, a, b) && Linked(g, b, c)
    ensures Linked(g, a, c)
  {
    var p :| IsWalk(g, p, a, b);
    var q :| IsWalk(g, q, b, c);
    var w := p + q[1..];
    forall k | 0 <= k < |w| - 1
      ensures (w[k], w[k + 1]) in g
    {
      if k == |p| - 1 { assert w[k] == q[0]; }
      if k >= |p| { assert w[k] == q[k - |p| + 1]; }
    }
    assert w[|w| - 1] == c by { if |q| > 1 { assert w[|w| - 1] == q[|q| - 1]; } }
    assert IsWalk(g, w, a, c);
  }

  lemma {:induction false} LinkedSymmetric(g: set<Edge>, p: seq<nat>, a: nat, b: nat)
    requires Symmetric(g) && IsWalk(g, p, a, b)
    ensures Linked(g, b, a)
    decreases |p|
  {
    if |p| == 1 {
      LinkedSelf(g, a);
    } else {
      assert (p[0], p[1]) in g;
      assert IsWalk(g, p[1..], p[1], b);
      LinkedSymmetric(g, p[1..], p[1], b);
      LinkedEdge(g, p[1], a);
      LinkedTrans(g, b, p[1], a);
    }
  }

  /** A set closed under the edges cannot be left along a walk. */
  lemma {:induction false} WalkStaysInside(g: set<Edge>, inside: set<nat>, p: seq<nat>, a: nat, b: nat)
    requires a in inside && IsWalk(g, p, a, b)
    requires forall e :: e in g && e.0 in inside ==> e.1 in inside
    ensures b in inside
    decreases |p|
  {
    if |p| > 1 {
      assert (p[0], p[1]) in g;
      assert (p[0], p[1]).0 in inside;
      assert IsWalk(g, p[1..], p[1], b);
      WalkStaysInside(g, inside, p[1..], p[1], b);
    }
  }

  lemma ClosedSetSeparates(g: set<Edge>, inside: set<nat>, a: nat, b: nat)
    requires a in inside && b !in inside
    requires forall e :: e in g && e.0 in inside ==> e.1 in inside
    ensures !Linked(g, a, b)
  {
    forall p | IsWalk(g, p, a, b)
      ensures false
    {
      WalkStaysInside(g, inside, p, a, b);
    }
  }

  // ----- poses: one placement of every frame in a common reference

  ghost predicate ArePoses(poses: seq<Isometry>, n: nat)
  {
    |poses| == n && forall k :: 0 <= k < n ==> IsRigid(poses[k])
  }

  /** The transform from frame i to frame j that the poses imply. */
  function Relative(poses: seq<Isometry>, i: nat, j: nat): Isometry
    requires i < |poses| && j < |poses|
  {
    Compose(Inverse(poses[j]), poses[i])
  }

  ghost predicate Agrees(links: Links, poses: seq<Isometry>)
  {
    forall e :: e in links ==> e.0 < |poses| && e.1 < |poses| && links[e] == Relative(poses, e.0, e.1)
  }

  lemma RelativeChain(poses: seq<Isometry>, i: nat, j: nat, k: nat)
    requires ArePoses(poses, |poses|) && i < |poses| && j < |poses| && k < |poses|
    ensures Compose(Relative(poses, j, k), Relative(poses, i, j)) == Relative(poses, i, k)
  {
    var (back, pj, pi) := (Inverse(poses[k]), poses[j], poses[i]);
    calc {
      Compose(Compose(back, pj), Compose(Inverse(pj), pi));
      { ComposeAssoc(back, pj, Compose(Inverse(pj), pi)); ComposeAssoc(pj, Inverse(pj), pi); }
      Compose(back, Compose(Compose(pj, Inverse(pj)), pi));
      { ComposeInverse(pj); ComposeIdentity(pi); }
      Compose(back, pi);
    }
  }

  lemma RelativeInverse(poses: seq<Isometry>, i: nat, j: nat)
    requires ArePoses(poses, |poses|) && i < |poses| && j < |poses|
    ensures Relative(poses, j, i) == Inverse(Relative(poses, i, j))
    ensures Relative(poses, i, i) == IDENTITY
    ensures IsRigid(Relative(poses, i, j))
  {
    InverseRigid(poses[j]);
    InverseCompose(Inverse(poses[j]), poses[i]);
    ComposeInverse(poses[i]);
    ComposeRigid(Inverse(poses[j]), poses[i]);
  }

  ghost function Frames(n: nat): (r: set<nat>)
    ensures forall k: nat :: k in r <==> k < n
  {
    if n == 0 then {} else Frames(n - 1) + {n - 1}
  }

  // ----- the service

  class CoordTransformService {
    const n: nat
    const accepts: Mat3 -> bool
    const transforms: array2<Isometry>
    const known: array2<bool>

    ghost predicate Valid()
      reads this, transforms, known
    {
      && transforms.Length0 == n && transforms.Length1 == n
      && known.Length0 == n && known.Length1 == n
      && forall i, j | 0 <= i < n && 0 <= j < n :: !known[i, j] ==> transforms[i, j] == IDENTITY
    }

    /** The known part of the table. */
    ghost function Known(): Links
      requires Valid()
      reads this, transforms, known
    {
      map i: nat, j: nat | i < n && j < n && known[i, j] :: (i, j) := transforms[i, j]
    }

    /** `test` is the test of rotation matrices at some precision. */
    constructor (frames: nat, test: Mat3 -> bool)
      ensures Valid() && n == frames && accepts == test && Known() == map[]
      ensures fresh(transforms) && fresh(known)
    {
      n, accepts := frames, test;
      transforms := new Isometry[frames, frames]((_, _) => IDENTITY);
      known := new bool[frames, frames]((_, _) => false);
    }

    method SetTransformInternal(from: nat, to: nat, t: Isometry)
      requires Valid() && from < n && to < n
      modifies transforms, known
      ensures Valid() && Known() == old(Known())[(from, to) := t]
    {
      transforms[from, to] := t;
      known[from, to] := true;
    }

    method SetTransform(from: nat, to: nat, rotation: Mat3, translation: Vec3) returns (r: Outcome)
      requires Valid() && from < n && to < n
      modifies transforms, known
      ensures Valid()
      ensures r == if accepts(rotation) then Ok else InvalidRotation
      ensures Known() == if r.Ok? then Register(old(Known()), Registration(from, to, Isometry(rotation, translation)))
                         else old(Known())
    {
      if !accepts(rotation) {
        return InvalidRotation;
      }
      var t := Isometry(rotation, translation);
      SetTransformInternal(from, to, t);
      SetTransformInternal(to, from, Inverse(t));
      return Ok;
    }

    method SetTransformByQuaternion(from: nat, to: nat, rotation: Quaternion, translation: Vec3) returns (r: Outcome)
      requires Valid() && from < n && to < n
      modifies transforms, known
      ensures Valid()
      ensures r == if PassesUnitTest(rotation) then Ok else InvalidQuaternion
      ensures Known() == if r.Ok?
                         then Register(old(Known()), Registration(from, to, Isometry(ToMatrix(rotation), translation)))
                         else old(Known())
    {
      if !PassesUnitTest(rotation) {
        return InvalidQuaternion;
      }
      var t := Isometry(ToMatrix(rotation), translation);
      SetTransformInternal(from, to, t);
      SetTransformInternal(to, from, Inverse(t));
      return Ok;
    }

    /** One search step.  `visited` is shared by the whole search and returned grown.  The
        walk set g and the poses only name what every new entry is sound against. */
    method CalculateTransform(from: nat, to: nat, visited: set<nat>, ghost g: set<Edge>, ghost poses: seq<Isometry>)
      returns (seen: set<nat>)
      requires Valid() && from < n && to < n && visited <= Frames(n)
      requires (from, to) !in Known()
      modifies transforms, known
      ensures Valid() && seen <= Frames(n)
      ensures Searched(old(Known()), Known(), from, to, visited, seen)
      ensures Sound(old(Known()), Known(), g, poses)
      decreases Frames(n) - visited, 0
    {
      seen := visited;
      if from in visited {
        return;
      }
      seen := seen + {from};
      ghost var l0, links := Known(), Known();
      for i := 0 to n
        invariant Valid() && seen <= Frames(n) && links == Known()
        invariant Searching(l0, links, from, to, visited, seen, i)
        invariant Sound(l0, links, g, poses)
      {
        seen := ExamineColumn(from, i, to, visited, seen, l0, g, poses);
        links := Known();
      }
      RowDone(l0, links, from, to, visited, seen, n);
    }

    /** The loop body of the search: column i of row `from`. */
    method ExamineColumn(from: nat, i: nat, to: nat, ghost visited: set<nat>, visitedSoFar: set<nat>,
                         ghost l0: Links, ghost g: set<Edge>, ghost poses: seq<Isometry>)
      returns (seen: set<nat>)
      requires Valid() && from < n && i < n && to < n && visitedSoFar <= Frames(n)
      requires (from, to) !in l0
      requires Searching(l0, Known(), from, to, visited, visitedSoFar, i)
      modifies transforms, known
      ensures Valid() && seen <= Frames(n)
      ensures Searching(l0, Known(), from, to, visited, seen, i + 1)
      ensures Sound(old(Known()), Known(), g, poses)
      decreases Frames(n) - visitedSoFar, 1
    {
      ghost var links := Known();
      assert (from, i) in links <==> known[from, i];
      assert (i, to) in links <==> known[i, to];
      seen := visitedSoFar;
      if known[from, i] && known[i, to] {
        Chain(from, i, to, g, poses);
        FoundHere(l0, links, from, i, to, visited, seen);
      } else if known[from, i] {
        seen := CalculateTransform(i, to, seen, g, poses);
        ghost var inner := Known();
        assert (from, i) in inner;
        if known[i, to] {
          Chain(from, i, to, g, poses);
          FoundBelow(l0, links, inner, from, i, to, visited, visitedSoFar, seen);
        } else {
          NotFoundBelow(l0, links, inner, from, i, to, visited, visitedSoFar, seen);
        }
      } else {
        NoEntry(l0, links, from, i, to, visited, seen);
      }
    }

    /** Complete the table.  It succeeds exactly when the entries registered before the call
        connect all frames; if some placement of the frames agrees with those entries, the
        completed table is the one that placement implies. */
    method Finalize(ghost poses: seq<Isometry>) returns (r: Outcome)
      requires Valid()
      modifies transforms, known
      ensures Valid() && Extends(old(Known()), Known()) && (r.Ok? || r.Unreachable?)
      ensures r.Ok? <==> Connected(old(Known()).Keys, n)
      ensures r.Ok? ==> Complete(Known(), n)
      ensures Complete(old(Known()), n) ==> Known() == old(Known())
      ensures r.Unreachable? ==> r.from < n && r.to < n && !Linked(old(Known()).Keys, r.from, r.to)
      ensures r.Ok? && ArePoses(poses, n) && Agrees(old(Known()), poses) ==> Implied(poses)
    {
      ghost var l0, links := Known(), Known();
      ghost var g := l0.Keys;
      WithinSelf(l0);
      for i := 0 to n
        invariant Valid() && links == Known() && Extends(l0, links) && Sound(l0, links, g, poses)
        invariant CompleteUpTo(links, n, i, 0) && (Complete(l0, n) ==> links == l0)
      {
        for j := 0 to n
          invariant Valid() && links == Known() && Extends(l0, links) && Sound(l0, links, g, poses)
          invariant CompleteUpTo(links, n, i, j) && (Complete(l0, n) ==> links == l0)
        {
          var found := EnsurePair(i, j, l0, poses);
          if !found {
            return Unreachable(i, j);
          }
          NextPair(links, Known(), n, i, j);
          links := Known();
        }
      }
      CompleteConnects(links, g, n);
      if ArePoses(poses, n) && Agrees(l0, poses) {
        EntriesImplied(poses);
      }
      return Ok;
    }

    /** The loop body of the completion: one pair. */
    method EnsurePair(i: nat, j: nat, ghost l0: Links, ghost poses: seq<Isometry>) returns (found: bool)
      requires Valid() && i < n && j < n && Extends(l0, Known())
      modifies transforms, known
      ensures Valid() && Extends(old(Known()), Known())
      ensures Sound(old(Known()), Known(), l0.Keys, poses)
      ensures found ==> i == j || (i, j) in Known()
      ensures (i, j) in old(Known()) ==> Known() == old(Known())
      ensures i == j ==> Known() == old(Known())
      ensures !found ==> !Linked(l0.Keys, i, j)
    {
      assert (i, j) in Known() <==> known[i, j];
      found := true;
      if i != j && !known[i, j] {
        ghost var before := Known();
        var visited := CalculateTransform(i, j, {}, l0.Keys, poses);
        assert (i, j) in Known() <==> known[i, j];
        if !known[i, j] {
          FailureSeparates(l0, before, i, j, visited);
          found := false;
        }
      }
    }

    /** Every entry of the table, diagonal included, is what the poses imply. */
    ghost predicate Implied(poses: seq<Isometry>)
      requires Valid() && |poses| == n
      reads this, transforms, known
    {
      forall i: nat, j: nat | i < n && j < n :: transforms[i, j] == Relative(poses, i, j)
    }

    lemma EntriesImplied(poses: seq<Isometry>)
      requires Valid() && ArePoses(poses, n) && Complete(Known(), n) && Agrees(Known(), poses)
      ensures Implied(poses)
    {
      forall i: nat, j: nat | i < n && j < n
        ensures transforms[i, j] == Relative(poses, i, j)
      {
        assert (i, j) in Known() <==> known[i, j];
        RelativeInverse(poses, i, j);
      }
    }

    lemma KnownAgrees(poses: seq<Isometry>)
      requires Valid() && |poses| == n && Implied(poses)
      ensures Agrees(Known(), poses)
    {
    }

    /** The laws a caller relies on, for a table that some placement implies. */
    lemma TableLaws(poses: seq<Isometry>, i: nat, j: nat, k: nat, p: Vec3)
      requires Valid() && ArePoses(poses, n) && Implied(poses)
      requires i < n && j < n && k < n
      ensures Compose(transforms[j, k], transforms[i, j]) == transforms[i, k]
      ensures transforms[j, i] == Inverse(transforms[i, j])
      ensures transforms[i, i] == IDENTITY
      ensures Apply(transforms[j, i], Apply(transforms[i, j], p)) == p
    {
      RelativeChain(poses, i, j, k);
      RelativeChain(poses, i, j, i);
      RelativeInverse(poses, i, j);
      ApplyCompose(transforms[j, i], transforms[i, j], p);
      assert Apply(IDENTITY, p) == p;
    }

    method TransformPoints(from: nat, to: nat, points: seq<Vec3>) returns (moved: seq<Vec3>)
      requires Valid() && from < n && to < n
      ensures |moved| == |points|
      ensures forall k :: 0 <= k < |points| ==> moved[k] == Apply(transforms[from, to], points[k])
    {
      moved := [];
      for k := 0 to |points|
        invariant |moved| == k
        invariant forall m :: 0 <= m < k ==> moved[m] == Apply(transforms[from, to], points[m])
      {
        moved := moved + [Apply(transforms[from, to], points[k])];
      }
    }

    /** Write entry (from, to) as the composition through `via`. */
    method Chain(from: nat, via: nat, to: nat, ghost g: set<Edge>, ghost poses: seq<Isometry>)
      requires Valid() && from < n && via < n && to < n
      requires known[from, via] && known[via, to]
      modifies transforms, known
      ensures Valid()
      ensures (via, to) in old(Known()) && (from, via) in old(Known())
      ensures Known() == Chained(old(Known()), from, via, to)
      ensures Sound(old(Known()), Known(), g, poses)
    {
      ghost var links := Known();
      assert (from, via) in links && (via, to) in links;
      ChainSound(links, from, via, to, g, poses);
      SetTransformInternal(from, to, Compose(transforms[via, to], transforms[from, via]));
    }
  }

  ghost function Chained(links: Links, from: nat, via: nat, to: nat): Links
    requires (via, to) in links && (from, via) in links
  {
    links[(from, to) := Compose(links[(via, to)], links[(from, via)])]
  }

  /** Soundness of the known entries, against walks over g and against the poses, is kept. */
  ghost predicate Sound(l0: Links, l1: Links, g: set<Edge>, poses: seq<Isometry>)
  {
    && (Within(l0, g) ==> Within(l1, g))
    && (ArePoses(poses, |poses|) && Agrees(l0, poses) ==> Agrees(l1, poses))
  }

  lemma ChainSound(links: Links, from: nat, via: nat, to: nat, g: set<Edge>, poses: seq<Isometry>)
    requires (via, to) in links && (from, via) in links
    ensures Sound(links, Chained(links, from, via, to), g, poses)
  {
    var after := Chained(links, from, via, to);
    if Within(links, g) {
      LinkedTrans(g, from, via, to);
      assert Within(after, g);
    }
    if ArePoses(poses, |poses|) && Agrees(links, poses) {
      RelativeChain(poses, from, via, to);
      assert Agrees(after, poses);
    }
  }

  // ----- what a search guarantees

  ghost predicate Extends(l0: Links, l1: Links) { forall e :: e in l0 ==> e in l1 && l1[e] == l0[e] }

  /** Only column `to` of rows first visited by this search is written. */
  ghost predicate OnlyColumn(l0: Links, l1: Links, to: nat, visited: set<nat>, seen: set<nat>)
  {
    forall e :: e in l1 && e !in l0 ==> e.1 == to && e.0 in seen && e.0 !in visited
  }

  /** Rows of `inside` lead only into `seen`, and never to a frame that knows `to`. */
  ghost predicate Closed(links: Links, to: nat, inside: set<nat>, seen: set<nat>)
  {
    forall e :: e in links && e.0 in inside ==> e.1 in seen && (e.1, to) !in links
  }

  /** What was known is kept; a failed search writes nothing, and the frames it visited are
      closed under the known entries and miss the target. */
  ghost predicate Searched(l0: Links, l1: Links, from: nat, to: nat, visited: set<nat>, seen: set<nat>)
  {
    && visited + {from} <= seen
    && Extends(l0, l1)
    && OnlyColumn(l0, l1, to, visited, seen)
    && (from in visited ==> l1 == l0 && seen == visited)
    && ((from, to) !in l1 ==>
          && l1 == l0
          && Closed(l1, to, seen - visited, seen)
          && (from != to && to !in visited ==> to !in seen))
  }

  /** The same, with the entries of row `from` examined up to column i. */
  ghost predicate Searching(l0: Links, l: Links, from: nat, to: nat, visited: set<nat>, seen: set<nat>, i: nat)
  {
    && visited + {from} <= seen
    && from !in visited
    && Extends(l0, l)
    && OnlyColumn(l0, l, to, visited, seen)
    && ((from, to) !in l ==>
          && l == l0
          && Closed(l, to, seen - visited - {from}, seen)
          && (forall k: nat | k < i && (from, k) in l :: k in seen && (k, to) !in l)
          && (from != to && to !in visited ==> to !in seen))
  }

  lemma FoundHere(l0: Links, l: Links, from: nat, i: nat, to: nat, visited: set<nat>, seen: set<nat>)
    requires Searching(l0, l, from, to, visited, seen, i)
    requires (from, i) in l && (i, to) in l && (from, to) !in l0
    ensures Searching(l0, Chained(l, from, i, to), from, to, visited, seen, i + 1)
  {
  }

  lemma NoEntry(l0: Links, l: Links, from: nat, i: nat, to: nat, visited: set<nat>, seen: set<nat>)
    requires Searching(l0, l, from, to, visited, seen, i)
    requires (from, i) !in l
    ensures Searching(l0, l, from, to, visited, seen, i + 1)
  {
  }

  lemma RowDone(l0: Links, l: Links, from: nat, to: nat, visited: set<nat>, seen: set<nat>, n: nat)
    requires Searching(l0, l, from, to, visited, seen, n)
    requires forall e :: e in l ==> e.1 < n
    ensures Searched(l0, l, from, to, visited, seen)
  {
  }

  lemma FoundBelow(l0: Links, l: Links, inner: Links, from: nat, i: nat, to: nat,
                   visited: set<nat>, before: set<nat>, seen: set<nat>)
    requires Searching(l0, l, from, to, visited, before, i)
    requires Searched(l, inner, i, to, before, seen)
    requires (from, i) in inner && (i, to) in inner && (from, to) !in l0
    ensures Searching(l0, Chained(inner, from, i, to), from, to, visited, seen, i + 1)
  {
  }

  lemma NotFoundBelow(l0: Links, l: Links, inner: Links, from: nat, i: nat, to: nat,
                      visited: set<nat>, before: set<nat>, seen: set<nat>)
    requires Searching(l0, l, from, to, visited, before, i)
    requires Searched(l, inner, i, to, before, seen)
    requires (from, i) in l && (i, to) !in l && (i, to) !in inner
    ensures Searching(l0, inner, from, to, visited, seen, i + 1)
  {
    assert inner == l;
    if (from, to) !in l {
      assert i != to;
    }
  }

  /** Every known entry joins two frames that a walk over g joins. */
  ghost predicate Within(links: Links, g: set<Edge>) { forall e :: e in links ==> Linked(g, e.0, e.1) }

  ghost predicate CompleteUpTo(links: Links, n: nat, i: nat, j: nat)
  {
    forall a: nat, b: nat | a < n && b < n && a != b && (a < i || (a == i && b < j)) :: (a, b) in links
  }

  lemma NextPair(links: Links, more: Links, n: nat, i: nat, j: nat)
    requires CompleteUpTo(links, n, i, j) && Extends(links, more)
    requires i == j || (i, j) in more
    ensures CompleteUpTo(more, n, i, j + 1)
  {
  }

  ghost predicate Complete(links: Links, n: nat) { CompleteUpTo(links, n, n, 0) }

  lemma WithinSelf(links: Links)
    ensures Within(links, links.Keys)
  {
    forall e | e in links
      ensures Linked(links.Keys, e.0, e.1)
    {
      LinkedEdge(links.Keys, e.0, e.1);
    }
  }

  lemma CompleteConnects(links: Links, g: set<Edge>, n: nat)
    requires Complete(links, n) && Within(links, g)
    ensures Connected(g, n)
  {
    forall a: nat, b: nat | a < n && b < n
      ensures Linked(g, a, b)
    {
      if a == b { LinkedSelf(g, a); } else { assert (a, b) in links; }
    }
  }

  /** The frames visited by a failed search separate its end points. */
  lemma FailureSeparates(l0: Links, links: Links, from: nat, to: nat, seen: set<nat>)
    requires Extends(l0, links) && from != to && (from, to) !in links
    requires Searched(links, links, from, to, {}, seen)
    ensures !Linked(l0.Keys, from, to)
  {
    ClosedSetSeparates(l0.Keys, seen, from, to);
  }

  // ----- overwriting entries of a completed table

  /** Some placement of the frames agrees with all entries. */
  ghost predicate Placed(links: Links, n: nat) { exists poses :: ArePoses(poses, n) && Agrees(links, poses) }

  /** The entries that both tables have in common. */
  ghost function Kept(links: Links, changed: Links): set<Edge>
  {
    set e | e in links && e in changed && changed[e] == links[e]
  }

  lemma {:induction false} SameAlongWalk(links: Links, changed: Links, poses: seq<Isometry>, others: seq<Isometry>,
                                         p: seq<nat>, a: nat, b: nat)
    requires ArePoses(poses, |poses|) && ArePoses(others, |poses|) && Agrees(links, poses) && Agrees(changed, others)
    requires IsWalk(Kept(links, changed), p, a, b) && a < |poses|
    ensures b < |poses| && Relative(poses, a, b) == Relative(others, a, b)
    decreases |p|
  {
    if |p| == 1 {
      RelativeInverse(poses, a, a);
      RelativeInverse(others, a, a);
    } else {
      assert (p[0], p[1]) in Kept(links, changed);
      assert IsWalk(Kept(links, changed), p[1..], p[1], b);
      SameAlongWalk(links, changed, poses, others, p[1..], p[1], b);
      RelativeChain(poses, a, p[1], b);
      RelativeChain(others, a, p[1], b);
    }
  }

  /** If the entries that stay connect all frames, they fix all others: after any change of the
      rest no placement agrees with the table. */
  lemma ChangedPlacedIff(links: Links, changed: Links, poses: seq<Isometry>)
    requires ArePoses(poses, |poses|) && Agrees(links, poses) && changed.Keys == links.Keys
    requires Connected(Kept(links, changed), |poses|)
    ensures Placed(changed, |poses|) <==> changed == links
  {
    if Placed(changed, |poses|) {
      var others :| ArePoses(others, |poses|) && Agrees(changed, others);
      forall e | e in links
        ensures changed[e] == links[e]
      {
        assert Linked(Kept(links, changed), e.0, e.1);
        var p :| IsWalk(Kept(links, changed), p, e.0, e.1);
        SameAlongWalk(links, changed, poses, others, p, e.0, e.1);
      }
    }
  }

  // ----- registering a forest always leaves a consistent placement

  datatype Registration = Registration(from: nat, to: nat, t: Isometry)

  /** Registering a pair records the transform and, after it, the inverse the other way. */
  function Register(links: Links, reg: Registration): Links
  {
    links[(reg.from, reg.to) := reg.t][(reg.to, reg.from) := Inverse(reg.t)]
  }

  function Registered(regs: seq<Registration>): Links
  {
    if regs == [] then map[] else Register(Registered(regs[..|regs| - 1]), regs[|regs| - 1])
  }

  /** Every registration joins two frames that the earlier ones leave apart. */
  ghost predicate IsForest(regs: seq<Registration>, n: nat)
  {
    forall k :: 0 <= k < |regs| ==>
      && regs[k].from < n && regs[k].to < n && IsRigid(regs[k].t)
      && !Linked(Registered(regs[..k]).Keys, regs[k].from, regs[k].to)
  }

  lemma {:induction false} RegisteredSymmetric(regs: seq<Registration>)
    ensures Symmetric(Registered(regs).Keys)
  {
    if regs != [] { RegisteredSymmetric(regs[..|regs| - 1]); }
  }

  /** Move the frames linked to b so that the new pair (a, b) gets the transform t. */
  ghost function Reposed(poses: seq<Isometry>, g: set<Edge>, a: nat, b: nat, t: Isometry): seq<Isometry>
    requires a < |poses| && b < |poses|
  {
    var q := Compose(Compose(poses[a], Inverse(t)), Inverse(poses[b]));
    seq(|poses|, k requires 0 <= k < |poses| => if Linked(g, k, b) then Compose(q, poses[k]) else poses[k])
  }

  /** Moving two frames by the same transform keeps their relative transform. */
  lemma RelativeMoved(q: Isometry, pi: Isometry, pj: Isometry)
    requires IsRigid(q) && IsRigid(pj)
    ensures Compose(Inverse(Compose(q, pj)), Compose(q, pi)) == Compose(Inverse(pj), pi)
  {
    calc {
      Compose(Inverse(Compose(q, pj)), Compose(q, pi));
      { InverseCompose(q, pj); ComposeAssoc(Inverse(pj), Inverse(q), Compose(q, pi)); }
      Compose(Inverse(pj), Compose(Inverse(q), Compose(q, pi)));
      { ComposeAssoc(Inverse(q), q, pi); ComposeInverse(q); ComposeIdentity(pi); }
      Compose(Inverse(pj), pi);
    }
  }

  /** The moved frame b sees frame a through t. */
  lemma AttachedPair(pa: Isometry, pb: Isometry, t: Isometry)
    requires IsRigid(pa) && IsRigid(pb) && IsRigid(t)
    ensures var q := Compose(Compose(pa, Inverse(t)), Inverse(pb));
            && IsRigid(q) && IsRigid(Compose(q, pb))
            && Compose(Inverse(Compose(q, pb)), pa) == t
            && Compose(Inverse(pa), Compose(q, pb)) == Inverse(t)
  {
    var back := Inverse(t);
    var x := Compose(pa, back);
    InverseRigid(t);
    InverseRigid(pb);
    ComposeRigid(pa, back);
    ComposeRigid(x, Inverse(pb));
    var q := Compose(x, Inverse(pb));
    ComposeRigid(q, pb);
    calc {
      Compose(q, pb);
      { ComposeAssoc(x, Inverse(pb), pb); ComposeInverse(pb); ComposeIdentity(x); }
      x;
    }
    calc {
      Compose(Inverse(x), pa);
      { InverseCompose(pa, back); ComposeAssoc(t, Inverse(pa), pa); }
      Compose(t, Compose(Inverse(pa), pa));
      { ComposeInverse(pa); ComposeIdentity(t); }
      t;
    }
    ComposeAssoc(Inverse(pa), pa, back);
    ComposeInverse(pa);
    ComposeIdentity(back);
  }

  lemma ReposedAgrees(links: Links, poses: seq<Isometry>, reg: Registration)
    requires Symmetric(links.Keys) && ArePoses(poses, |poses|) && Agrees(links, poses)
    requires reg.from < |poses| && reg.to < |poses| && IsRigid(reg.t)
    requires !Linked(links.Keys, reg.from, reg.to)
    ensures var moved := Reposed(poses, links.Keys, reg.from, reg.to, reg.t);
            ArePoses(moved, |poses|) && Agrees(Register(links, reg), moved)
  {
    var g := links.Keys;
    var (a, b, t) := (reg.from, reg.to, reg.t);
    var moved := Reposed(poses, g, a, b, t);
    var q := Compose(Compose(poses[a], Inverse(t)), Inverse(poses[b]));
    LinkedSelf(g, b);
    AttachedPair(poses[a], poses[b], t);
    MovedRigid(poses, q, moved);
    KeptPairs(links, poses, q, moved, b);
    RegisterAgrees(links, reg, moved);
  }

  lemma RegisterAgrees(links: Links, reg: Registration, poses: seq<Isometry>)
    requires Agrees(links, poses) && reg.from < |poses| && reg.to < |poses|
    requires Relative(poses, reg.from, reg.to) == reg.t
    requires Relative(poses, reg.to, reg.from) == Inverse(reg.t)
    ensures Agrees(Register(links, reg), poses)
  {
  }

  lemma MovedRigid(poses: seq<Isometry>, q: Isometry, moved: seq<Isometry>)
    requires ArePoses(poses, |poses|) && IsRigid(q) && |moved| == |poses|
    requires forall k :: 0 <= k < |poses| ==> moved[k] == Compose(q, poses[k]) || moved[k] == poses[k]
    ensures ArePoses(moved, |poses|)
  {
    forall k | 0 <= k < |poses|
      ensures IsRigid(moved[k])
    {
      ComposeRigid(q, poses[k]);
    }
  }

  /** Pairs linked before the move keep their relative transform. */
  lemma KeptPairs(links: Links, poses: seq<Isometry>, q: Isometry, moved: seq<Isometry>, b: nat)
    requires Symmetric(links.Keys) && ArePoses(poses, |poses|) && Agrees(links, poses)
    requires IsRigid(q) && |moved| == |poses|
    requires forall k :: 0 <= k < |poses| ==>
               moved[k] == if Linked(links.Keys, k, b) then Compose(q, poses[k]) else poses[k]
    ensures Agrees(links, moved)
  {
    forall e | e in links
      ensures e.0 < |moved| && e.1 < |moved| && links[e] == Relative(moved, e.0, e.1)
    {
      SameSide(links.Keys, e.0, e.1, b);
      if Linked(links.Keys, e.0, b) {
        RelativeMoved(q, poses[e.0], poses[e.1]);
      }
    }
  }

  lemma SameSide(g: set<Edge>, i: nat, j: nat, b: nat)
    requires Symmetric(g) && (i, j) in g
    ensures Linked(g, i, b) <==> Linked(g, j, b)
  {
    LinkedEdge(g, i, j);
    LinkedEdge(g, j, i);
    if Linked(g, i, b) { LinkedTrans(g, j, i, b); }
    if Linked(g, j, b) { LinkedTrans(g, i, j, b); }
  }

  /** Whatever transforms a forest of pairs is registered with, some placement of all the
      frames agrees with every one of them. */
  lemma {:induction false} ForestHasPoses(regs: seq<Registration>, n: nat) returns (poses: seq<Isometry>)
    requires IsForest(regs, n)
    ensures ArePoses(poses, n) && Agrees(Registered(regs), poses)
  {
    if regs == [] {
      poses := seq(n, _ => IDENTITY);
    } else {
      var (rest, reg) := (regs[..|regs| - 1], regs[|regs| - 1]);
      assert forall k :: 0 <= k < |rest| ==> rest[..k] == regs[..k];
      var earlier := ForestHasPoses(rest, n);
      RegisteredSymmetric(rest);
      ReposedAgrees(Registered(rest), earlier, reg);
      poses := Reposed(earlier, Registered(rest).Keys, reg.from, reg.to, reg.t);
    }
  }
}
