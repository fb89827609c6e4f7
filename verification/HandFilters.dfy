/** Filtering a hand: keypoints relative to the root are split into palm, index finger and the
    rest, each group goes through its own bank of filters, and the results are merged back. */
module HandFilters {
  import opened Collections
  import opened Geometry
  import opened OneEuro

  const ROOT: nat := 21
  const OTHER_FINGERS: nat := 12
  const PALM_23: set<nat> := {0, 1, 5, 9, 13, 17, 22}
  const PALM_26: set<nat> := {0, 1, 5, 9, 13, 17, 22, 23, 24, 25}
  const INDEX_FINGER: set<nat> := {6, 7, 8}

  // ----- one filter per coordinate

  datatype PointFilter = PointFilter(x: State, y: State, z: State)

  ghost predicate Usable(f: State) { Ready(f) && f.params.beta >= 0.0 }

  ghost predicate PointUsable(f: PointFilter) { Usable(f.x) && Usable(f.y) && Usable(f.z) }

  function Filtered(f: State, v: real): (g: State)
    requires Usable(f)
    ensures Usable(g)
  {
    StepReady(f, v, None);
    Step(f, v, None).value
  }

  function PointStep(f: PointFilter, p: Vec3): (g: PointFilter)
    requires PointUsable(f)
    ensures PointUsable(g)
  {
    PointFilter(Filtered(f.x, p.x), Filtered(f.y, p.y), Filtered(f.z, p.z))
  }

  function Output(f: PointFilter): Vec3 { Vec3(f.x.x.s, f.y.x.s, f.z.x.s) }

  ghost predicate AllUsable(filters: seq<PointFilter>) { forall i | 0 <= i < |filters| :: PointUsable(filters[i]) }

  /** Filter the points of one group in place.  There must be a point for every filter. */
  method FilterHandData(filters: seq<PointFilter>, points: seq<Vec3>)
    returns (filters': seq<PointFilter>, points': seq<Vec3>)
    requires AllUsable(filters) && |filters| <= |points|
    ensures AllUsable(filters') && |filters'| == |filters| && |points'| == |points|
    ensures forall i | 0 <= i < |filters| ::
              filters'[i] == PointStep(filters[i], points[i]) && points'[i] == Output(filters'[i])
    ensures forall i | |filters| <= i < |points| :: points'[i] == points[i]
  {
    filters', points' := filters, points;
    for i := 0 to |filters|
      invariant |filters'| == |filters| && |points'| == |points|
      invariant forall k | 0 <= k < i ::
                  filters'[k] == PointStep(filters[k], points[k]) && points'[k] == Output(filters'[k])
      invariant forall k | i <= k < |filters| :: filters'[k] == filters[k]
      invariant forall k | i <= k < |points| :: points'[k] == points[k]
    {
      var f := PointStep(filters'[i], points'[i]);
      filters' := filters'[i := f];
      points' := points'[i := Output(f)];
    }
  }

  // ----- groups of keypoints

  datatype Group = Root | Palm | Index | Rest

  predicate IsLayout(n: nat, palm: set<nat>) { (n == 23 && palm == PALM_23) || (n == 26 && palm == PALM_26) }

  function GroupOf(i: nat, palm: set<nat>): Group
  {
    if i == ROOT then Root else if i in palm then Palm else if i in INDEX_FINGER then Index else Rest
  }

  /** How many keypoints before i belong to a group. */
  function Rank(i: nat, g: Group, palm: set<nat>): nat
  {
    if i == 0 then 0 else Rank(i - 1, g, palm) + if GroupOf(i - 1, palm) == g then 1 else 0
  }

  lemma {:induction false} RankGrows(i: nat, j: nat, g: Group, palm: set<nat>)
    requires i <= j
    ensures Rank(i, g, palm) <= Rank(j, g, palm)
    ensures i < j && GroupOf(i, palm) == g ==> Rank(i, g, palm) < Rank(j, g, palm)
    decreases j
  {
    if i < j { RankGrows(i, j - 1, g, palm); }
  }

  /** Ranks of the first 23 keypoints, in either layout. */
  lemma {:induction false} PalmRanks(i: nat, palm: set<nat>)
    requires i <= 23 && (palm == PALM_23 || palm == PALM_26)
    ensures Rank(i, Palm, palm) == PalmRank(i)
  {
    if i > 0 {
      PalmRanks(i - 1, palm);
      PalmMember(i - 1, palm);
    }
  }

  lemma PalmMember(i: nat, palm: set<nat>)
    requires i < 23 && (palm == PALM_23 || palm == PALM_26)
    ensures GroupOf(i, palm) == Palm <==> PalmRank(i + 1) == PalmRank(i) + 1
    ensures GroupOf(i, palm) != Palm ==> PalmRank(i + 1) == PalmRank(i)
  {
    assert palm == PALM_23 || palm == PALM_23 + {23, 24, 25};
  }

  function PalmRank(i: nat): nat
  {
    if i == 0 then 0 else if i == 1 then 1 else if i <= 5 then 2 else if i <= 9 then 3
    else if i <= 13 then 4 else if i <= 17 then 5 else if i <= 22 then 6 else 7
  }

  lemma {:induction false} IndexRanks(i: nat, palm: set<nat>)
    requires i <= 26 && (palm == PALM_23 || palm == PALM_26)
    ensures Rank(i, Index, palm) == if i <= 6 then 0 else if i <= 9 then i - 6 else 3
  {
    if i > 0 {
      IndexRanks(i - 1, palm);
      IndexMember(i - 1, palm);
    }
  }

  lemma IndexMember(i: nat, palm: set<nat>)
    requires i < 26 && (palm == PALM_23 || palm == PALM_26)
    ensures GroupOf(i, palm) == Index <==> 6 <= i <= 8
  {
  }

  /** Every keypoint but the root is in one of the groups. */
  lemma {:induction false} RanksAddUp(i: nat, palm: set<nat>)
    ensures Rank(i, Palm, palm) + Rank(i, Index, palm) + Rank(i, Rest, palm) + Rank(i, Root, palm) == i
    ensures Rank(i, Root, palm) == if i > ROOT then 1 else 0
  {
    if i > 0 { RanksAddUp(i - 1, palm); }
  }

  /** The groups are as large as the banks of filters made for them. */
  lemma GroupSizes(n: nat, palm: set<nat>)
    requires IsLayout(n, palm)
    ensures Rank(n, Index, palm) == 3 && Rank(n, Rest, palm) == OTHER_FINGERS && Rank(n, Palm, palm) == n - 16
  {
    PalmRanks(23, palm);
    if n == 26 {
      assert Rank(24, Palm, palm) == 8;
      assert Rank(25, Palm, palm) == 9;
    }
    IndexRanks(n, palm);
    RanksAddUp(n, palm);
  }

  // ----- split and merge

  datatype Groups<T> = Groups(palm: seq<T>, index: seq<T>, rest: seq<T>)

  function Part<T>(s: Groups<T>, g: Group): seq<T>
  {
    match g
    case Palm => s.palm
    case Index => s.index
    case Rest => s.rest
    case Root => []
  }

  /** The place of keypoint i in the groups. */
  ghost predicate Holds<T>(s: Groups<T>, palm: set<nat>, i: nat)
  {
    i != ROOT ==> Rank(i, GroupOf(i, palm), palm) < |Part(s, GroupOf(i, palm))|
  }

  function Slot<T>(s: Groups<T>, palm: set<nat>, i: nat): T
    requires i != ROOT && Holds(s, palm, i)
  {
    Part(s, GroupOf(i, palm))[Rank(i, GroupOf(i, palm), palm)]
  }

  /** The groups are exactly full of the first n keypoints. */
  ghost predicate Sized<T>(s: Groups<T>, palm: set<nat>, n: nat)
  {
    |s.palm| == Rank(n, Palm, palm) && |s.index| == Rank(n, Index, palm) && |s.rest| == Rank(n, Rest, palm)
  }

  lemma SizedHolds<T>(s: Groups<T>, palm: set<nat>, n: nat, i: nat)
    requires Sized(s, palm, n) && i < n
    ensures Holds(s, palm, i)
  {
    RankGrows(i, n, GroupOf(i, palm), palm);
  }

  /** Different keypoints have different places. */
  lemma SlotsDiffer(palm: set<nat>, i: nat, j: nat)
    requires i < j && i != ROOT && j != ROOT
    ensures GroupOf(i, palm) != GroupOf(j, palm) || Rank(i, GroupOf(i, palm), palm) != Rank(j, GroupOf(j, palm), palm)
  {
    RankGrows(i, j, GroupOf(i, palm), palm);
  }

  /** Every place belongs to a keypoint. */
  lemma {:induction false} PlaceHasKeypoint(palm: set<nat>, n: nat, g: Group, r: nat) returns (i: nat)
    requires r < Rank(n, g, palm)
    ensures i < n && GroupOf(i, palm) == g && Rank(i, g, palm) == r
    decreases n
  {
    if r < Rank(n - 1, g, palm) {
      i := PlaceHasKeypoint(palm, n - 1, g, r);
    } else {
      i := n - 1;
    }
  }

  /** Groups are determined by their places. */
  lemma SlotsDetermine<T>(s: Groups<T>, t: Groups<T>, palm: set<nat>, n: nat)
    requires Sized(s, palm, n) && Sized(t, palm, n)
    requires forall i: nat | i < n && i != ROOT && Holds(s, palm, i) && Holds(t, palm, i) ::
               Slot(s, palm, i) == Slot(t, palm, i)
    ensures s == t
  {
    SamePart(s, t, palm, n, Palm);
    SamePart(s, t, palm, n, Index);
    SamePart(s, t, palm, n, Rest);
  }

  lemma SamePart<T>(s: Groups<T>, t: Groups<T>, palm: set<nat>, n: nat, g: Group)
    requires Sized(s, palm, n) && Sized(t, palm, n) && g != Root
    requires forall i: nat | i < n && i != ROOT && Holds(s, palm, i) && Holds(t, palm, i) ::
               Slot(s, palm, i) == Slot(t, palm, i)
    ensures Part(s, g) == Part(t, g)
  {
    forall r: nat | r < |Part(s, g)|
      ensures Part(s, g)[r] == Part(t, g)[r]
    {
      var i := PlaceHasKeypoint(palm, n, g, r);
      SizedHolds(s, palm, n, i);
      SizedHolds(t, palm, n, i);
      assert Slot(s, palm, i) == Slot(t, palm, i);
    }
  }

  function Relative(points: seq<Vec3>, i: nat): Vec3
    requires i < |points| && ROOT < |points|
  {
    Sub(points[i], points[ROOT])
  }

  /** The first i keypoints, relative to the root, are in their places. */
  ghost predicate IsSplit(points: seq<Vec3>, palm: set<nat>, s: Groups<Vec3>, i: nat)
    requires i <= |points| && ROOT < |points|
  {
    && Sized(s, palm, i)
    && forall j: nat | j < i && j != ROOT :: Holds(s, palm, j) && Slot(s, palm, j) == Relative(points, j)
  }

  function Append<T>(s: Groups<T>, g: Group, v: T): Groups<T>
  {
    match g
    case Palm => s.(palm := s.palm + [v])
    case Index => s.(index := s.index + [v])
    case Rest => s.(rest := s.rest + [v])
    case Root => s
  }

  lemma SplitStep(points: seq<Vec3>, palm: set<nat>, s: Groups<Vec3>, i: nat)
    requires i < |points| && ROOT < |points| && IsSplit(points, palm, s, i)
    ensures IsSplit(points, palm, Append(s, GroupOf(i, palm), Relative(points, i)), i + 1)
  {
    var t := Append(s, GroupOf(i, palm), Relative(points, i));
    forall j: nat | j < i + 1 && j != ROOT
      ensures Holds(t, palm, j) && Slot(t, palm, j) == Relative(points, j)
    {
      if j < i {
        assert Holds(s, palm, j) && Slot(s, palm, j) == Relative(points, j);
      }
    }
  }

  method Split(points: seq<Vec3>, palm: set<nat>) returns (s: Groups<Vec3>)
    requires ROOT < |points|
    ensures IsSplit(points, palm, s, |points|)
  {
    s := Groups([], [], []);
    for i := 0 to |points|
      invariant IsSplit(points, palm, s, i)
    {
      SplitStep(points, palm, s, i);
      if i == ROOT {
      } else if i in palm {
        s := s.(palm := s.palm + [Sub(points[i], points[ROOT])]);
      } else if i in INDEX_FINGER {
        s := s.(index := s.index + [Sub(points[i], points[ROOT])]);
      } else {
        s := s.(rest := s.rest + [Sub(points[i], points[ROOT])]);
      }
    }
  }

  /** Put the groups back in the order of the keypoints, with three running indices. */
  method Merge(root: Vec3, s: Groups<Vec3>, palm: set<nat>, n: nat) returns (points: seq<Vec3>)
    requires Sized(s, palm, n)
    ensures |points| == n
    ensures forall i: nat | i < n :: i == ROOT ==> points[i] == root
    ensures forall i: nat | i < n && i != ROOT :: Holds(s, palm, i) && points[i] == Add(root, Slot(s, palm, i))
  {
    points := [];
    var p, q, k := 0, 0, 0;
    for i := 0 to n
      invariant |points| == i && q == Rank(i, Palm, palm) && k == Rank(i, Index, palm) && p == Rank(i, Rest, palm)
      invariant forall j: nat | j < i :: j == ROOT ==> points[j] == root
      invariant forall j: nat | j < i && j != ROOT :: Holds(s, palm, j) && points[j] == Add(root, Slot(s, palm, j))
    {
      SizedHolds(s, palm, n, i);
      if i == ROOT {
        points := points + [root];
      } else if i in palm {
        points := points + [Add(root, s.palm[q])];
        q := q + 1;
      } else if i in INDEX_FINGER {
        points := points + [Add(root, s.index[k])];
        k := k + 1;
      } else {
        points := points + [Add(root, s.rest[p])];
        p := p + 1;
      }
    }
  }

  // ----- one frame

  type Banks = Groups<PointFilter>

  ghost predicate BanksOk(b: Banks, palm: set<nat>, n: nat)
  {
    Sized(b, palm, n) && AllUsable(b.palm) && AllUsable(b.index) && AllUsable(b.rest)
  }

  /** Every keypoint has gone through the filter in its own place, relative to the root; the
      root itself is not filtered. */
  ghost predicate Processed(b: Banks, points: seq<Vec3>, palm: set<nat>, b': Banks, result: seq<Vec3>)
    requires ROOT < |points| && BanksOk(b, palm, |points|)
  {
    && BanksOk(b', palm, |points|) && |result| == |points| && result[ROOT] == points[ROOT]
    && forall i: nat | i < |points| && i != ROOT ::
         && Holds(b, palm, i) && Holds(b', palm, i) && PointUsable(Slot(b, palm, i))
         && Slot(b', palm, i) == PointStep(Slot(b, palm, i), Relative(points, i))
         && result[i] == Add(points[ROOT], Output(Slot(b', palm, i)))
  }

  lemma SlotUsable(b: Banks, palm: set<nat>, n: nat, i: nat)
    requires BanksOk(b, palm, n) && i < n && i != ROOT
    ensures Holds(b, palm, i) && PointUsable(Slot(b, palm, i))
  {
    SizedHolds(b, palm, n, i);
  }

  method Process(b: Banks, points: seq<Vec3>, palm: set<nat>) returns (b': Banks, result: seq<Vec3>)
    requires ROOT < |points| && BanksOk(b, palm, |points|)
    ensures Processed(b, points, palm, b', result)
  {
    var s := Split(points, palm);
    var (palm', index', rest') := ([], [], []);
    var (p, x, r) := ([], [], []);
    index', x := FilterHandData(b.index, s.index);
    rest', r := FilterHandData(b.rest, s.rest);
    palm', p := FilterHandData(b.palm, s.palm);
    b' := Groups(palm', index', rest');
    var filtered := Groups(p, x, r);
    result := Merge(points[ROOT], filtered, palm, |points|);
    forall i: nat | i < |points| && i != ROOT
      ensures Holds(b, palm, i) && Holds(b', palm, i) && PointUsable(Slot(b, palm, i))
      ensures Slot(b', palm, i) == PointStep(Slot(b, palm, i), Relative(points, i))
      ensures result[i] == Add(points[ROOT], Output(Slot(b', palm, i)))
    {
      SlotUsable(b, palm, |points|, i);
      SizedHolds(b', palm, |points|, i);
      assert Holds(s, palm, i) && Slot(s, palm, i) == Relative(points, i);
    }
  }

  // ----- moving the hand

  ghost predicate Moved(points: seq<Vec3>, points': seq<Vec3>, shift: Vec3)
  {
    |points| == |points'| && forall i | 0 <= i < |points| :: points'[i] == Add(points[i], shift)
  }

  lemma RelativeUnmoved(points: seq<Vec3>, points': seq<Vec3>, shift: Vec3, i: nat)
    requires Moved(points, points', shift) && i < |points| && ROOT < |points|
    ensures Relative(points', i) == Relative(points, i)
  {
  }

  /** Moving the whole hand moves every output with it and leaves the filters the same. */
  lemma FrameMoves(b: Banks, points: seq<Vec3>, points': seq<Vec3>, palm: set<nat>, shift: Vec3,
                   after: Banks, result: seq<Vec3>, after': Banks, result': seq<Vec3>)
    requires ROOT < |points| && BanksOk(b, palm, |points|) && Moved(points, points', shift)
    requires Processed(b, points, palm, after, result) && Processed(b, points', palm, after', result')
    ensures after' == after && Moved(result, result', shift)
  {
    forall i: nat | i < |points| && i != ROOT
      ensures Holds(after, palm, i) && Holds(after', palm, i) && Slot(after', palm, i) == Slot(after, palm, i)
      ensures result'[i] == Add(result[i], shift)
    {
      RelativeUnmoved(points, points', shift, i);
    }
    SlotsDetermine(after', after, palm, |points|);
  }

  /** The frames of one hand, with the banks between them and the results. */
  ghost predicate IsRun(palm: set<nat>, n: nat, frames: seq<seq<Vec3>>, banks: seq<Banks>, results: seq<seq<Vec3>>)
  {
    && ROOT < n && |banks| == |frames| + 1 && |results| == |frames|
    && forall k: nat | k < |frames| :: FrameAt(palm, n, frames, banks, results, k)
  }

  ghost predicate FrameAt(palm: set<nat>, n: nat, frames: seq<seq<Vec3>>, banks: seq<Banks>, results: seq<seq<Vec3>>,
                          k: nat)
  {
    && k < |frames| == |results| && |banks| == |frames| + 1
    && FrameOk(palm, n, frames[k], banks[k], banks[k + 1], results[k])
  }

  ghost predicate FrameOk(palm: set<nat>, n: nat, points: seq<Vec3>, b: Banks, b': Banks, result: seq<Vec3>)
  {
    ROOT < n == |points| && BanksOk(b, palm, n) && Processed(b, points, palm, b', result)
  }

  /** In every run, moving each frame by a translation of its own moves the result of that
      frame by the same translation and never touches the filters. */
  lemma {:induction false} RunMoves(palm: set<nat>, n: nat, frames: seq<seq<Vec3>>, banks: seq<Banks>,
                                    results: seq<seq<Vec3>>, frames': seq<seq<Vec3>>, banks': seq<Banks>,
                                    results': seq<seq<Vec3>>, moves: seq<Vec3>, k: nat)
    requires IsRun(palm, n, frames, banks, results) && IsRun(palm, n, frames', banks', results')
    requires |frames'| == |moves| == |frames| && banks'[0] == banks[0] && k <= |frames|
    requires forall j | 0 <= j < |frames| :: Moved(frames[j], frames'[j], moves[j])
    ensures banks'[k] == banks[k]
    ensures forall j | 0 <= j < k :: Moved(results[j], results'[j], moves[j])
    decreases k
  {
    if k > 0 {
      var j := k - 1;
      RunMoves(palm, n, frames, banks, results, frames', banks', results', moves, j);
      assert FrameAt(palm, n, frames, banks, results, j);
      assert FrameAt(palm, n, frames', banks', results', j);
      FrameMoves(banks[j], frames[j], frames'[j], palm, moves[j], banks[k], results[j], banks'[k], results'[j]);
    }
  }

  // ----- both hands

  datatype PointParams = PointParams(x: Params, y: Params, z: Params)

  ghost predicate ParamsOk(freq: real, p: Params) { Create(freq, p).Some? && p.beta >= 0.0 }

  ghost predicate PointParamsOk(freq: real, p: PointParams)
  {
    ParamsOk(freq, p.x) && ParamsOk(freq, p.y) && ParamsOk(freq, p.z)
  }

  function NewPoint(freq: real, p: PointParams): (f: PointFilter)
    requires PointParamsOk(freq, p)
    ensures PointUsable(f)
  {
    PointFilter(Create(freq, p.x).value, Create(freq, p.y).value, Create(freq, p.z).value)
  }

  function NewBank(count: nat, freq: real, p: PointParams): (b: seq<PointFilter>)
    requires PointParamsOk(freq, p)
    ensures |b| == count && AllUsable(b)
  {
    seq(count, _ => NewPoint(freq, p))
  }

  function ResetPoint(f: PointFilter): (g: PointFilter)
    ensures PointUsable(f) ==> PointUsable(g)
  {
    PointFilter(OneEuro.Reset(f.x), OneEuro.Reset(f.y), OneEuro.Reset(f.z))
  }

  function ResetBank(b: seq<PointFilter>): (r: seq<PointFilter>)
    ensures AllUsable(b) ==> AllUsable(r)
  {
    seq(|b|, i requires 0 <= i < |b| => ResetPoint(b[i]))
  }

  function ResetAll(b: Banks): Banks { Groups(ResetBank(b.palm), ResetBank(b.index), ResetBank(b.rest)) }

  lemma ResetAllOk(b: Banks, palm: set<nat>, n: nat)
    requires BanksOk(b, palm, n)
    ensures BanksOk(ResetAll(b), palm, n)
  {
  }

  // ----- a hand that was reset

  ghost predicate Unstarted(f: State) { !f.x.initialized && !f.dx.initialized && f.last.None? }

  /** The filter has the settings of g and no stamp. */
  ghost predicate SetAs(f: State, g: State) { f.params == g.params && f.freq == g.freq && f.last.None? }

  ghost predicate PointUnstarted(f: PointFilter) { Unstarted(f.x) && Unstarted(f.y) && Unstarted(f.z) }

  ghost predicate PointSetAs(f: PointFilter, g: PointFilter) { SetAs(f.x, g.x) && SetAs(f.y, g.y) && SetAs(f.z, g.z) }

  ghost predicate PointSame(f: PointFilter, g: PointFilter) { Same(f.x, g.x) && Same(f.y, g.y) && Same(f.z, g.z) }

  ghost predicate AllUnstarted(b: Banks, palm: set<nat>, n: nat)
  {
    forall i: nat | i < n && i != ROOT :: Holds(b, palm, i) && PointUnstarted(Slot(b, palm, i))
  }

  ghost predicate AllSetAs(b: Banks, c: Banks, palm: set<nat>, n: nat)
  {
    forall i: nat | i < n && i != ROOT ::
      Holds(b, palm, i) && Holds(c, palm, i) && PointSetAs(Slot(b, palm, i), Slot(c, palm, i))
  }

  ghost predicate AllSame(b: Banks, c: Banks, palm: set<nat>, n: nat)
  {
    forall i: nat | i < n && i != ROOT ::
      Holds(b, palm, i) && Holds(c, palm, i) && PointSame(Slot(b, palm, i), Slot(c, palm, i))
  }

  lemma NewPointUnstarted(freq: real, p: PointParams)
    requires PointParamsOk(freq, p)
    ensures PointUnstarted(NewPoint(freq, p))
  {
  }

  lemma NewBankUnstarted(count: nat, freq: real, p: PointParams, r: nat)
    requires PointParamsOk(freq, p) && r < count
    ensures PointUnstarted(NewBank(count, freq, p)[r])
  {
    NewPointUnstarted(freq, p);
  }

  /** The banks that a hand gets at the start. */
  lemma NewIsUnstarted(freq: real, palmParams: PointParams, indexParams: PointParams, otherParams: PointParams,
                       n: nat, palm: set<nat>)
    requires IsLayout(n, palm)
    requires PointParamsOk(freq, palmParams) && PointParamsOk(freq, indexParams) && PointParamsOk(freq, otherParams)
    ensures var b := Groups(NewBank(n - 16, freq, palmParams), NewBank(3, freq, indexParams),
                            NewBank(OTHER_FINGERS, freq, otherParams));
            AllUnstarted(b, palm, n)
  {
    GroupSizes(n, palm);
    var (p, x, o) := (NewBank(n - 16, freq, palmParams), NewBank(3, freq, indexParams),
                      NewBank(OTHER_FINGERS, freq, otherParams));
    forall r: nat | r < |p|
      ensures PointUnstarted(p[r])
    {
      NewBankUnstarted(n - 16, freq, palmParams, r);
    }
    forall r: nat | r < |x|
      ensures PointUnstarted(x[r])
    {
      NewBankUnstarted(3, freq, indexParams, r);
    }
    forall r: nat | r < |o|
      ensures PointUnstarted(o[r])
    {
      NewBankUnstarted(OTHER_FINGERS, freq, otherParams, r);
    }
    PartsUnstarted(Groups(p, x, o), palm, n);
  }

  lemma PartsUnstarted(b: Banks, palm: set<nat>, n: nat)
    requires Sized(b, palm, n)
    requires forall r: nat | r < |b.palm| :: PointUnstarted(b.palm[r])
    requires forall r: nat | r < |b.index| :: PointUnstarted(b.index[r])
    requires forall r: nat | r < |b.rest| :: PointUnstarted(b.rest[r])
    ensures AllUnstarted(b, palm, n)
  {
    forall i: nat | i < n && i != ROOT
      ensures Holds(b, palm, i) && PointUnstarted(Slot(b, palm, i))
    {
      SizedHolds(b, palm, n, i);
    }
  }

  lemma FilteredSetAs(f: State, g: State, v: real)
    requires Usable(f) && SetAs(f, g)
    ensures SetAs(Filtered(f, v), g)
  {
    StepReady(f, v, None);
  }

  /** What an unstarted filter puts out first is the value itself. */
  lemma FilteredRaw(f: State, v: real)
    requires Usable(f) && Unstarted(f)
    ensures Filtered(f, v).x.s == v
  {
    StepReady(f, v, None);
    StepBetween(f, v, None, v, v);
  }

  lemma FrameSetAs(b: Banks, start: Banks, points: seq<Vec3>, palm: set<nat>, b': Banks, result: seq<Vec3>)
    requires ROOT < |points| && BanksOk(b, palm, |points|) && Processed(b, points, palm, b', result)
    requires AllSetAs(b, start, palm, |points|)
    ensures AllSetAs(b', start, palm, |points|)
  {
    forall i: nat | i < |points| && i != ROOT
      ensures Holds(b', palm, i) && PointSetAs(Slot(b', palm, i), Slot(start, palm, i))
    {
      var (f, g, p) := (Slot(b, palm, i), Slot(start, palm, i), Relative(points, i));
      FilteredSetAs(f.x, g.x, p.x);
      FilteredSetAs(f.y, g.y, p.y);
      FilteredSetAs(f.z, g.z, p.z);
    }
  }

  lemma FrameRaw(b: Banks, points: seq<Vec3>, palm: set<nat>, b': Banks, result: seq<Vec3>)
    requires ROOT < |points| && BanksOk(b, palm, |points|) && Processed(b, points, palm, b', result)
    requires AllUnstarted(b, palm, |points|)
    ensures result == points
  {
    forall i: nat | i < |points|
      ensures result[i] == points[i]
    {
      if i != ROOT {
        var (f, p) := (Slot(b, palm, i), Relative(points, i));
        FilteredRaw(f.x, p.x);
        FilteredRaw(f.y, p.y);
        FilteredRaw(f.z, p.z);
        assert Output(Slot(b', palm, i)) == p;
      }
    }
  }

  lemma FrameSame(b: Banks, c: Banks, points: seq<Vec3>, palm: set<nat>, b': Banks, r: seq<Vec3>, c': Banks,
                  q: seq<Vec3>)
    requires ROOT < |points| && BanksOk(b, palm, |points|) && BanksOk(c, palm, |points|)
    requires Processed(b, points, palm, b', r) && Processed(c, points, palm, c', q)
    requires AllSame(b, c, palm, |points|)
    ensures AllSame(b', c', palm, |points|) && r == q
  {
    forall i: nat | i < |points| && i != ROOT
      ensures Holds(b', palm, i) && Holds(c', palm, i) && Slot(b', palm, i) == Slot(c', palm, i)
    {
      var (f, g, p) := (Slot(b, palm, i), Slot(c, palm, i), Relative(points, i));
      StepSame(f.x, g.x, p.x, None);
      StepSame(f.y, g.y, p.y, None);
      StepSame(f.z, g.z, p.z, None);
    }
    assert forall i: nat | i < |points| :: r[i] == q[i];
  }

  lemma ResetSame(b: Banks, start: Banks, palm: set<nat>, n: nat)
    requires BanksOk(b, palm, n) && AllSetAs(b, start, palm, n) && AllUnstarted(start, palm, n)
    ensures AllSame(ResetAll(b), start, palm, n) && AllUnstarted(ResetAll(b), palm, n)
  {
    ResetAllOk(b, palm, n);
    forall i: nat | i < n && i != ROOT
      ensures Holds(ResetAll(b), palm, i) && PointSame(Slot(ResetAll(b), palm, i), Slot(start, palm, i))
      ensures PointUnstarted(Slot(ResetAll(b), palm, i))
    {
      SizedHolds(ResetAll(b), palm, n, i);
      assert Slot(ResetAll(b), palm, i) == ResetPoint(Slot(b, palm, i));
    }
  }

  lemma HandSetAs(palm: set<nat>, n: nat, frames: seq<seq<Vec3>>, banks: seq<Banks>, results: seq<seq<Vec3>>, k: nat,
                  start: Banks)
    requires FrameAt(palm, n, frames, banks, results, k) && AllSetAs(banks[k], start, palm, n)
    ensures AllSetAs(banks[k + 1], start, palm, n)
  {
    FrameSetAs(banks[k], start, frames[k], palm, banks[k + 1], results[k]);
  }

  lemma HandSame(palm: set<nat>, n: nat, points: seq<Vec3>, b: Banks, b': Banks, r: seq<Vec3>, c: Banks, c': Banks,
                  q: seq<Vec3>)
    requires FrameOk(palm, n, points, b, b', r) && FrameOk(palm, n, points, c, c', q) && AllSame(b, c, palm, n)
    ensures AllSame(b', c', palm, n) && r == q
  {
    FrameSame(b, c, points, palm, b', r, c', q);
  }

  lemma SetAsItself(b: Banks, palm: set<nat>, n: nat)
    requires AllUnstarted(b, palm, n)
    ensures AllSetAs(b, b, palm, n)
  {
  }

  /** Every frame leaves usable filters in every place. */
  lemma RunUsable(palm: set<nat>, n: nat, frames: seq<seq<Vec3>>, banks: seq<Banks>, results: seq<seq<Vec3>>, k: nat)
    requires IsRun(palm, n, frames, banks, results) && k <= |frames| && BanksOk(banks[0], palm, n)
    ensures BanksOk(banks[k], palm, n)
  {
    if k > 0 {
      assert FrameAt(palm, n, frames, banks, results, k - 1);
    }
  }

  lemma {:induction false} RunSetAs(palm: set<nat>, n: nat, frames: seq<seq<Vec3>>, banks: seq<Banks>,
                                    results: seq<seq<Vec3>>, k: nat)
    requires IsRun(palm, n, frames, banks, results) && k <= |frames| && AllUnstarted(banks[0], palm, n)
    ensures AllSetAs(banks[k], banks[0], palm, n)
    decreases k
  {
    if k > 0 {
      RunSetAs(palm, n, frames, banks, results, k - 1);
      HandSetAs(palm, n, frames, banks, results, k - 1, banks[0]);
    } else {
      SetAsItself(banks[0], palm, n);
    }
  }

  lemma {:induction false} RunSame(palm: set<nat>, n: nat, frames: seq<seq<Vec3>>, banks: seq<Banks>,
                                   results: seq<seq<Vec3>>, banks': seq<Banks>, results': seq<seq<Vec3>>, k: nat)
    requires IsRun(palm, n, frames, banks, results) && IsRun(palm, n, frames, banks', results')
    requires AllSame(banks[0], banks'[0], palm, n) && k <= |frames|
    ensures AllSame(banks[k], banks'[k], palm, n)
    ensures forall j | 0 <= j < k :: results[j] == results'[j]
    decreases k
  {
    if k > 0 {
      var j := k - 1;
      RunSame(palm, n, frames, banks, results, banks', results', j);
      assert FrameAt(palm, n, frames, banks, results, j);
      assert FrameAt(palm, n, frames, banks', results', j);
      HandSame(palm, n, frames[j], banks[j], banks[k], results[j], banks'[j], banks'[k], results'[j]);
    }
  }

  /** A hand that was reset after any frames is filtered as by new filters, for as many frames
      as follow, and its first frame comes out as it went in. */
  lemma ResetHandIsNew(palm: set<nat>, n: nat, past: seq<seq<Vec3>>, before: seq<Banks>, sent: seq<seq<Vec3>>,
                       frames: seq<seq<Vec3>>, after: seq<Banks>, results: seq<seq<Vec3>>,
                       fresh': seq<Banks>, results': seq<seq<Vec3>>)
    requires IsRun(palm, n, past, before, sent)
    requires BanksOk(before[0], palm, n) && AllUnstarted(before[0], palm, n)
    requires IsRun(palm, n, frames, after, results) && after[0] == ResetAll(before[|past|])
    requires IsRun(palm, n, frames, fresh', results') && fresh'[0] == before[0]
    ensures results == results'
    ensures frames != [] ==> results[0] == frames[0]
  {
    RunUsable(palm, n, past, before, sent, |past|);
    RunSetAs(palm, n, past, before, sent, |past|);
    ResetSame(before[|past|], before[0], palm, n);
    RunSame(palm, n, frames, after, results, fresh', results', |frames|);
    if frames != [] {
      assert FrameAt(palm, n, frames, after, results, 0);
      FrameRaw(after[0], frames[0], palm, after[1], results[0]);
    }
  }

  class HandFilters {
    const keypoints: nat
    const palm: set<nat>
    var left: Banks
    var right: Banks

    ghost predicate Valid()
      reads this
    {
      IsLayout(keypoints, palm) && BanksOk(left, palm, keypoints) && BanksOk(right, palm, keypoints)
    }

    constructor (n: nat, palmSet: set<nat>, freq: real, palmParams: PointParams, indexParams: PointParams,
                 otherParams: PointParams)
      requires IsLayout(n, palmSet)
      requires PointParamsOk(freq, palmParams) && PointParamsOk(freq, indexParams) && PointParamsOk(freq, otherParams)
      ensures Valid() && keypoints == n && palm == palmSet
      ensures left == right == Groups(NewBank(n - 16, freq, palmParams), NewBank(3, freq, indexParams),
                                      NewBank(OTHER_FINGERS, freq, otherParams))
    {
      GroupSizes(n, palmSet);
      keypoints, palm := n, palmSet;
      var banks := Groups(NewBank(n - 16, freq, palmParams), NewBank(3, freq, indexParams),
                          NewBank(OTHER_FINGERS, freq, otherParams));
      left, right := banks, banks;
    }

    /** Filter one hand; the filters of the other hand stay. */
    method FilterHand(isLeft: bool, points: seq<Vec3>) returns (result: seq<Vec3>)
      requires Valid() && |points| == keypoints
      modifies this
      ensures Valid()
      ensures isLeft ==> right == old(right) && Processed(old(left), points, palm, left, result)
      ensures !isLeft ==> left == old(left) && Processed(old(right), points, palm, right, result)
    {
      if isLeft {
        left, result := Process(left, points, palm);
      } else {
        right, result := Process(right, points, palm);
      }
    }

    method Reset(isLeft: bool)
      requires Valid()
      modifies this
      ensures Valid()
      ensures if isLeft then right == old(right) && left == ResetAll(old(left))
              else left == old(left) && right == ResetAll(old(right))
    {
      if isLeft {
        ResetAllOk(left, palm, keypoints);
        left := ResetAll(left);
      } else {
        ResetAllOk(right, palm, keypoints);
        right := ResetAll(right);
      }
    }
  }
}
