/** Detected boxes: sort by confidence, suppress overlapping boxes of the same hand, and keep
    the first left and the first right box. */
module NonMaximumSuppression {
  import opened BoxOverlap
  import opened PictureScale
  import opened Sums

  datatype Box = Box(rect: Rect, confidence: real, isLeft: bool, suppressed: bool)

  /** The overlap ratio of the two boxes exceeds t.  Boxes of different hands have ratio -0.1
      and boxes apart from each other 0; without area the ratio is infinite or not a number. */
  predicate Exceeds(a: Box, b: Box, t: real)
  {
    if a.isLeft != b.isLeft then -0.1 > t
    else if Apart(a.rect, b.rect) then 0.0 > t
    else RatioExceeds(Intersection(a.rect, b.rect), Union(a.rect, b.rect), t)
  }

  /** Swapping the boxes changes nothing, so the order of the list decides only who is
      suppressed by whom. */
  lemma ExceedsSymmetric(a: Box, b: Box, t: real)
    ensures Exceeds(a, b, t) <==> Exceeds(b, a, t)
  {
    IntersectionSymmetric(a.rect, b.rect);
  }

  /** Boxes of one hand: an exact copy exceeds every threshold below one, and nothing exceeds
      a threshold of one or more. */
  lemma ExceedsWithin(a: Box, b: Box, t: real)
    requires a.isLeft == b.isLeft && Sized(a.rect) && Sized(b.rect) && Area(a.rect) > 0.0
    ensures a.rect == b.rect && t < 1.0 ==> Exceeds(a, b, t)
    ensures t >= 1.0 ==> !Exceeds(a, b, t)
  {
    if !Apart(a.rect, b.rect) {
      RatioIsShare(a.rect, b.rect);
      ShareExceeds(Intersection(a.rect, b.rect), Union(a.rect, b.rect), t);
    }
  }

  /** Boxes of one hand that touch: the area of their common points is more than t times the area
      of all their points. */
  lemma ExceedsIsShare(a: Box, b: Box, t: real) returns (shared: Rect, tiles: seq<Rect>)
    requires a.isLeft == b.isLeft && Sized(a.rect) && Sized(b.rect) && !Apart(a.rect, b.rect)
    ensures forall px, py :: Contains(shared, px, py) <==> Contains(a.rect, px, py) && Contains(b.rect, px, py)
    ensures Tiles(tiles, a.rect, b.rect)
    ensures Exceeds(a, b, t) <==> TotalArea(tiles) > 0.0 && Area(shared) > Times(t, TotalArea(tiles))
  {
    shared := IntersectionIsArea(a.rect, b.rect);
    tiles := UnionIsArea(a.rect, b.rect);
    RatioIsShare(a.rect, b.rect);
    RatioIsQuotient(Intersection(a.rect, b.rect), Union(a.rect, b.rect), t);
  }

  // ----- the stable sort

  /** Box i of the list is sorted before box j: more confident, or as confident and found earlier. */
  ghost predicate Before(boxes: seq<Box>, i: nat, j: nat)
    requires i < |boxes| && j < |boxes|
  {
    boxes[i].confidence > boxes[j].confidence || (boxes[i].confidence == boxes[j].confidence && i < j)
  }

  /** `order` lists the first n boxes in their stable order. */
  ghost predicate IsOrder(boxes: seq<Box>, order: seq<nat>, n: nat)
    requires n <= |boxes|
  {
    && |order| == n && (forall i | 0 <= i < n :: order[i] < n)
    && (forall i, j | 0 <= i < j < n :: Before(boxes, order[i], order[j]))
    && (forall k: nat | k < n :: k in order)
  }

  function Arranged(boxes: seq<Box>, order: seq<nat>): (r: seq<Box>)
    requires forall i | 0 <= i < |order| :: order[i] < |boxes|
    ensures |r| == |order| && forall i | 0 <= i < |r| :: r[i] == boxes[order[i]]
  {
    seq(|order|, i requires 0 <= i < |order| => boxes[order[i]])
  }

  lemma InsertedOrder(boxes: seq<Box>, order: seq<nat>, n: nat, p: nat)
    requires n < |boxes| && IsOrder(boxes, order, n) && p <= n
    requires forall i | 0 <= i < p :: boxes[order[i]].confidence >= boxes[n].confidence
    requires p < n ==> boxes[order[p]].confidence < boxes[n].confidence
    ensures IsOrder(boxes, order[..p] + [n] + order[p..], n + 1)
  {
    var more := order[..p] + [n] + order[p..];
    forall i, j | 0 <= i < j < n + 1
      ensures Before(boxes, more[i], more[j])
    {
      if i < p < j { assert more[j] == order[j - 1]; }
      if p < i { assert Before(boxes, order[i - 1], order[j - 1]); }
      if i == p {
        assert more[j] == order[j - 1];
        if j - 1 > p { assert Before(boxes, order[p], order[j - 1]); }
      }
    }
    forall k: nat | k < n + 1
      ensures k in more
    {
      if k < n {
        assert k in order;
        assert order == order[..p] + order[p..];
      } else {
        assert more[p] == n;
      }
    }
  }

  lemma Inserted(whole: seq<Box>, more: seq<Box>, p: nat, b: Box)
    requires p <= |whole| && |more| == |whole| + 1 && more[p] == b
    requires forall i | 0 <= i < |whole| :: whole[i] == more[if i < p then i else i + 1]
    ensures multiset(more) == multiset(whole) + multiset{b}
  {
    assert whole == whole[..p] + whole[p..];
    assert more == whole[..p] + [b] + whole[p..];
  }

  lemma InsertedBoxes(boxes: seq<Box>, order: seq<nat>, n: nat, p: nat)
    requires n < |boxes| && p <= |order| && forall i | 0 <= i < |order| :: order[i] < |boxes|
    ensures var more := order[..p] + [n] + order[p..];
            && (forall i | 0 <= i < |more| :: more[i] < |boxes|)
            && multiset(Arranged(boxes, more)) == multiset(Arranged(boxes, order)) + multiset{boxes[n]}
  {
    Inserted(Arranged(boxes, order), Arranged(boxes, order[..p] + [n] + order[p..]), p, boxes[n]);
  }

  method FindPlace(boxes: seq<Box>, order: seq<nat>, n: nat) returns (p: nat)
    requires n < |boxes| && IsOrder(boxes, order, n)
    ensures p <= n && forall i | 0 <= i < p :: boxes[order[i]].confidence >= boxes[n].confidence
    ensures p < n ==> boxes[order[p]].confidence < boxes[n].confidence
  {
    p := 0;
    while p < n && boxes[order[p]].confidence >= boxes[n].confidence
      invariant p <= n
      invariant forall i | 0 <= i < p :: boxes[order[i]].confidence >= boxes[n].confidence
    {
      p := p + 1;
    }
  }

  method Insert(boxes: seq<Box>, order: seq<nat>, n: nat) returns (more: seq<nat>)
    requires n < |boxes| && IsOrder(boxes, order, n)
    ensures IsOrder(boxes, more, n + 1)
    ensures multiset(Arranged(boxes, more)) == multiset(Arranged(boxes, order)) + multiset{boxes[n]}
  {
    var p := FindPlace(boxes, order, n);
    InsertedOrder(boxes, order, n, p);
    InsertedBoxes(boxes, order, n, p);
    more := order[..p] + [n] + order[p..];
  }

  /** The library sort, by insertion. */
  method StableSort(boxes: seq<Box>) returns (order: seq<nat>)
    ensures IsOrder(boxes, order, |boxes|)
    ensures multiset(Arranged(boxes, order)) == multiset(boxes)
  {
    order := [];
    for n := 0 to |boxes|
      invariant IsOrder(boxes, order, n)
      invariant multiset(Arranged(boxes, order)) == multiset(boxes[..n])
    {
      order := Insert(boxes, order, n);
      PrefixGrows(boxes, n);
    }
    assert boxes[..|boxes|] == boxes;
  }

  lemma PrefixGrows(boxes: seq<Box>, n: nat)
    requires n < |boxes|
    ensures multiset(boxes[..n + 1]) == multiset(boxes[..n]) + multiset{boxes[n]}
  {
    assert boxes[..n + 1] == boxes[..n] + [boxes[n]];
  }

  // ----- suppression

  /** Box i survives: it was not suppressed before, and no surviving box before it overlaps it. */
  ghost predicate Kept(list: seq<Box>, t: real, i: nat)
    requires i < |list|
    decreases i
  {
    !list[i].suppressed && forall j: nat | j < i && Kept(list, t, j) :: !Exceeds(list[j], list[i], t)
  }

  /** No surviving box among the first n overlaps box k. */
  ghost predicate Spared(list: seq<Box>, t: real, n: nat, k: nat)
    requires n <= k < |list|
  {
    !list[k].suppressed && forall j: nat | j < n && Kept(list, t, j) :: !Exceeds(list[j], list[k], t)
  }

  lemma SparedIsKept(list: seq<Box>, t: real, k: nat)
    requires k < |list|
    ensures Spared(list, t, k, k) <==> Kept(list, t, k)
  {
  }

  ghost predicate SameButFlags(a: seq<Box>, b: seq<Box>)
  {
    |a| == |b| && forall i | 0 <= i < |a| :: b[i] == a[i].(suppressed := b[i].suppressed)
  }

  lemma ExceedsIgnoresFlags(a: Box, b: Box, t: real, f: bool, g: bool)
    ensures Exceeds(a.(suppressed := f), b.(suppressed := g), t) <==> Exceeds(a, b, t)
  {
  }

  /** The inner loop: box i, which survives, suppresses what it overlaps. */
  method SuppressFrom(list: array<Box>, t: real, i: nat, ghost was: seq<Box>)
    requires i < list.Length && SameButFlags(was, list[..]) && !list[i].suppressed && Kept(was, t, i)
    requires forall k: nat | i < k < list.Length :: list[k].suppressed == !Spared(was, t, i, k)
    modifies list
    ensures SameButFlags(was, list[..])
    ensures forall k: nat | k <= i :: list[k] == old(list[k])
    ensures forall k: nat | i < k < list.Length :: list[k].suppressed == !Spared(was, t, i + 1, k)
  {
    for j := i + 1 to list.Length
      invariant SameButFlags(was, list[..])
      invariant forall k: nat | k <= i :: list[k] == old(list[k])
      invariant forall k: nat | i < k < list.Length ::
                  list[k].suppressed == if k < j then !Spared(was, t, i + 1, k) else !Spared(was, t, i, k)
    {
      ExceedsIgnoresFlags(was[i], was[j], t, list[i].suppressed, list[j].suppressed);
      if !list[j].suppressed {
        if Exceeds(list[i], list[j], t) {
          list[j] := list[j].(suppressed := true);
        }
      }
    }
  }

  method Suppress(list: array<Box>, t: real)
    modifies list
    ensures SameButFlags(old(list[..]), list[..])
    ensures forall k: nat | k < list.Length :: list[k].suppressed == !Kept(old(list[..]), t, k)
  {
    ghost var was := list[..];
    for i := 0 to list.Length
      invariant SameButFlags(was, list[..])
      invariant forall k: nat | k < i :: list[k].suppressed == !Kept(was, t, k)
      invariant forall k: nat | i <= k < list.Length :: list[k].suppressed == !Spared(was, t, i, k)
    {
      SparedIsKept(was, t, i);
      if !list[i].suppressed {
        SuppressFrom(list, t, i, was);
      }
    }
  }

  /** The whole suppression: sort, then suppress. */
  method Nms(boxes: seq<Box>, t: real) returns (list: array<Box>, ghost order: seq<nat>)
    ensures IsOrder(boxes, order, |boxes|) && fresh(list) && list.Length == |boxes|
    ensures multiset(Arranged(boxes, order)) == multiset(boxes)
    ensures SameButFlags(Arranged(boxes, order), list[..])
    ensures forall k: nat | k < list.Length :: list[k].suppressed == !Kept(Arranged(boxes, order), t, k)
  {
    var sorted := StableSort(boxes);
    order := sorted;
    var arranged := Arranged(boxes, sorted);
    list := new Box[|arranged|](i requires 0 <= i < |arranged| => arranged[i]);
    assert list[..] == arranged;
    Suppress(list, t);
  }

  // ----- what suppression guarantees

  /** Survivors overlap each other by at most the threshold; a suppressed box overlaps a
      survivor that is at least as confident, and for a threshold of at least -0.1 both are
      boxes of the same hand. */
  lemma SuppressionIsJustified(boxes: seq<Box>, order: seq<nat>, t: real, i: nat)
    requires IsOrder(boxes, order, |boxes|) && i < |boxes|
    ensures var list := Arranged(boxes, order);
            && (Kept(list, t, i) ==> forall j: nat | j < i && Kept(list, t, j) :: !Exceeds(list[j], list[i], t))
            && (!Kept(list, t, i) && !list[i].suppressed ==>
                  exists j: nat :: j < i && Kept(list, t, j) && Exceeds(list[j], list[i], t) &&
                                   list[j].confidence >= list[i].confidence
                                     && (t >= -0.1 ==> list[j].isLeft == list[i].isLeft))
  {
    var list := Arranged(boxes, order);
    if !Kept(list, t, i) && !list[i].suppressed {
      var j: nat :| j < i && Kept(list, t, j) && Exceeds(list[j], list[i], t);
      assert Before(boxes, order[j], order[i]);
    }
  }

  // ----- one hand at a time

  /** How many of the first n boxes are of a hand. */
  function Place(list: seq<Box>, left: bool, n: nat): nat
    requires n <= |list|
  {
    if n == 0 then 0 else Place(list, left, n - 1) + if list[n - 1].isLeft == left then 1 else 0
  }

  /** The boxes of one hand among the first n, in order. */
  function OfHand(list: seq<Box>, left: bool, n: nat): (r: seq<Box>)
    requires n <= |list|
    ensures |r| == Place(list, left, n)
  {
    if n == 0 then [] else OfHand(list, left, n - 1) + if list[n - 1].isLeft == left then [list[n - 1]] else []
  }

  lemma {:induction false} PlaceOf(list: seq<Box>, left: bool, i: nat, n: nat)
    requires i < n <= |list| && list[i].isLeft == left
    ensures Place(list, left, i) < Place(list, left, n) && OfHand(list, left, n)[Place(list, left, i)] == list[i]
    decreases n
  {
    if i < n - 1 { PlaceOf(list, left, i, n - 1); }
  }

  lemma {:induction false} AtPlace(list: seq<Box>, left: bool, n: nat, q: nat) returns (j: nat)
    requires n <= |list| && q < Place(list, left, n)
    ensures j < n && list[j].isLeft == left && Place(list, left, j) == q
    decreases n
  {
    if q < Place(list, left, n - 1) {
      j := AtPlace(list, left, n - 1, q);
    } else {
      j := n - 1;
    }
  }

  /** A box survives exactly as it would with the boxes of the other hand left out. */
  lemma {:induction false} HandsAreSeparate(list: seq<Box>, t: real, left: bool, i: nat)
    requires t >= -0.1 && i < |list| && list[i].isLeft == left
    ensures SurvivesAlike(list, t, left, i)
    decreases i
  {
    PlaceOf(list, left, i, |list|);
    forall j: nat | j < i && list[j].isLeft == left
      ensures SurvivesAlike(list, t, left, j)
    {
      HandsAreSeparate(list, t, left, j);
    }
    if Kept(list, t, i) { KeptAlone(list, t, left, i); }
    if Kept(OfHand(list, left, |list|), t, Place(list, left, i)) { KeptTogether(list, t, left, i); }
  }

  /** Box i and its copy among the boxes of its hand. */
  ghost predicate SurvivesAlike(list: seq<Box>, t: real, left: bool, i: nat)
    requires i < |list|
  {
    var (own, p) := (OfHand(list, left, |list|), Place(list, left, i));
    p < |own| && own[p] == list[i] && (Kept(list, t, i) <==> Kept(own, t, p))
  }

  lemma KeptAlone(list: seq<Box>, t: real, left: bool, i: nat)
    requires i < |list| && Place(list, left, i) < |OfHand(list, left, |list|)|
    requires OfHand(list, left, |list|)[Place(list, left, i)] == list[i]
    requires forall j: nat | j < i && list[j].isLeft == left :: SurvivesAlike(list, t, left, j)
    requires Kept(list, t, i)
    ensures Kept(OfHand(list, left, |list|), t, Place(list, left, i))
  {
    var own := OfHand(list, left, |list|);
    forall q: nat | q < Place(list, left, i) && Kept(own, t, q)
      ensures !Exceeds(own[q], list[i], t)
    {
      var j := AtPlace(list, left, i, q);
      assert SurvivesAlike(list, t, left, j);
    }
  }

  lemma KeptTogether(list: seq<Box>, t: real, left: bool, i: nat)
    requires t >= -0.1 && i < |list| && list[i].isLeft == left && Place(list, left, i) < |OfHand(list, left, |list|)|
    requires OfHand(list, left, |list|)[Place(list, left, i)] == list[i]
    requires forall j: nat | j < i && list[j].isLeft == left :: SurvivesAlike(list, t, left, j)
    requires Kept(OfHand(list, left, |list|), t, Place(list, left, i))
    ensures Kept(list, t, i)
  {
    forall j: nat | j < i && Kept(list, t, j)
      ensures !Exceeds(list[j], list[i], t)
    {
      if list[j].isLeft == left {
        PlaceOf(list, left, j, i);
        assert SurvivesAlike(list, t, left, j);
      }
    }
  }

  // ----- the pick

  /** The most confident box of a hand, the earliest one on a tie. */
  ghost predicate IsBest(boxes: seq<Box>, left: bool, i: nat)
  {
    && i < |boxes| && boxes[i].isLeft == left
    && forall j: nat | j < |boxes| && j != i && boxes[j].isLeft == left :: Before(boxes, i, j)
  }

  ghost predicate HasHand(boxes: seq<Box>, left: bool) { exists i :: 0 <= i < |boxes| && boxes[i].isLeft == left }

  /** Position k is the first surviving box of a hand. */
  ghost predicate IsFirst(list: seq<Box>, left: bool, k: nat)
  {
    k < |list| && !list[k].suppressed && list[k].isLeft == left &&
    forall j | 0 <= j < k :: list[j].suppressed || list[j].isLeft != left
  }

  /** The first box of a hand in the order is never suppressed. */
  lemma FirstOfHandSurvives(list: seq<Box>, left: bool, t: real, k: nat)
    requires t >= -0.1 && k < |list| && forall j | 0 <= j < k :: list[j].isLeft != left
    ensures list[k].isLeft == left && !list[k].suppressed ==> Kept(list, t, k)
  {
  }

  /** So the first survivor of a hand is the arg-max of confidence over all its boxes. */
  lemma FirstSurvivorIsBest(boxes: seq<Box>, order: seq<nat>, list: seq<Box>, left: bool, t: real, k: nat)
    requires t >= -0.1 && IsOrder(boxes, order, |boxes|) && |list| == |boxes|
    requires forall i | 0 <= i < |boxes| :: !boxes[i].suppressed
    requires SameButFlags(Arranged(boxes, order), list)
    requires forall i: nat | i < |list| :: list[i].suppressed == !Kept(Arranged(boxes, order), t, i)
    requires IsFirst(list, left, k)
    ensures IsBest(boxes, left, order[k])
  {
    NoneBefore(Arranged(boxes, order), list, left, t, k, k);
    forall j: nat | j < |boxes| && j != order[k] && boxes[j].isLeft == left
      ensures Before(boxes, order[k], j)
    {
      assert j in order;
      var p :| 0 <= p < |order| && order[p] == j;
      assert p > k;
    }
  }

  lemma {:induction false} NoneBefore(arranged: seq<Box>, list: seq<Box>, left: bool, t: real, k: nat, p: nat)
    requires t >= -0.1 && p <= k && SameButFlags(arranged, list) && IsFirst(list, left, k)
    requires forall i | 0 <= i < |arranged| :: !arranged[i].suppressed
    requires forall i: nat | i < |list| :: list[i].suppressed == !Kept(arranged, t, i)
    ensures forall j | 0 <= j < p :: arranged[j].isLeft != left
    decreases p
  {
    if p > 0 {
      NoneBefore(arranged, list, left, t, k, p - 1);
      FirstOfHandSurvives(arranged, left, t, p - 1);
    }
  }

  lemma {:induction false} FirstOfHand(list: seq<Box>, left: bool, p: nat) returns (q: nat)
    requires p < |list| && list[p].isLeft == left
    ensures q <= p && list[q].isLeft == left && forall j | 0 <= j < q :: list[j].isLeft != left
  {
    if j :| 0 <= j < p && list[j].isLeft == left {
      q := FirstOfHand(list, left, j);
    } else {
      q := p;
    }
  }

  /** Every hand with a box has a survivor. */
  lemma SomeSurvivor(boxes: seq<Box>, order: seq<nat>, list: seq<Box>, left: bool, t: real)
    requires t >= -0.1 && IsOrder(boxes, order, |boxes|) && |list| == |boxes|
    requires forall i | 0 <= i < |boxes| :: !boxes[i].suppressed
    requires SameButFlags(Arranged(boxes, order), list)
    requires forall i: nat | i < |list| :: list[i].suppressed == !Kept(Arranged(boxes, order), t, i)
    requires HasHand(boxes, left)
    ensures exists k :: 0 <= k < |list| && !list[k].suppressed && list[k].isLeft == left
  {
    var i :| 0 <= i < |boxes| && boxes[i].isLeft == left;
    assert i in order;
    var p :| 0 <= p < |order| && order[p] == i;
    var q := FirstOfHand(Arranged(boxes, order), left, p);
    FirstOfHandSurvives(Arranged(boxes, order), left, t, q);
    assert !list[q].suppressed;
  }

  // ----- back to the image

  function ToImage(b: Box, l: Letterbox): Box
    requires l.ratio != 0.0
  {
    b.(rect := ToPicture(b.rect, l))
  }

  /** Scan the list and take the first surviving box of each hand. */
  method Pick(list: array<Box>, l: Letterbox) returns (left: seq<Box>, right: seq<Box>)
    requires l.ratio != 0.0
    modifies list
    ensures IsPick(old(list[..]), l, true, left) && IsPick(old(list[..]), l, false, right)
  {
    ghost var was := list[..];
    left, right := [], [];
    for i := 0 to list.Length
      invariant list[i..] == was[i..]
      invariant IsPick(was[..i], l, true, left) && IsPick(was[..i], l, false, right)
    {
      assert list[i] == was[i] && was[..i + 1] == was[..i] + [was[i]];
      Extended(was[..i], was[i], l, true, left);
      Extended(was[..i], was[i], l, false, right);
      if !list[i].suppressed {
        list[i] := ToImage(list[i], l);
        if list[i].isLeft && |left| == 0 {
          left := left + [list[i]];
        } else if !list[i].isLeft && |right| == 0 {
          right := right + [list[i]];
        }
      }
    }
    assert was[..list.Length] == was;
  }

  /** Nothing, or the first survivor of the hand moved to the image. */
  ghost predicate IsPick(list: seq<Box>, l: Letterbox, left: bool, picked: seq<Box>)
    requires l.ratio != 0.0
  {
    if picked == [] then forall k | 0 <= k < |list| :: list[k].suppressed || list[k].isLeft != left
    else exists k: nat :: IsFirst(list, left, k) && picked == [ToImage(list[k], l)]
  }

  lemma Extended(list: seq<Box>, b: Box, l: Letterbox, left: bool, picked: seq<Box>)
    requires l.ratio != 0.0 && IsPick(list, l, left, picked)
    ensures picked != [] || b.suppressed || b.isLeft != left ==> IsPick(list + [b], l, left, picked)
    ensures picked == [] && !b.suppressed && b.isLeft == left ==> IsPick(list + [b], l, left, [ToImage(b, l)])
  {
    var more := list + [b];
    if picked != [] {
      var k: nat :| IsFirst(list, left, k) && picked == [ToImage(list[k], l)];
      assert IsFirst(more, left, k) && more[k] == list[k];
    } else if !b.suppressed && b.isLeft == left {
      assert IsFirst(more, left, |list|);
    }
  }

  /** One image: the box reported for a hand is its most confident candidate, the first found
      on a tie, moved to the picture; a hand without candidates gets none. */
  method DetectHands(boxes: seq<Box>, t: real, sizes: Sizes) returns (left: seq<Box>, right: seq<Box>)
    requires Positive(sizes) && t >= -0.1 && forall i | 0 <= i < |boxes| :: !boxes[i].suppressed
    ensures IsReport(boxes, Fit(sizes), true, left) && IsReport(boxes, Fit(sizes), false, right)
  {
    var l := Fit(sizes);
    var list, order := Nms(boxes, t);
    ghost var flagged := list[..];
    left, right := Pick(list, l);
    PickIsReport(boxes, order, flagged, l, t, true, left);
    PickIsReport(boxes, order, flagged, l, t, false, right);
  }

  ghost predicate IsReport(boxes: seq<Box>, l: Letterbox, left: bool, picked: seq<Box>)
    requires l.ratio != 0.0
  {
    if HasHand(boxes, left) then exists i: nat :: IsBest(boxes, left, i) && picked == [ToImage(boxes[i], l)]
    else picked == []
  }

  lemma PickIsReport(boxes: seq<Box>, order: seq<nat>, list: seq<Box>, l: Letterbox, t: real, left: bool,
                     picked: seq<Box>)
    requires l.ratio != 0.0 && t >= -0.1 && IsOrder(boxes, order, |boxes|) && |list| == |boxes|
    requires forall i | 0 <= i < |boxes| :: !boxes[i].suppressed
    requires SameButFlags(Arranged(boxes, order), list)
    requires forall i: nat | i < |list| :: list[i].suppressed == !Kept(Arranged(boxes, order), t, i)
    requires IsPick(list, l, left, picked)
    ensures IsReport(boxes, l, left, picked)
  {
    if picked == [] {
      if HasHand(boxes, left) {
        SomeSurvivor(boxes, order, list, left, t);
      }
    } else {
      var k: nat :| IsFirst(list, left, k) && picked == [ToImage(list[k], l)];
      FirstSurvivorIsBest(boxes, order, list, left, t, k);
      assert list[k] == boxes[order[k]];
      assert boxes[order[k]].isLeft == left;
    }
  }

  /** Some hand with a candidate loses all its boxes. */
  ghost predicate DropsHand(boxes: seq<Box>, order: seq<nat>, t: real, left: bool)
    requires IsOrder(boxes, order, |boxes|)
  {
    HasHand(boxes, left) &&
    forall k: nat | k < |boxes| && Kept(Arranged(boxes, order), t, k) :: Arranged(boxes, order)[k].isLeft != left
  }

  ghost predicate MayDropHand(t: real)
  {
    exists boxes: seq<Box>, order: seq<nat>, left: bool ::
      && IsOrder(boxes, order, |boxes|) && (forall i | 0 <= i < |boxes| :: !boxes[i].suppressed)
      && DropsHand(boxes, order, t, left)
  }

  /** The threshold keeps every hand, whatever is detected, exactly if it is at least -0.1. */
  lemma HandsKeptIffThreshold(t: real)
    ensures MayDropHand(t) <==> t < -0.1
  {
    if t < -0.1 {
      var r := Rect(0.0, 0.0, 1.0, 1.0);
      var boxes := [Box(r, 2.0, false, false), Box(r, 1.0, true, false)];
      var order: seq<nat> := [0, 1];
      var list := Arranged(boxes, order);
      assert order[0] == 0 && order[1] == 1;
      assert Kept(list, t, 0) && Exceeds(list[0], list[1], t);
      assert boxes[1].isLeft;
      assert DropsHand(boxes, order, t, true);
    } else {
      forall boxes: seq<Box>, order: seq<nat>, left: bool
        | IsOrder(boxes, order, |boxes|) && forall i | 0 <= i < |boxes| :: !boxes[i].suppressed
        ensures !DropsHand(boxes, order, t, left)
      {
        KeepsHand(boxes, order, t, left);
      }
    }
  }

  lemma KeepsHand(boxes: seq<Box>, order: seq<nat>, t: real, left: bool)
    requires t >= -0.1 && IsOrder(boxes, order, |boxes|) && forall i | 0 <= i < |boxes| :: !boxes[i].suppressed
    ensures !DropsHand(boxes, order, t, left)
  {
    var list := Arranged(boxes, order);
    if i :| 0 <= i < |boxes| && boxes[i].isLeft == left {
      assert i in order;
      var p :| 0 <= p < |order| && order[p] == i;
      var q := FirstOfHand(list, left, p);
      FirstOfHandSurvives(list, left, t, q);
    }
  }
}
