/** How much two boxes overlap. */
module BoxOverlap {
  import opened Sums

  datatype Rect = Rect(x: real, y: real, w: real, h: real)

  function Min(a: real, b: real): real { if b < a then b else a }

  function Max(a: real, b: real): real { if a < b then b else a }

  function Area(a: Rect): real { Times(a.w, a.h) }

  predicate Apart(a: Rect, b: Rect) { a.x > b.x + b.w || a.y > b.y + b.h || a.x + a.w < b.x || a.y + a.h < b.y }

  function OverlapWidth(a: Rect, b: Rect): real { Min(a.x + a.w, b.x + b.w) - Max(a.x, b.x) }

  function OverlapHeight(a: Rect, b: Rect): real { Min(a.y + a.h, b.y + b.h) - Max(a.y, b.y) }

  function Intersection(a: Rect, b: Rect): real { Times(OverlapWidth(a, b), OverlapHeight(a, b)) }

  function Union(a: Rect, b: Rect): real { Area(a) + Area(b) - Intersection(a, b) }

  predicate RatioExceeds(inter: real, union: real, t: real)
  {
    if union == 0.0 then inter > 0.0 else inter / union > t
  }

  // ----- what the numbers mean

  predicate Sized(a: Rect) { a.w >= 0.0 && a.h >= 0.0 }

  predicate Contains(a: Rect, px: real, py: real) { a.x <= px <= a.x + a.w && a.y <= py <= a.y + a.h }

  /** The points of both boxes form a box again, whose area the computation gives. */
  lemma IntersectionIsArea(a: Rect, b: Rect) returns (o: Rect)
    ensures forall px, py :: Contains(o, px, py) <==> Contains(a, px, py) && Contains(b, px, py)
    ensures Area(o) == Intersection(a, b)
    ensures !Apart(a, b) && Sized(a) && Sized(b) ==> Sized(o)
  {
    var (x, y) := (Max(a.x, b.x), Max(a.y, b.y));
    o := Rect(x, y, OverlapWidth(a, b), OverlapHeight(a, b));
  }

  /** Boxes are apart exactly if they share no point. */
  lemma ApartIffDisjoint(a: Rect, b: Rect)
    requires Sized(a) && Sized(b)
    ensures Apart(a, b) <==> forall px, py :: !(Contains(a, px, py) && Contains(b, px, py))
  {
    if !Apart(a, b) {
      assert Contains(a, Max(a.x, b.x), Max(a.y, b.y)) && Contains(b, Max(a.x, b.x), Max(a.y, b.y));
    }
  }

  lemma IntersectionSymmetric(a: Rect, b: Rect)
    ensures Intersection(a, b) == Intersection(b, a) && Union(a, b) == Union(b, a)
  {
  }

  lemma ProductsOrdered(a: real, b: real, c: real, d: real)
    requires 0.0 <= a <= c && 0.0 <= b <= d
    ensures 0.0 <= Times(a, b) <= Times(c, d)
  {
    assert c * d - a * b == c * (d - b) + (c - a) * b;
  }

  lemma OverlapSides(a: Rect, b: Rect)
    requires Sized(a) && Sized(b) && !Apart(a, b)
    ensures var (w, h) := (OverlapWidth(a, b), OverlapHeight(a, b));
            0.0 <= w <= a.w && w <= b.w && 0.0 <= h <= a.h && h <= b.h && (a == b ==> w == a.w && h == a.h)
  {
  }

  /** The intersection is part of both boxes and the union covers both. */
  lemma RatioIsShare(a: Rect, b: Rect)
    requires Sized(a) && Sized(b) && !Apart(a, b)
    ensures 0.0 <= Intersection(a, b) <= Area(a) <= Union(a, b)
    ensures Intersection(a, b) <= Area(b) <= Union(a, b)
    ensures a == b ==> Intersection(a, b) == Area(a) == Union(a, b)
  {
    OverlapSides(a, b);
    ShareOfSides(OverlapWidth(a, b), OverlapHeight(a, b), a, b);
  }

  lemma ShareOfSides(w: real, h: real, a: Rect, b: Rect)
    requires 0.0 <= w <= a.w && w <= b.w && 0.0 <= h <= a.h && h <= b.h
    ensures 0.0 <= Times(w, h) <= Area(a) && Times(w, h) <= Area(b)
  {
    ProductsOrdered(w, h, a.w, a.h);
    ProductsOrdered(w, h, b.w, b.h);
  }

  // ----- the area of the points in either box

  /** A point in the inside, off the edges. */
  predicate Inner(a: Rect, px: real, py: real) { a.x < px < a.x + a.w && a.y < py < a.y + a.h }

  ghost predicate ShareNoArea(a: Rect, b: Rect) { forall px, py :: !(Inner(a, px, py) && Inner(b, px, py)) }

  function TotalArea(boxes: seq<Rect>): real
  {
    if boxes == [] then 0.0 else Area(boxes[0]) + TotalArea(boxes[1..])
  }

  ghost predicate Covered(boxes: seq<Rect>, px: real, py: real)
  {
    exists i :: 0 <= i < |boxes| && Contains(boxes[i], px, py)
  }

  /** The boxes cover exactly the points of a and b, and no two share any area. */
  ghost predicate Tiles(boxes: seq<Rect>, a: Rect, b: Rect)
  {
    && (forall i | 0 <= i < |boxes| :: Sized(boxes[i]))
    && (forall i, j | 0 <= i < j < |boxes| :: ShareNoArea(boxes[i], boxes[j]))
    && forall px, py :: Covered(boxes, px, py) <==> Contains(a, px, py) || Contains(b, px, py)
  }

  /** Box a, and the parts of b to its left and right and, between these, below and above it. */
  function Pieces(a: Rect, b: Rect): seq<Rect>
  {
    var o := Rect(Max(a.x, b.x), Max(a.y, b.y), OverlapWidth(a, b), OverlapHeight(a, b));
    [a, Rect(b.x, b.y, o.x - b.x, b.h), Rect(o.x + o.w, b.y, b.x + b.w - (o.x + o.w), b.h),
     Rect(o.x, b.y, o.w, o.y - b.y), Rect(o.x, o.y + o.h, o.w, b.y + b.h - (o.y + o.h))]
  }

  lemma PiecesSized(a: Rect, b: Rect)
    requires Sized(a) && Sized(b) && !Apart(a, b)
    ensures |Pieces(a, b)| == 5 && forall i | 0 <= i < 5 :: Sized(Pieces(a, b)[i])
  {
  }

  lemma PiecesShareNoArea(a: Rect, b: Rect, i: nat, j: nat)
    requires Sized(a) && Sized(b) && !Apart(a, b) && i < j < 5
    ensures ShareNoArea(Pieces(a, b)[i], Pieces(a, b)[j])
  {
    var (p, q) := (Pieces(a, b)[i], Pieces(a, b)[j]);
    forall px, py
      ensures !(Inner(p, px, py) && Inner(q, px, py))
    {
    }
  }

  lemma PiecesCover(a: Rect, b: Rect, px: real, py: real)
    requires Sized(a) && Sized(b) && !Apart(a, b)
    ensures Covered(Pieces(a, b), px, py) <==> Contains(a, px, py) || Contains(b, px, py)
  {
    var p := Pieces(a, b);
    if Contains(a, px, py) { assert Contains(p[0], px, py); }
    if Contains(b, px, py) && !Contains(a, px, py) {
      assert Contains(p[1], px, py) || Contains(p[2], px, py) || Contains(p[3], px, py) || Contains(p[4], px, py);
    }
  }

  /** Three strips of widths that add up, the middle one cut into three heights. */
  lemma StripAreas(w: real, h: real, left: real, mid: real, right: real, low: real, cut: real, high: real)
    requires w == left + mid + right && h == low + cut + high
    ensures Times(left, h) + Times(right, h) + Times(mid, low) + Times(mid, high) == Times(w, h) - Times(mid, cut)
  {
    assert Times(w, h) == Times(left, h) + Times(mid, h) + Times(right, h);
    assert Times(mid, h) == Times(mid, low) + Times(mid, cut) + Times(mid, high);
  }

  lemma PiecesArea(a: Rect, b: Rect)
    ensures TotalArea(Pieces(a, b)) == Union(a, b)
  {
    var p := Pieces(a, b);
    StripAreas(b.w, b.h, p[1].w, OverlapWidth(a, b), p[2].w, p[3].h, OverlapHeight(a, b), p[4].h);
    assert p == [p[0], p[1], p[2], p[3], p[4]];
    FiveAreas(p[0], p[1], p[2], p[3], p[4]);
  }

  lemma FiveAreas(a: Rect, b: Rect, c: Rect, d: Rect, e: Rect)
    ensures TotalArea([a, b, c, d, e]) == Area(a) + Area(b) + Area(c) + Area(d) + Area(e)
  {
    assert [a, b, c, d, e][1..] == [b, c, d, e] && [b, c, d, e][1..] == [c, d, e];
    assert [c, d, e][1..] == [d, e] && [d, e][1..] == [e] && [e][1..] == [];
    assert TotalArea([d, e]) == Area(d) + TotalArea([e]) && TotalArea([e]) == Area(e);
    assert TotalArea([b, c, d, e]) == Area(b) + (Area(c) + TotalArea([d, e]));
  }

  /** The denominator is the area of all points in either box: they split into boxes that share
      no area, a being one of them. */
  lemma UnionIsArea(a: Rect, b: Rect) returns (tiles: seq<Rect>)
    requires Sized(a) && Sized(b) && !Apart(a, b)
    ensures Tiles(tiles, a, b) && |tiles| == 5 && tiles[0] == a && Union(a, b) == TotalArea(tiles)
  {
    tiles := Pieces(a, b);
    PiecesSized(a, b);
    PiecesArea(a, b);
    forall i, j | 0 <= i < j < |tiles|
      ensures ShareNoArea(tiles[i], tiles[j])
    {
      PiecesShareNoArea(a, b, i, j);
    }
    forall px, py
      ensures Covered(tiles, px, py) <==> Contains(a, px, py) || Contains(b, px, py)
    {
      PiecesCover(a, b, px, py);
    }
  }

  lemma RatioIsQuotient(inter: real, union: real, t: real)
    requires 0.0 <= inter <= union
    ensures RatioExceeds(inter, union, t) <==> union > 0.0 && inter > Times(t, union)
  {
    if union > 0.0 {
      var q := inter / union;
      assert q * union == inter;
      assert inter - Times(t, union) == Times(q - t, union);
      if q > t { PositiveProduct(q - t, union); }
      if q < t { PositiveProduct(t - q, union); assert Times(q - t, union) == -((t - q) * union); }
    }
  }

  lemma ShareExceeds(inter: real, union: real, t: real)
    requires 0.0 <= inter <= union && union > 0.0
    ensures t >= 1.0 ==> !RatioExceeds(inter, union, t)
    ensures inter == union && t < 1.0 ==> RatioExceeds(inter, union, t)
  {
    assert inter / union * union == inter;
    ShareAtMostOne(inter / union, inter, union);
  }

  lemma ShareAtMostOne(q: real, inter: real, union: real)
    requires q * union == inter && 0.0 <= inter <= union && union > 0.0
    ensures q <= 1.0 && (inter == union ==> q == 1.0)
  {
    if q > 1.0 {
      PositiveProduct(q - 1.0, union);
    } else if q < 1.0 {
      PositiveProduct(1.0 - q, union);
    }
    assert (q - 1.0) * union == inter - union && (1.0 - q) * union == union - inter;
  }

  lemma PositiveProduct(a: real, b: real)
    requires a > 0.0 && b > 0.0
    ensures a * b > 0.0
  {
  }
}
