/** The keypoint head: a heatmap per keypoint becomes the expected position under its softmax
    distribution. */
module SoftArgmax {
  import opened Sums
  import opened TensorKernels

  datatype Layout = CHW | HWC

  // ----- expectations over a square grid

  /** Cell (h, w) weighted by its row, or by its column. */
  ghost function ByRow(p: (int, int) -> real): (int, int) -> real { (h: int, w: int) => Times(p(h, w), h as real) }

  ghost function ByColumn(p: (int, int) -> real): (int, int) -> real { (h: int, w: int) => Times(p(h, w), w as real) }

  /** The expected row and column of a distribution over the cells of a grid. */
  ghost function ExpectedRow(p: (int, int) -> real, n: nat): real { GridSum(n, n, ByRow(p)) }

  ghost function ExpectedColumn(p: (int, int) -> real, n: nat): real { GridSum(n, n, ByColumn(p)) }

  ghost predicate IsDistribution(p: (int, int) -> real, n: nat)
  {
    (forall h, w :: p(h, w) >= 0.0) && GridSum(n, n, p) == 1.0
  }

  lemma TurnedMoment(p: (int, int) -> real, n: nat)
    ensures ExpectedRow(Turned(p), n) == ExpectedColumn(p, n)
    ensures GridSum(n, n, Turned(p)) == GridSum(n, n, p)
  {
    GridTurns(n, n, ByColumn(p));
    GridEqual(n, n, Turned(ByColumn(p)), ByRow(Turned(p)));
    GridTurns(n, n, p);
  }

  lemma Reassociate(a: real, b: real, k: real)
    ensures Times(a, Times(b, k)) == Times(Times(a, b), k)
  {
  }

  /** The coefficients 0, k, 2k, ... */
  ghost function Ramp(k: real): int -> real { (i: int) => Times(i as real, k) }

  /** The row masses weighted by coefficients. */
  ghost function Weighted(p: (int, int) -> real, n: nat, r: int -> real): int -> real
  {
    (h: int) => Times(RowSums(p, n)(h), r(h))
  }

  /** Weighting the row masses by a ramp and adding up gives the expected row. */
  lemma RowMoment(p: (int, int) -> real, n: nat, k: real)
    ensures Sum(n, Weighted(p, n, Ramp(k))) == Times(ExpectedRow(p, n), k)
  {
    forall h | 0 <= h < n
      ensures Weighted(p, n, Ramp(k))(h) == Times(RowSums(ByRow(p), n)(h), k)
    {
      SumScales(n, Row(p, h), h as real);
      SumEqual(n, Row(ByRow(p), h), w => Times(Row(p, h)(w), h as real));
      Reassociate(RowSums(p, n)(h), h as real, k);
    }
    SumScales(n, RowSums(ByRow(p), n), k);
    SumEqual(n, Weighted(p, n, Ramp(k)), h => Times(RowSums(ByRow(p), n)(h), k));
  }

  lemma Bounded(a: real, b: real, top: real)
    requires a >= 0.0 && 0.0 <= b <= top
    ensures 0.0 <= Times(a, b) <= Times(a, top)
  {
  }

  /** The expected row of a distribution lies inside the grid. */
  lemma ExpectedRowInside(p: (int, int) -> real, n: nat)
    requires n > 0 && IsDistribution(p, n)
    ensures 0.0 <= ExpectedRow(p, n) <= (n - 1) as real
  {
    var top := (n - 1) as real;
    var zero := (h: int, w: int) => Times(p(h, w), 0.0);
    var most := (h: int, w: int) => Times(p(h, w), top);
    forall h, w | 0 <= h < n && 0 <= w < n
      ensures zero(h, w) <= ByRow(p)(h, w) <= most(h, w)
    {
      Bounded(p(h, w), h as real, top);
    }
    GridAtMost(n, n, zero, ByRow(p));
    GridAtMost(n, n, ByRow(p), most);
    GridScales(n, n, p, 0.0);
    GridScales(n, n, p, top);
    GridEqual(n, n, zero, (h, w) => Times(p(h, w), 0.0));
    GridEqual(n, n, most, (h, w) => Times(p(h, w), top));
  }

  lemma ExpectedColumnInside(p: (int, int) -> real, n: nat)
    requires n > 0 && IsDistribution(p, n)
    ensures 0.0 <= ExpectedColumn(p, n) <= (n - 1) as real
  {
    TurnedMoment(p, n);
    ExpectedRowInside(Turned(p), n);
  }

  // ----- the pipeline of buffers, for any cell values

  type Cells = (int, int, int) -> real

  /** The grid of keypoint c. */
  ghost function Grid(p: Cells, c: int): (int, int) -> real { (h: int, w: int) => p(c, h, w) }

  ghost predicate HoldsCells(s: seq<real>, keypoints: nat, n: nat, p: Cells)
  {
    forall c, h, w | 0 <= c < keypoints && 0 <= h < n && 0 <= w < n :: At(s, Flat(Flat(c, h, n), w, n)) == p(c, h, w)
  }

  ghost predicate Lists(coeffs: seq<real>, n: nat, r: int -> real)
  {
    |coeffs| == n && forall i | 0 <= i < n :: coeffs[i] == r(i)
  }

  lemma RowMass(soft: seq<real>, p: Cells, keypoints: nat, n: nat, c: int, h: int)
    requires 0 <= c < keypoints && 0 <= h < n && HoldsCells(soft, keypoints, n, p)
    ensures RowSum(soft, n, n)(c, h) == RowSums(Grid(p, c), n)(h)
  {
    SumEqual(n, k => At(soft, Flat(Flat(c, h, n), k, n)), Row(Grid(p, c), h));
  }

  lemma ColumnMass(soft: seq<real>, p: Cells, keypoints: nat, n: nat, c: int, w: int)
    requires 0 <= c < keypoints && 0 <= w < n && HoldsCells(soft, keypoints, n, p)
    ensures ColSum(soft, n, n)(c, w) == RowSums(Turned(Grid(p, c)), n)(w)
  {
    SumEqual(n, k => At(soft, Flat(Flat(c, k, n), w, n)), Row(Turned(Grid(p, c)), w));
  }

  /** A buffer of masses times coefficients. */
  lemma WeightedMass(masses: seq<real>, weighted: seq<real>, coeffs: seq<real>, r: int -> real, p: (int, int) -> real,
                     keypoints: nat, n: nat, c: int, i: int)
    requires 0 <= c < keypoints && 0 <= i < n && Lists(coeffs, n, r)
    requires At(masses, Flat(c, i, n)) == RowSums(p, n)(i)
    requires Holds(weighted, keypoints, n, Product(masses, coeffs, n))
    ensures At(weighted, Flat(c, i, n)) == Weighted(p, n, r)(i)
  {
    assert At(weighted, Flat(c, i, n)) == Product(masses, coeffs, n)(c, i);
  }

  /** The last buffer of the column branch adds up the weighted masses. */
  lemma ColumnOut(p: (int, int) -> real, weighted: seq<real>, out: seq<real>, keypoints: nat, n: nat, c: int,
                  r: int -> real)
    requires 0 <= c < keypoints && Holds(out, keypoints, 1, RowSum(weighted, 1, n))
    requires forall w | 0 <= w < n :: At(weighted, Flat(c, w, n)) == Weighted(p, n, r)(w)
    ensures At(out, c) == Sum(n, Weighted(p, n, r))
  {
    assert Flat(c, 0, 1) == c;
    assert At(out, Flat(c, 0, 1)) == RowSum(weighted, 1, n)(c, 0);
    SumEqual(n, w => At(weighted, Flat(Flat(c, 0, 1), w, n)), Weighted(p, n, r));
  }

  lemma RowOut(p: (int, int) -> real, weighted: seq<real>, out: seq<real>, keypoints: nat, n: nat, c: int,
               r: int -> real)
    requires 0 <= c < keypoints && Holds(out, keypoints, 1, ColSum(weighted, n, 1))
    requires forall h | 0 <= h < n :: At(weighted, Flat(c, h, n)) == Weighted(p, n, r)(h)
    ensures At(out, c) == Sum(n, Weighted(p, n, r))
  {
    assert Flat(c, 0, 1) == c;
    assert At(out, Flat(c, 0, 1)) == ColSum(weighted, n, 1)(c, 0);
    forall h | 0 <= h < n
      ensures At(weighted, Flat(Flat(c, h, n), 0, 1)) == Weighted(p, n, r)(h)
    {
      assert Flat(Flat(c, h, n), 0, 1) == Flat(c, h, n);
    }
    SumEqual(n, h => At(weighted, Flat(Flat(c, h, n), 0, 1)), Weighted(p, n, r));
  }

  method Columns(soft: seq<real>, keypoints: nat, n: nat, coeffs: seq<real>, ghost p: Cells, ghost r: int -> real)
    returns (xs: seq<real>)
    requires Lists(coeffs, n, r) && |soft| == keypoints * n * n && HoldsCells(soft, keypoints, n, p)
    ensures |xs| == keypoints && forall c | 0 <= c < keypoints ::
              At(xs, c) == Sum(n, Weighted(Turned(Grid(p, c)), n, r))
  {
    var col := new real[keypoints * n];
    ReduceSumH(soft, col, keypoints, n, n);
    var weighted := new real[keypoints * n];
    ElementwiseMultHm(col[..], coeffs, weighted, keypoints, n);
    var out := new real[keypoints * 1];
    assert keypoints * 1 * n == keypoints * n;
    ReduceSumW(weighted[..], out, keypoints, 1, n);
    xs := out[..];
    forall c | 0 <= c < keypoints
      ensures At(xs, c) == Sum(n, Weighted(Turned(Grid(p, c)), n, r))
    {
      ColumnBranch(soft, col[..], weighted[..], xs, coeffs, p, keypoints, n, c, r);
    }
  }

  lemma ColumnWeights(soft: seq<real>, col: seq<real>, weighted: seq<real>, coeffs: seq<real>, r: int -> real,
                      p: Cells, keypoints: nat, n: nat, c: int)
    requires 0 <= c < keypoints && Lists(coeffs, n, r) && HoldsCells(soft, keypoints, n, p)
    requires Holds(col, keypoints, n, ColSum(soft, n, n))
    requires Holds(weighted, keypoints, n, Product(col, coeffs, n))
    ensures forall w | 0 <= w < n :: At(weighted, Flat(c, w, n)) == Weighted(Turned(Grid(p, c)), n, r)(w)
  {
    forall w | 0 <= w < n
      ensures At(weighted, Flat(c, w, n)) == Weighted(Turned(Grid(p, c)), n, r)(w)
    {
      ColumnMass(soft, p, keypoints, n, c, w);
      WeightedMass(col, weighted, coeffs, r, Turned(Grid(p, c)), keypoints, n, c, w);
    }
  }

  lemma ColumnBranch(soft: seq<real>, col: seq<real>, weighted: seq<real>, out: seq<real>, coeffs: seq<real>,
                     p: Cells, keypoints: nat, n: nat, c: int, r: int -> real)
    requires 0 <= c < keypoints && Lists(coeffs, n, r) && HoldsCells(soft, keypoints, n, p)
    requires Holds(col, keypoints, n, ColSum(soft, n, n))
    requires Holds(weighted, keypoints, n, Product(col, coeffs, n))
    requires Holds(out, keypoints, 1, RowSum(weighted, 1, n))
    ensures At(out, c) == Sum(n, Weighted(Turned(Grid(p, c)), n, r))
  {
    ColumnWeights(soft, col, weighted, coeffs, r, p, keypoints, n, c);
    ColumnOut(Turned(Grid(p, c)), weighted, out, keypoints, n, c, r);
  }

  method Rows(soft: seq<real>, keypoints: nat, n: nat, coeffs: seq<real>, ghost p: Cells, ghost r: int -> real)
    returns (ys: seq<real>)
    requires Lists(coeffs, n, r) && |soft| == keypoints * n * n && HoldsCells(soft, keypoints, n, p)
    ensures |ys| == keypoints && forall c | 0 <= c < keypoints :: At(ys, c) == Sum(n, Weighted(Grid(p, c), n, r))
  {
    var row := new real[keypoints * n];
    ReduceSumW(soft, row, keypoints, n, n);
    var weighted := new real[keypoints * n];
    ElementwiseMultHm(row[..], coeffs, weighted, keypoints, n);
    var out := new real[keypoints * 1];
    assert keypoints * n * 1 == keypoints * n;
    ReduceSumH(weighted[..], out, keypoints, n, 1);
    ys := out[..];
    forall c | 0 <= c < keypoints
      ensures At(ys, c) == Sum(n, Weighted(Grid(p, c), n, r))
    {
      RowBranch(soft, row[..], weighted[..], ys, coeffs, p, keypoints, n, c, r);
    }
  }

  lemma RowWeights(soft: seq<real>, row: seq<real>, weighted: seq<real>, coeffs: seq<real>, r: int -> real,
                   p: Cells, keypoints: nat, n: nat, c: int)
    requires 0 <= c < keypoints && Lists(coeffs, n, r) && HoldsCells(soft, keypoints, n, p)
    requires Holds(row, keypoints, n, RowSum(soft, n, n))
    requires Holds(weighted, keypoints, n, Product(row, coeffs, n))
    ensures forall h | 0 <= h < n :: At(weighted, Flat(c, h, n)) == Weighted(Grid(p, c), n, r)(h)
  {
    forall h | 0 <= h < n
      ensures At(weighted, Flat(c, h, n)) == Weighted(Grid(p, c), n, r)(h)
    {
      RowMass(soft, p, keypoints, n, c, h);
      WeightedMass(row, weighted, coeffs, r, Grid(p, c), keypoints, n, c, h);
    }
  }

  lemma RowBranch(soft: seq<real>, row: seq<real>, weighted: seq<real>, out: seq<real>, coeffs: seq<real>,
                  p: Cells, keypoints: nat, n: nat, c: int, r: int -> real)
    requires 0 <= c < keypoints && Lists(coeffs, n, r) && HoldsCells(soft, keypoints, n, p)
    requires Holds(row, keypoints, n, RowSum(soft, n, n))
    requires Holds(weighted, keypoints, n, Product(row, coeffs, n))
    requires Holds(out, keypoints, 1, ColSum(weighted, n, 1))
    ensures At(out, c) == Sum(n, Weighted(Grid(p, c), n, r))
  {
    RowWeights(soft, row, weighted, coeffs, r, p, keypoints, n, c);
    RowOut(Grid(p, c), weighted, out, keypoints, n, c, r);
  }

  // ----- the distribution of one keypoint

  /** The softmax probability of cell (h, w) of keypoint c; heatmaps have n x n cells. */
  ghost function Heat(exp: real -> real, hm: seq<real>, n: nat): Cells
  {
    (c: int, h: int, w: int) => Softmax(exp, hm, n * n)(c, Flat(h, w, n))
  }

  lemma HeatIsDistribution(exp: real -> real, hm: seq<real>, n: nat, c: int)
    requires n > 0 && forall x :: exp(x) > 0.0
    ensures IsDistribution(Grid(Heat(exp, hm, n), c), n)
  {
    var softmax := (i: int) => Softmax(exp, hm, n * n)(c, i);
    assert n * n > 0;
    SoftmaxIsDistribution(exp, hm, n * n, c);
    SumEqual(n * n, softmax, i => Softmax(exp, hm, n * n)(c, i));
    SumByRows(n, n, softmax, Grid(Heat(exp, hm, n), c));
  }

  lemma FlatNested(c: int, h: int, w: int, n: int)
    ensures Flat(Flat(c, h, n), w, n) == Flat(c, Flat(h, w, n), n * n)
  {
    assert (c * n + h) * n == c * (n * n) + h * n;
  }

  lemma SoftmaxHoldsHeat(exp: real -> real, hm: seq<real>, soft: seq<real>, keypoints: nat, n: nat)
    requires Holds(soft, keypoints, n * n, Softmax(exp, hm, n * n))
    ensures HoldsCells(soft, keypoints, n, Heat(exp, hm, n))
  {
    forall c, h, w | 0 <= c < keypoints && 0 <= h < n && 0 <= w < n
      ensures At(soft, Flat(Flat(c, h, n), w, n)) == Heat(exp, hm, n)(c, h, w)
    {
      FlatNested(c, h, w, n);
      FlatBelow(h, w, n, n);
    }
  }

  /** Where keypoint c lies: its expected column and row times k. */
  ghost function PositionX(exp: real -> real, hm: seq<real>, n: nat, c: int, k: real): real
  {
    Times(ExpectedColumn(Grid(Heat(exp, hm, n), c), n), k)
  }

  ghost function PositionY(exp: real -> real, hm: seq<real>, n: nat, c: int, k: real): real
  {
    Times(ExpectedRow(Grid(Heat(exp, hm, n), c), n), k)
  }

  lemma Fraction(a: real, m: real, k: real)
    requires m >= 1.0 && k > 0.0 && Times(m, k) == 1.0 && 0.0 <= a <= m - 1.0
    ensures 0.0 <= Times(a, k) < 1.0
  {
    assert Times(m - 1.0, k) == Times(m, k) - k;
    assert Times(m - 1.0 - a, k) >= 0.0;
    assert Times(m - 1.0, k) == Times(a, k) + Times(m - 1.0 - a, k);
  }

  lemma GridFraction(p: (int, int) -> real, n: nat, k: real)
    requires n > 0 && IsDistribution(p, n) && k > 0.0 && Times(n as real, k) == 1.0
    ensures 0.0 <= Times(ExpectedColumn(p, n), k) < 1.0
    ensures 0.0 <= Times(ExpectedRow(p, n), k) < 1.0
  {
    var (x, y) := (ExpectedColumn(p, n), ExpectedRow(p, n));
    ExpectedColumnInside(p, n);
    ExpectedRowInside(p, n);
    Fraction(x, n as real, k);
    Fraction(y, n as real, k);
  }

  /** With k = 1 / n every position is a fraction in [0, 1). */
  lemma PositionsInside(exp: real -> real, hm: seq<real>, n: nat, c: int, k: real)
    requires n > 0 && k > 0.0 && Times(n as real, k) == 1.0 && forall x :: exp(x) > 0.0
    ensures 0.0 <= PositionX(exp, hm, n, c, k) < 1.0 && 0.0 <= PositionY(exp, hm, n, c, k) < 1.0
  {
    HeatIsDistribution(exp, hm, n, c);
    GridFraction(Grid(Heat(exp, hm, n), c), n, k);
  }

  lemma PositionsAre(exp: real -> real, hm: seq<real>, n: nat, c: int, k: real)
    ensures var p := Grid(Heat(exp, hm, n), c);
            && Sum(n, Weighted(Turned(p), n, Ramp(k))) == PositionX(exp, hm, n, c, k)
            && Sum(n, Weighted(p, n, Ramp(k))) == PositionY(exp, hm, n, c, k)
  {
    var p := Grid(Heat(exp, hm, n), c);
    RowMoment(Turned(p), n, k);
    TurnedMoment(p, n);
    RowMoment(p, n, k);
  }

  method SoftmaxStage(hm: seq<real>, keypoints: nat, n: nat, exp: real -> real) returns (soft: seq<real>)
    requires |hm| == keypoints * (n * n) && forall x :: exp(x) > 0.0
    ensures |soft| == keypoints * n * n && HoldsCells(soft, keypoints, n, Heat(exp, hm, n))
  {
    var buffer := new real[keypoints * (n * n)];
    SoftmaxLastDim(hm, buffer, keypoints, n * n, exp);
    soft := buffer[..];
    SoftmaxHoldsHeat(exp, hm, soft, keypoints, n);
    assert keypoints * (n * n) == keypoints * n * n;
  }

  /** Softmax, the two reductions, the ramp and the two final sums. */
  method Ipr(hm: seq<real>, keypoints: nat, n: nat, coeffs: seq<real>, exp: real -> real, ghost k: real)
    returns (xs: seq<real>, ys: seq<real>)
    requires Lists(coeffs, n, Ramp(k)) && |hm| == keypoints * (n * n) && forall x :: exp(x) > 0.0
    ensures |xs| == |ys| == keypoints
    ensures forall c | 0 <= c < keypoints ::
              At(xs, c) == PositionX(exp, hm, n, c, k) && At(ys, c) == PositionY(exp, hm, n, c, k)
  {
    var soft := SoftmaxStage(hm, keypoints, n, exp);
    xs := Columns(soft, keypoints, n, coeffs, Heat(exp, hm, n), Ramp(k));
    ys := Rows(soft, keypoints, n, coeffs, Heat(exp, hm, n), Ramp(k));
    forall c | 0 <= c < keypoints
      ensures At(xs, c) == PositionX(exp, hm, n, c, k) && At(ys, c) == PositionY(exp, hm, n, c, k)
    {
      PositionsAre(exp, hm, n, c, k);
    }
  }

  // ----- layouts

  /** The buffer stores, in its layout, the logical heatmaps v(keypoint, cell). */
  ghost predicate Stores(data: seq<real>, layout: Layout, keypoints: nat, area: nat, v: (int, int) -> real)
  {
    && |data| == keypoints * area
    && (layout.CHW? ==> Holds(data, keypoints, area, v))
    && (layout.HWC? ==> Holds(data, area, keypoints, Turned(v)))
  }

  /** A position in pixels of a network input of the given shape. */
  function Pixel(x: real, y: real, shape: real): (real, real) { (Times(x, shape), Times(y, shape)) }

  ghost predicate Inside(p: (real, real), shape: real) { 0.0 <= p.0 < shape && 0.0 <= p.1 < shape }

  lemma PixelInside(x: real, y: real, shape: real)
    requires 0.0 <= x < 1.0 && 0.0 <= y < 1.0 && shape > 0.0
    ensures Inside(Pixel(x, y, shape), shape)
  {
    ScaledInside(x, shape);
    ScaledInside(y, shape);
  }

  lemma ScaledInside(a: real, k: real)
    requires 0.0 <= a < 1.0 && k > 0.0
    ensures 0.0 <= Times(a, k) < k
  {
    assert Times(1.0 - a, k) > 0.0;
    assert Times(1.0 - a, k) == k - Times(a, k);
  }

  method ScaleAll(xs: seq<real>, ys: seq<real>, shape: real) returns (kpts: seq<(real, real)>)
    requires |xs| == |ys|
    ensures |kpts| == |xs|
    ensures forall c | 0 <= c < |xs| :: kpts[c] == Pixel(At(xs, c), At(ys, c), shape)
  {
    kpts := [];
    for c := 0 to |xs|
      invariant |kpts| == c
      invariant forall k | 0 <= k < c :: kpts[k] == Pixel(At(xs, k), At(ys, k), shape)
    {
      kpts := kpts + [Pixel(xs[c], ys[c], shape)];
    }
  }

  /** The ramp 0, 1/n, 2/n, ... */
  method Coefficients(n: nat) returns (coeffs: seq<real>)
    requires n > 0
    ensures Lists(coeffs, n, Ramp(1.0 / n as real))
  {
    var points := Linspace(0.0, 1.0, n, false);
    coeffs := points.value;
  }

  lemma Reciprocal(n: nat)
    requires n > 0
    ensures 1.0 / n as real > 0.0 && Times(n as real, 1.0 / n as real) == 1.0
  {
  }

  /** A single batch with its channels turned to the front. */
  lemma OneBatch(data: seq<real>, dense: seq<real>, keypoints: nat, area: nat, v: (int, int) -> real)
    requires Holds(data, area, keypoints, Turned(v))
    requires Holds(dense, 1 * keypoints, area, Transposed(data, keypoints, area))
    ensures Holds(dense, keypoints, area, v)
  {
    forall c, i | 0 <= c < keypoints && 0 <= i < area
      ensures At(dense, Flat(c, i, area)) == v(c, i)
    {
      OneEntry(data, keypoints, area, c, i);
      assert At(data, Flat(i, c, keypoints)) == Turned(v)(i, c);
    }
  }

  lemma OneEntry(data: seq<real>, keypoints: nat, area: nat, c: int, i: int)
    requires 0 <= c < keypoints && 0 <= i < area
    ensures Transposed(data, keypoints, area)(c, i) == At(data, Flat(i, c, keypoints))
  {
    RowOfBatch(0, c, keypoints);
  }

  /** Whatever the layout, the same dense buffer comes out. */
  method ToChannelsFirst(data: seq<real>, layout: Layout, keypoints: nat, area: nat,
                         ghost chw: seq<real>, ghost v: (int, int) -> real)
    returns (dense: seq<real>)
    requires Stores(data, layout, keypoints, area, v) && Stores(chw, CHW, keypoints, area, v)
    ensures dense == chw
  {
    if layout.CHW? {
      dense := data;
    } else {
      var buffer := new real[keypoints * area];
      assert keypoints * area == area * keypoints == 1 * area * keypoints && 1 * keypoints * area == keypoints * area;
      NHWC2NCHW(data, buffer, 1, keypoints, area);
      dense := buffer[..];
      OneBatch(data, dense, keypoints, area, v);
    }
    if area > 0 { HoldsUnique(dense, chw, keypoints, area, v); }
  }

  /** The dimensions of the output tensor, in the order they are stored. */
  datatype Dims = Dims(d0: nat, d1: nat, d2: nat)

  function Height(layout: Layout, d: Dims): nat { if layout.CHW? then d.d1 else d.d0 }

  function Width(layout: Layout, d: Dims): nat { if layout.CHW? then d.d2 else d.d1 }

  function Channels(layout: Layout, d: Dims): nat { if layout.CHW? then d.d0 else d.d2 }

  function Entries(d: Dims): nat { d.d0 * d.d1 * d.d2 }

  lemma EntriesByChannel(layout: Layout, d: Dims)
    ensures Channels(layout, d) * (Height(layout, d) * Width(layout, d)) == Entries(d)
  {
  }

  // ----- what the head reads, and when that is right

  /** The program takes the side of the maps from the second dimension and the number of
      keypoints from the third, in both layouts. */
  function Reads(d: Dims): nat { d.d2 * (d.d1 * d.d1) }

  /** It reads past the tensor exactly if the second dimension is greater than the first. */
  lemma ReadsInsideIff(d: Dims)
    ensures Reads(d) <= Entries(d) <==> d.d1 == 0 || d.d2 == 0 || d.d1 <= d.d0
  {
    var a := d.d1 * d.d2;
    assert Reads(d) == a * d.d1 && Entries(d) == a * d.d0;
    if a > 0 { ProductOrder(a, d.d1, d.d0); }
  }

  lemma ProductOrder(a: int, x: int, y: int)
    requires a > 0
    ensures a * x <= a * y <==> x <= y
  {
    if x > y { assert a * (x - y) > 0; } else { assert a * (y - x) >= 0; }
  }

  /** The softmax probability of cell (h, w) of channel c, for maps of any height and width. */
  ghost function Map(exp: real -> real, chw: seq<real>, height: nat, width: nat, c: int): (int, int) -> real
  {
    (h: int, w: int) => Softmax(exp, chw, height * width)(c, Flat(h, w, width))
  }

  /** Where channel c of the maps lies, as fractions of their width and height. */
  ghost function FractionX(exp: real -> real, chw: seq<real>, height: nat, width: nat, c: int): real
    requires width > 0
  {
    Times(GridSum(height, width, ByColumn(Map(exp, chw, height, width, c))), 1.0 / width as real)
  }

  ghost function FractionY(exp: real -> real, chw: seq<real>, height: nat, width: nat, c: int): real
    requires height > 0
  {
    Times(GridSum(height, width, ByRow(Map(exp, chw, height, width, c))), 1.0 / height as real)
  }

  predicate Positive(d: Dims) { d.d0 > 0 && d.d1 > 0 && d.d2 > 0 }

  /** The positions computed from `read`, as n x n maps, are those of the first channels of chw. */
  ghost predicate PositionsRight(exp: real -> real, read: seq<real>, n: nat, chw: seq<real>, height: nat, width: nat,
                                 channels: nat)
    requires n > 0 && height > 0 && width > 0
  {
    forall c | 0 <= c < channels ::
      && PositionX(exp, read, n, c, 1.0 / n as real) == FractionX(exp, chw, height, width, c)
      && PositionY(exp, read, n, c, 1.0 / n as real) == FractionY(exp, chw, height, width, c)
  }

  /** The program's positions for this channels-first buffer are those of its channels. */
  ghost predicate RightFor(exp: real -> real, layout: Layout, d: Dims, chw: seq<real>)
    requires Positive(d) && Reads(d) <= |chw|
  {
    PositionsRight(exp, chw[..Reads(d)], d.d1, chw, Height(layout, d), Width(layout, d), Channels(layout, d))
  }

  /** It stays inside the tensor, reports one keypoint for each channel, and each where it is. */
  ghost predicate AlwaysRight(exp: real -> real, layout: Layout, d: Dims)
    requires Positive(d)
  {
    && Reads(d) <= Entries(d) && d.d2 == Channels(layout, d)
    && forall chw: seq<real> | |chw| == Entries(d) :: RightFor(exp, layout, d, chw)
  }

  lemma SquareMapRight(exp: real -> real, chw: seq<real>, n: nat, c: int)
    requires n > 0
    ensures PositionX(exp, chw, n, c, 1.0 / n as real) == FractionX(exp, chw, n, n, c)
    ensures PositionY(exp, chw, n, c, 1.0 / n as real) == FractionY(exp, chw, n, n, c)
  {
    var (p, q) := (Grid(Heat(exp, chw, n), c), Map(exp, chw, n, n, c));
    GridEqual(n, n, ByColumn(p), ByColumn(q));
    GridEqual(n, n, ByRow(p), ByRow(q));
  }

  lemma ZerosAlike(exp: real -> real, s: seq<real>, n: nat, c: int, i: int, j: int)
    requires n > 0 && (forall x :: exp(x) > 0.0) && forall k | 0 <= k < |s| :: s[k] == 0.0
    ensures Softmax(exp, s, n)(c, i) == Softmax(exp, s, n)(c, j)
  {
    SoftmaxValue(exp, s, n, c, c * n, i);
    SoftmaxValue(exp, s, n, c, c * n, j);
    assert At(s, c * n + i) == At(s, c * n + j) == 0.0;
  }

  /** Weights that are all the same give a uniform distribution. */
  lemma UniformMap(exp: real -> real, chw: seq<real>, height: nat, width: nat, c: int)
    requires height > 0 && width > 0 && (forall x :: exp(x) > 0.0) && forall i | 0 <= i < |chw| :: chw[i] == 0.0
    ensures var u := Map(exp, chw, height, width, c)(0, 0);
            && Times((height * width) as real, u) == 1.0
            && forall h, w | 0 <= h < height && 0 <= w < width :: Map(exp, chw, height, width, c)(h, w) == u
  {
    var n := height * width;
    assert n > 0;
    var u := Map(exp, chw, height, width, c)(0, 0);
    var softmax := (i: int) => Softmax(exp, chw, n)(c, i);
    forall i
      ensures softmax(i) == u
    {
      ZerosAlike(exp, chw, n, c, i, Flat(0, 0, width));
    }
    forall h, w | 0 <= h < height && 0 <= w < width
      ensures Map(exp, chw, height, width, c)(h, w) == u
    {
      assert Map(exp, chw, height, width, c)(h, w) == softmax(Flat(h, w, width));
    }
    SoftmaxIsDistribution(exp, chw, n, c);
    SumEqual(n, i => Softmax(exp, chw, n)(c, i), softmax);
    SumEqual(n, softmax, _ => u);
    SumOfConstant(n, u);
  }

  lemma HalfOfUniform(m: real, w: real, u: real, s: real)
    requires 2.0 * s == Times(m, m - 1.0) && Times(m * w, u) == 1.0
    ensures 2.0 * Times(s, Times(w, u)) == m - 1.0
  {
    assert 2.0 * Times(s, Times(w, u)) == Times(m * w, u) * (m - 1.0);
  }

  lemma Rearrange(a: real, b: real, k: real)
    ensures Times(a, Times(b, k)) == Times(k, Times(a, b))
  {
  }

  /** The expected row of a uniform distribution is the middle one. */
  lemma UniformRow(p: (int, int) -> real, height: nat, width: nat, u: real)
    requires Times((height * width) as real, u) == 1.0
    requires forall h, w | 0 <= h < height && 0 <= w < width :: p(h, w) == u
    ensures 2.0 * GridSum(height, width, ByRow(p)) == (height - 1) as real
  {
    var mass := Times(width as real, u);
    forall h | 0 <= h < height
      ensures RowSums(ByRow(p), width)(h) == Times(h as real, mass)
    {
      SumEqual(width, Row(ByRow(p), h), _ => Times(u, h as real));
      SumOfConstant(width, Times(u, h as real));
      Rearrange(width as real, u, h as real);
    }
    SumEqual(height, RowSums(ByRow(p), width), h => Times(h as real, mass));
    SumScales(height, (h: int) => h as real, mass);
    SumEqual(height, h => Times(h as real, mass), i => Times(((h: int) => h as real)(i), mass));
    SumOfIndices(height);
    HalfOfUniform(height as real, width as real, u, Sum(height, (h: int) => h as real));
  }

  lemma UniformColumn(p: (int, int) -> real, height: nat, width: nat, u: real)
    requires Times((height * width) as real, u) == 1.0
    requires forall h, w | 0 <= h < height && 0 <= w < width :: p(h, w) == u
    ensures 2.0 * GridSum(height, width, ByColumn(p)) == (width - 1) as real
  {
    GridTurns(height, width, ByColumn(p));
    GridEqual(width, height, Turned(ByColumn(p)), ByRow(Turned(p)));
    assert height * width == width * height;
    UniformRow(Turned(p), width, height, u);
  }

  /** Twice the middle of a side of n cells, as a fraction of the side. */
  ghost function Middle(n: nat): real
    requires n > 0
  {
    Times((n - 1) as real, 1.0 / n as real)
  }

  lemma Halved(a: real, n: nat, k: real)
    requires n > 0 && 2.0 * a == (n - 1) as real && k == 1.0 / n as real
    ensures 2.0 * Times(a, k) == Middle(n)
  {
  }

  /** An empty heatmap lies in the middle of its map. */
  lemma EmptyInMiddle(exp: real -> real, chw: seq<real>, height: nat, width: nat, c: int)
    requires height > 0 && width > 0 && (forall x :: exp(x) > 0.0) && forall i | 0 <= i < |chw| :: chw[i] == 0.0
    ensures 2.0 * FractionX(exp, chw, height, width, c) == Middle(width)
    ensures 2.0 * FractionY(exp, chw, height, width, c) == Middle(height)
  {
    var p := Map(exp, chw, height, width, c);
    UniformMap(exp, chw, height, width, c);
    UniformRow(p, height, width, p(0, 0));
    UniformColumn(p, height, width, p(0, 0));
    Halved(GridSum(height, width, ByColumn(p)), width, 1.0 / width as real);
    Halved(GridSum(height, width, ByRow(p)), height, 1.0 / height as real);
  }

  lemma MiddleShowsSide(m: nat, n: nat)
    requires m > 0 && n > 0 && Middle(m) == Middle(n)
    ensures m == n
  {
    Reciprocal(m);
    Reciprocal(n);
    assert Middle(m) == 1.0 - 1.0 / m as real && Middle(n) == 1.0 - 1.0 / n as real;
    assert Times(m as real, 1.0 / n as real) == 1.0;
  }

  /** Maps of another shape already give an empty heatmap a wrong position. */
  lemma EmptyShowsSides(exp: real -> real, read: seq<real>, n: nat, chw: seq<real>, height: nat, width: nat,
                        channels: nat)
    requires n > 0 && height > 0 && width > 0 && channels > 0 && forall x :: exp(x) > 0.0
    requires (forall i | 0 <= i < |chw| :: chw[i] == 0.0) && forall i | 0 <= i < |read| :: read[i] == 0.0
    requires PositionsRight(exp, read, n, chw, height, width, channels)
    ensures height == width == n
  {
    SquareMapRight(exp, read, n, 0);
    EmptyInMiddle(exp, read, n, n, 0);
    EmptyInMiddle(exp, chw, height, width, 0);
    MiddleShowsSide(n, width);
    MiddleShowsSide(n, height);
  }

  /** Square maps and, with channels first, as many of them as they have columns. */
  predicate ShapesAgree(layout: Layout, d: Dims) { d.d0 == d.d1 && (layout.CHW? ==> d.d1 == d.d2) }

  lemma AgreedReads(d: Dims)
    requires d.d0 == d.d1
    ensures Reads(d) == Entries(d)
  {
  }

  lemma AgreedRight(exp: real -> real, chw: seq<real>, n: nat, channels: nat)
    requires n > 0
    ensures PositionsRight(exp, chw, n, chw, n, n, channels)
  {
    forall c | 0 <= c < channels
      ensures PositionX(exp, chw, n, c, 1.0 / n as real) == FractionX(exp, chw, n, n, c)
      ensures PositionY(exp, chw, n, c, 1.0 / n as real) == FractionY(exp, chw, n, n, c)
    {
      SquareMapRight(exp, chw, n, c);
    }
  }

  /** The head stays inside its tensor, reports every channel and puts it where it is, for all
      heatmaps, exactly if the shapes agree. */
  lemma AlwaysRightIffShapesAgree(exp: real -> real, layout: Layout, d: Dims)
    requires Positive(d) && forall x :: exp(x) > 0.0
    ensures AlwaysRight(exp, layout, d) <==> ShapesAgree(layout, d)
  {
    if ShapesAgree(layout, d) {
      AgreedReads(d);
      forall chw: seq<real> | |chw| == Entries(d)
        ensures RightFor(exp, layout, d, chw)
      {
        assert chw[..Reads(d)] == chw;
        AgreedRight(exp, chw, d.d1, Channels(layout, d));
      }
    }
    if AlwaysRight(exp, layout, d) {
      var empty := seq(Entries(d), _ => 0.0);
      assert RightFor(exp, layout, d, empty);
      EmptyShowsSides(exp, empty[..Reads(d)], d.d1, empty, Height(layout, d), Width(layout, d), Channels(layout, d));
    }
  }

  /** With channels first, 21 maps of 32 x 32 cells are read past their end, for 32 keypoints;
      with channels last all is right. */
  lemma ChannelsFirstFails(exp: real -> real)
    requires forall x :: exp(x) > 0.0
    ensures var d := Dims(21, 32, 32);
            Entries(d) == 21504 && Reads(d) == 32768 && d.d2 != Channels(CHW, d) && !AlwaysRight(exp, CHW, d)
    ensures AlwaysRight(exp, HWC, Dims(32, 32, 21))
  {
    AlwaysRightIffShapesAgree(exp, HWC, Dims(32, 32, 21));
  }

  // ----- the head

  /** The keypoints are the positions of n x n maps, in pixels. */
  ghost predicate AtPositions(exp: real -> real, read: seq<real>, n: nat, shape: real, kpts: seq<(real, real)>)
    requires n > 0
  {
    forall c | 0 <= c < |kpts| ::
      && kpts[c].0 == Times(PositionX(exp, read, n, c, 1.0 / n as real), shape)
      && kpts[c].1 == Times(PositionY(exp, read, n, c, 1.0 / n as real), shape)
  }

  lemma KeypointsInside(exp: real -> real, read: seq<real>, n: nat, shape: real, kpts: seq<(real, real)>)
    requires n > 0 && AtPositions(exp, read, n, shape, kpts) && shape > 0.0 && forall x :: exp(x) > 0.0
    ensures forall c | 0 <= c < |kpts| :: Inside(kpts[c], shape)
  {
    var k := 1.0 / n as real;
    Reciprocal(n);
    forall c | 0 <= c < |kpts|
      ensures Inside(kpts[c], shape)
    {
      PositionsInside(exp, read, n, c, k);
      PixelInside(PositionX(exp, read, n, c, k), PositionY(exp, read, n, c, k), shape);
    }
  }

  lemma KeypointsRight(exp: real -> real, layout: Layout, d: Dims, chw: seq<real>, shape: real, kpts: seq<(real, real)>)
    requires Positive(d) && ShapesAgree(layout, d) && |chw| == Entries(d) && Reads(d) <= |chw|
    requires |kpts| == d.d2 && AtPositions(exp, chw[..Reads(d)], d.d1, shape, kpts)
    ensures var (height, width) := (Height(layout, d), Width(layout, d));
            && |kpts| == Channels(layout, d)
            && forall c | 0 <= c < |kpts| ::
                 && kpts[c].0 == Times(FractionX(exp, chw, height, width, c), shape)
                 && kpts[c].1 == Times(FractionY(exp, chw, height, width, c), shape)
  {
    AgreedReads(d);
    assert chw[..Reads(d)] == chw;
    AgreedRight(exp, chw, d.d1, d.d2);
  }

  // ----- mirrored heatmaps

  /** Grid q is p with its columns in the opposite order. */
  ghost predicate MirrorsGrid(p: (int, int) -> real, q: (int, int) -> real, n: nat)
  {
    forall h, w | 0 <= h < n && 0 <= w < n :: q(h, w) == p(h, n - 1 - w)
  }

  lemma MirroredSum(p: (int, int) -> real, q: (int, int) -> real, n: nat)
    requires MirrorsGrid(p, q, n)
    ensures GridSum(n, n, q) == GridSum(n, n, p)
  {
    forall h | 0 <= h < n
      ensures RowSums(q, n)(h) == RowSums(p, n)(h)
    {
      SumReversed(n, Row(p, h), Row(q, h));
    }
    SumEqual(n, RowSums(q, n), RowSums(p, n));
  }

  lemma MirroredRow(p: (int, int) -> real, q: (int, int) -> real, n: nat)
    requires MirrorsGrid(p, q, n)
    ensures ExpectedRow(q, n) == ExpectedRow(p, n)
  {
    MirroredSum(ByRow(p), ByRow(q), n);
  }

  lemma SplitWeight(a: real, w: int, n: int)
    ensures Times(a, (n - 1 - w) as real) + Times(a, w as real) == Times(a, (n - 1) as real)
  {
    assert (n - 1 - w) as real + w as real == (n - 1) as real;
  }

  lemma MirroredColumn(p: (int, int) -> real, q: (int, int) -> real, n: nat)
    requires MirrorsGrid(p, q, n)
    ensures ExpectedColumn(q, n) + ExpectedColumn(p, n) == Times(GridSum(n, n, p), (n - 1) as real)
  {
    var far := (h: int, w: int) => Times(p(h, w), (n - 1 - w) as real);
    MirroredSum(far, ByColumn(q), n);
    forall h | 0 <= h < n
      ensures RowSums(far, n)(h) + RowSums(ByColumn(p), n)(h) == Times(RowSums(p, n)(h), (n - 1) as real)
    {
      SumAdds(n, Row(far, h), Row(ByColumn(p), h));
      forall w | 0 <= w < n
        ensures Row(far, h)(w) + Row(ByColumn(p), h)(w) == Times(Row(p, h)(w), (n - 1) as real)
      {
        SplitWeight(p(h, w), w, n);
      }
      SumEqual(n, i => Row(far, h)(i) + Row(ByColumn(p), h)(i), i => Times(Row(p, h)(i), (n - 1) as real));
      SumScales(n, Row(p, h), (n - 1) as real);
    }
    SumAdds(n, RowSums(far, n), RowSums(ByColumn(p), n));
    SumEqual(n, i => RowSums(far, n)(i) + RowSums(ByColumn(p), n)(i), i => Times(RowSums(p, n)(i), (n - 1) as real));
    SumScales(n, RowSums(p, n), (n - 1) as real);
  }

  /** The value at row h and column w of the map that begins at `base`; the columns of a row
      follow each other. */
  function Cell(s: seq<real>, base: int, n: nat, h: int, w: int): real { At(s, base + Flat(h, w, n)) }

  /** The map of buffer t is that of s with its columns in the opposite order. */
  ghost predicate MirrorsMap(s: seq<real>, t: seq<real>, base: int, n: nat)
  {
    forall h, w | 0 <= h < n && 0 <= w < n :: Cell(t, base, n, h, w) == Cell(s, base, n, h, n - 1 - w)
  }

  lemma CellOf(i: int, n: nat) returns (h: int, w: int)
    requires 0 <= i < n * n
    ensures 0 <= h < n && 0 <= w < n && i == Flat(h, w, n)
  {
    assert n > 0;
    h, w := i / n, i % n;
    if h >= n { RowsFollow(n - 1, h, n); }
  }

  lemma MirrorsBack(s: seq<real>, t: seq<real>, base: int, n: nat)
    requires MirrorsMap(s, t, base, n)
    ensures MirrorsMap(t, s, base, n)
  {
    forall h, w | 0 <= h < n && 0 <= w < n
      ensures Cell(s, base, n, h, w) == Cell(t, base, n, h, n - 1 - w)
    {
      assert Cell(t, base, n, h, n - 1 - w) == Cell(s, base, n, h, n - 1 - (n - 1 - w));
    }
  }

  lemma MirroredEntry(s: seq<real>, t: seq<real>, base: int, n: nat, i: int) returns (j: int)
    requires MirrorsMap(s, t, base, n) && 0 <= i < n * n
    ensures 0 <= j < n * n && Lane(t, base, i) == Lane(s, base, j)
  {
    var h, w := CellOf(i, n);
    FlatBelow(h, n - 1 - w, n, n);
    j := Flat(h, n - 1 - w, n);
    assert Cell(t, base, n, h, w) == Cell(s, base, n, h, n - 1 - w);
  }

  lemma MirrorEachIn(s: seq<real>, t: seq<real>, base: int, n: nat, area: nat)
    requires MirrorsMap(s, t, base, n) && area == n * n
    ensures EachIn(t, s, base, area)
  {
    forall i | 0 <= i < area
      ensures IsIn(Lane(t, base, i), s, base, area)
    {
      var j := MirroredEntry(s, t, base, n, i);
      assert Lane(s, base, j) == Lane(t, base, i);
    }
  }

  lemma MirrorPeak(s: seq<real>, t: seq<real>, base: int, n: nat, area: nat)
    requires MirrorsMap(s, t, base, n) && area == n * n
    ensures Peak(t, base, area) == Peak(s, base, area)
  {
    MirrorsBack(s, t, base, n);
    MirrorEachIn(s, t, base, n, area);
    MirrorEachIn(t, s, base, n, area);
    PeakAtMost(s, t, base, area);
    PeakAtMost(t, s, base, area);
  }

  /** The softmax weights of a map as a grid. */
  ghost function Weights(exp: real -> real, s: seq<real>, base: int, n: nat, area: nat): (int, int) -> real
  {
    (h: int, w: int) => Weight(exp, s, base, area)(Flat(h, w, n))
  }

  lemma SameWeight(exp: real -> real, s: seq<real>, t: seq<real>, base: int, area: nat, i: int, j: int)
    requires At(t, base + i) == At(s, base + j) && Peak(t, base, area) == Peak(s, base, area)
    ensures Weight(exp, t, base, area)(i) == Weight(exp, s, base, area)(j)
  {
  }

  lemma MirrorWeights(exp: real -> real, s: seq<real>, t: seq<real>, base: int, n: nat, area: nat)
    requires MirrorsMap(s, t, base, n) && area == n * n
    ensures MirrorsGrid(Weights(exp, s, base, n, area), Weights(exp, t, base, n, area), n)
  {
    MirrorPeak(s, t, base, n, area);
    forall h, w | 0 <= h < n && 0 <= w < n
      ensures Weights(exp, t, base, n, area)(h, w) == Weights(exp, s, base, n, area)(h, n - 1 - w)
    {
      assert Cell(t, base, n, h, w) == Cell(s, base, n, h, n - 1 - w);
      SameWeight(exp, s, t, base, area, Flat(h, w, n), Flat(h, n - 1 - w, n));
    }
  }

  lemma WeightsByRows(exp: real -> real, s: seq<real>, base: int, n: nat, area: nat)
    requires area == n * n
    ensures Sum(area, Weight(exp, s, base, area)) == GridSum(n, n, Weights(exp, s, base, n, area))
  {
    forall h, w | 0 <= h < n && 0 <= w < n
      ensures Weights(exp, s, base, n, area)(h, w) == Weight(exp, s, base, area)(h * n + w)
    {
      assert Flat(h, w, n) == h * n + w;
    }
    SumByRows(n, n, Weight(exp, s, base, area), Weights(exp, s, base, n, area));
  }

  lemma MirrorTotal(exp: real -> real, s: seq<real>, t: seq<real>, base: int, n: nat, area: nat)
    requires MirrorsMap(s, t, base, n) && area == n * n
    ensures Sum(area, Weight(exp, t, base, area)) == Sum(area, Weight(exp, s, base, area))
  {
    MirrorWeights(exp, s, t, base, n, area);
    WeightsByRows(exp, s, base, n, area);
    WeightsByRows(exp, t, base, n, area);
    MirroredSum(Weights(exp, s, base, n, area), Weights(exp, t, base, n, area), n);
  }

  /** Map c of buffer t is that of s with its columns in the opposite order. */
  ghost predicate MirrorsColumns(s: seq<real>, t: seq<real>, n: nat, c: int) { MirrorsMap(s, t, c * (n * n), n) }

  lemma MirrorHeat(exp: real -> real, s: seq<real>, t: seq<real>, n: nat, c: int)
    requires MirrorsColumns(s, t, n, c)
    ensures MirrorsGrid(Grid(Heat(exp, s, n), c), Grid(Heat(exp, t, n), c), n)
  {
    var (base, area) := (c * (n * n), n * n);
    MirrorWeights(exp, s, t, base, n, area);
    MirrorTotal(exp, s, t, base, n, area);
    forall h, w | 0 <= h < n && 0 <= w < n
      ensures Softmax(exp, t, area)(c, Flat(h, w, n)) == Softmax(exp, s, area)(c, Flat(h, n - 1 - w, n))
    {
      assert Weights(exp, t, base, n, area)(h, w) == Weights(exp, s, base, n, area)(h, n - 1 - w);
    }
  }

  /** Mirroring a heatmap mirrors the first coordinate of its position and keeps the second. */
  lemma PositionsMirrored(exp: real -> real, s: seq<real>, t: seq<real>, n: nat, c: int, k: real)
    requires n > 0 && MirrorsColumns(s, t, n, c) && forall x :: exp(x) > 0.0
    ensures PositionX(exp, t, n, c, k) + PositionX(exp, s, n, c, k) == Times((n - 1) as real, k)
    ensures PositionY(exp, t, n, c, k) == PositionY(exp, s, n, c, k)
  {
    var (p, q) := (Grid(Heat(exp, s, n), c), Grid(Heat(exp, t, n), c));
    MirrorHeat(exp, s, t, n, c);
    HeatIsDistribution(exp, s, n, c);
    MirroredRow(p, q, n);
    MirroredColumn(p, q, n);
    assert Times(1.0, (n - 1) as real) == (n - 1) as real;
    Distribute(ExpectedColumn(q, n), ExpectedColumn(p, n), k);
  }

  /** In the picture: the column of a keypoint is its first coordinate, the row its second. */
  lemma KeypointsMirrored(exp: real -> real, s: seq<real>, t: seq<real>, n: nat, shape: real, kpts: seq<(real, real)>,
                          mirrored: seq<(real, real)>, c: nat)
    requires n > 0 && MirrorsColumns(s, t, n, c) && (forall x :: exp(x) > 0.0) && c < |kpts| && c < |mirrored|
    requires AtPositions(exp, s, n, shape, kpts) && AtPositions(exp, t, n, shape, mirrored)
    ensures mirrored[c].0 + kpts[c].0 == Times(Times((n - 1) as real, 1.0 / n as real), shape)
    ensures mirrored[c].1 == kpts[c].1
  {
    var k := 1.0 / n as real;
    PositionsMirrored(exp, s, t, n, c, k);
    Distribute(PositionX(exp, t, n, c, k), PositionX(exp, s, n, c, k), shape);
  }

  /** The keypoints in pixels, for every shape that is read inside the tensor.  They depend on
      the logical heatmaps only: chw is their channels-first buffer, whatever the layout of the
      data. */
  method PostProcess(data: seq<real>, layout: Layout, dims: Dims, shape: real, exp: real -> real,
                     ghost chw: seq<real>, ghost v: (int, int) -> real)
    returns (kpts: seq<(real, real)>)
    requires 0 < dims.d1 <= dims.d0 && shape > 0.0 && forall x :: exp(x) > 0.0
    requires var cells := Height(layout, dims) * Width(layout, dims);
             && Stores(data, layout, Channels(layout, dims), cells, v)
             && Stores(chw, CHW, Channels(layout, dims), cells, v)
    ensures |chw| == Entries(dims) && |kpts| == dims.d2 && Reads(dims) <= |chw|
    ensures AtPositions(exp, chw[..Reads(dims)], dims.d1, shape, kpts)
    ensures forall c | 0 <= c < |kpts| :: Inside(kpts[c], shape)
  {
    var (keypoints, n) := (dims.d2, dims.d1);
    var (channels, cells) := (Channels(layout, dims), Height(layout, dims) * Width(layout, dims));
    var coeffs := Coefficients(n);
    var dense := ToChannelsFirst(data, layout, channels, cells, chw, v);
    ReadsInsideIff(dims);
    EntriesByChannel(layout, dims);
    var xs, ys := Ipr(dense[..Reads(dims)], keypoints, n, coeffs, exp, 1.0 / n as real);
    kpts := ScaleAll(xs, ys, shape);
    KeypointsInside(exp, chw[..Reads(dims)], n, shape, kpts);
  }
}
