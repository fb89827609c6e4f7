/** The blocked tensor layout of the NPU: channels are stored in blocks, every block holds all
    batches, and within a row the channels of a block lie next to each other. */
module NpuLayout {
  import opened TensorKernels

  /** Sizes in channels; steps in bytes. */
  datatype Dims = Dims(kSizeNorm: int, kStep: int, rowStep: int, kNormNum: int, kSizeLast: int)

  datatype Shape = Shape(batches: int, channels: int, height: int, width: int)

  datatype Entry = Entry(batch: int, c: int, h: int, w: int)

  ghost predicate InShape(e: Entry, s: Shape)
  {
    0 <= e.batch < s.batches && 0 <= e.c < s.channels && 0 <= e.h < s.height && 0 <= e.w < s.width
  }

  /** The index computation, as written: byte offsets, divided by the unit at the end. */
  function EntryIndex(e: Entry, batches: int, unit: int, d: Dims): int
    requires unit > 0 && batches > 0 && d.kSizeNorm > 0
  {
    var batchOffset := (d.kStep / unit) / batches * e.batch;
    var address := (e.c / d.kSizeNorm) * d.kStep + e.h * d.rowStep;
    var bytes :=
      if e.c < d.kNormNum * d.kSizeNorm
      then address + e.c % d.kSizeNorm * unit + e.w * d.kSizeNorm * unit
      else address + (e.c - d.kNormNum * d.kSizeNorm) * unit + e.w * d.kSizeLast * unit;
    bytes / unit + batchOffset
  }

  /** Steps in units: k from block to block, r from row to row.  They are whole, a row step
      covers a row, a batch's share of a block covers all rows, and the last block is no
      wider than the others. */
  ghost predicate WellFormed(d: Dims, s: Shape, unit: int, k: int, r: int)
  {
    && unit > 0 && s.batches > 0 && s.height > 0 && s.width > 0 && d.kSizeNorm > 0 && d.kNormNum >= 0
    && d.kStep == k * unit && d.rowStep == r * unit && k >= 0
    && s.width * d.kSizeNorm <= r && s.height * r <= k / s.batches
    && 0 <= d.kSizeLast <= d.kSizeNorm
    && 0 < s.channels <= d.kNormNum * d.kSizeNorm + d.kSizeLast
  }

  function Blocks(d: Dims): int { d.kNormNum + if d.kSizeLast > 0 then 1 else 0 }

  /** The block of a channel, the channel's place in it, and the block's width. */
  function BlockOf(c: int, d: Dims): int
    requires d.kSizeNorm > 0
  {
    if c < d.kNormNum * d.kSizeNorm then c / d.kSizeNorm else d.kNormNum
  }

  function LaneOf(c: int, d: Dims): int
    requires d.kSizeNorm > 0
  {
    if c < d.kNormNum * d.kSizeNorm then c % d.kSizeNorm else c - d.kNormNum * d.kSizeNorm
  }

  function WidthOf(block: int, d: Dims): int { if block < d.kNormNum then d.kSizeNorm else d.kSizeLast }

  lemma DivFlat(i: int, j: int, n: int)
    requires 0 <= j < n
    ensures Flat(i, j, n) / n == i && Flat(i, j, n) % n == j
  {
    var x := Flat(i, j, n);
    FlatInjective(x / n, x % n, i, j, n);
  }

  lemma ChannelPlace(c: int, d: Dims, channels: int)
    requires d.kSizeNorm > 0 && d.kNormNum >= 0 && 0 <= d.kSizeLast <= d.kSizeNorm
    requires 0 <= c < channels <= d.kNormNum * d.kSizeNorm + d.kSizeLast
    ensures 0 <= BlockOf(c, d) < Blocks(d) && BlockOf(c, d) == c / d.kSizeNorm
    ensures 0 <= LaneOf(c, d) < WidthOf(BlockOf(c, d), d) <= d.kSizeNorm
    ensures c == Flat(BlockOf(c, d), LaneOf(c, d), d.kSizeNorm)
  {
    var n := d.kSizeNorm;
    if c < d.kNormNum * n {
      if c / n >= d.kNormNum {
        if c / n > d.kNormNum { RowsFollow(d.kNormNum, c / n, n); }
      }
    } else {
      DivFlat(d.kNormNum, c - d.kNormNum * n, n);
    }
  }

  lemma DivUnit(x: int, unit: int)
    requires unit > 0
    ensures (x * unit) / unit == x
  {
    DivFlat(x, 0, unit);
  }

  lemma Units(block: int, k: int, h: int, r: int, lane: int, w: int, width: int, unit: int)
    ensures block * (k * unit) + h * (r * unit) + lane * unit + w * width * unit ==
            (block * k + h * r + (w * width + lane)) * unit
  {
  }

  /** In units the index is nested: block, batch, row, column, lane. */
  lemma IndexIsNested(e: Entry, s: Shape, unit: int, d: Dims, k: int, r: int)
    requires WellFormed(d, s, unit, k, r) && InShape(e, s)
    ensures var (block, lane) := (BlockOf(e.c, d), LaneOf(e.c, d));
            EntryIndex(e, s.batches, unit, d) ==
              Flat(block, Flat(e.batch, Flat(e.h, Flat(e.w, lane, WidthOf(block, d)), r), k / s.batches), k)
  {
    var (block, lane) := (BlockOf(e.c, d), LaneOf(e.c, d));
    var width := WidthOf(block, d);
    ChannelPlace(e.c, d, s.channels);
    DivUnit(k, unit);
    Units(block, k, e.h, r, lane, e.w, width, unit);
    DivUnit(block * k + e.h * r + (e.w * width + lane), unit);
  }

  lemma ProductsGrow(a: int, b: int, n: int)
    requires a <= b && n >= 0
    ensures a * n <= b * n
  {
    assert (b - a) * n >= 0;
  }

  /** Every nested part stays below its step. */
  lemma PartsFit(e: Entry, s: Shape, unit: int, d: Dims, k: int, r: int)
    requires WellFormed(d, s, unit, k, r) && InShape(e, s)
    ensures var (block, lane) := (BlockOf(e.c, d), LaneOf(e.c, d));
            var inRow := Flat(e.w, lane, WidthOf(block, d));
            && 0 <= inRow < r
            && 0 <= Flat(e.h, inRow, r) < k / s.batches
            && 0 <= Flat(e.batch, Flat(e.h, inRow, r), k / s.batches) < k
  {
    var (block, lane) := (BlockOf(e.c, d), LaneOf(e.c, d));
    var (width, share) := (WidthOf(block, d), k / s.batches);
    ChannelPlace(e.c, d, s.channels);
    FlatBelow(e.w, lane, s.width, width);
    ProductsGrow(width, d.kSizeNorm, s.width);
    var inRow := Flat(e.w, lane, width);
    FlatBelow(e.h, inRow, s.height, r);
    FlatBelow(e.batch, Flat(e.h, inRow, r), s.batches, share);
    SharesFit(k, s.batches);
  }

  lemma SharesFit(k: int, batches: int)
    requires batches > 0
    ensures batches * (k / batches) <= k
  {
  }

  lemma IndexInBounds(e: Entry, s: Shape, unit: int, d: Dims, k: int, r: int)
    requires WellFormed(d, s, unit, k, r) && InShape(e, s)
    ensures 0 <= EntryIndex(e, s.batches, unit, d) < Blocks(d) * k
  {
    var block := BlockOf(e.c, d);
    var inBlock := Flat(e.batch, Flat(e.h, Flat(e.w, LaneOf(e.c, d), WidthOf(block, d)), r), k / s.batches);
    ChannelPlace(e.c, d, s.channels);
    IndexIsNested(e, s, unit, d, k, r);
    PartsFit(e, s, unit, d, k, r);
    FlatBelow(block, inBlock, Blocks(d), k);
  }

  /** The entry stored at an index, by peeling off block, batch, row, column and lane. */
  function EntryAt(index: int, batches: int, d: Dims, k: int, r: int): Entry
    requires k > 0 && r > 0 && batches > 0 && k / batches > 0 && d.kSizeNorm > 0
  {
    var block := index / k;
    var share := k / batches;
    var inBatch := index % k % share;
    var width := WidthOf(block, d);
    if width <= 0 then Entry(0, 0, 0, 0)
    else Entry(index % k / share, Flat(block, inBatch % r % width, d.kSizeNorm), inBatch / r, inBatch % r / width)
  }

  lemma StepsPositive(d: Dims, s: Shape, unit: int, k: int, r: int)
    requires WellFormed(d, s, unit, k, r)
    ensures k > 0 && r > 0 && k / s.batches > 0
  {
    ProductsGrow(1, s.width, d.kSizeNorm);
    ProductsGrow(1, s.height, r);
  }

  /** Reading the entry back from its index: the layout loses nothing. */
  lemma EntryRoundTrip(e: Entry, s: Shape, unit: int, d: Dims, k: int, r: int)
    requires WellFormed(d, s, unit, k, r) && InShape(e, s)
    ensures k > 0 && r > 0 && k / s.batches > 0
    ensures EntryAt(EntryIndex(e, s.batches, unit, d), s.batches, d, k, r) == e
  {
    StepsPositive(d, s, unit, k, r);
    var (block, lane) := (BlockOf(e.c, d), LaneOf(e.c, d));
    var (width, share) := (WidthOf(block, d), k / s.batches);
    var inRow := Flat(e.w, lane, width);
    var inBatch := Flat(e.h, inRow, r);
    ChannelPlace(e.c, d, s.channels);
    IndexIsNested(e, s, unit, d, k, r);
    PartsFit(e, s, unit, d, k, r);
    DivFlat(block, Flat(e.batch, inBatch, share), k);
    DivFlat(e.batch, inBatch, share);
    DivFlat(e.h, inRow, r);
    DivFlat(e.w, lane, width);
  }

  /** Different entries never share an index. */
  lemma IndexInjective(e: Entry, f: Entry, s: Shape, unit: int, d: Dims, k: int, r: int)
    requires WellFormed(d, s, unit, k, r) && InShape(e, s) && InShape(f, s)
    requires EntryIndex(e, s.batches, unit, d) == EntryIndex(f, s.batches, unit, d)
    ensures e == f
  {
    EntryRoundTrip(e, s, unit, d, k, r);
    EntryRoundTrip(f, s, unit, d, k, r);
  }

  // ----- gathering a dense tensor

  type Tensor = Entry -> real

  /** The memory stores the tensor in the blocked layout. */
  ghost predicate Stores(data: seq<real>, t: Tensor, s: Shape, unit: int, d: Dims)
    requires unit > 0 && s.batches > 0 && d.kSizeNorm > 0
  {
    forall e | InShape(e, s) ::
      0 <= EntryIndex(e, s.batches, unit, d) < |data| && data[EntryIndex(e, s.batches, unit, d)] == t(e)
  }

  /** Every tensor can be stored. */
  lemma EveryTensorStored(t: Tensor, s: Shape, unit: int, d: Dims, k: int, r: int) returns (data: seq<real>)
    requires WellFormed(d, s, unit, k, r)
    ensures |data| == Blocks(d) * k && Stores(data, t, s, unit, d)
  {
    StepsPositive(d, s, unit, k, r);
    assert Blocks(d) * k >= 0;
    data := seq(Blocks(d) * k, i => t(EntryAt(i, s.batches, d, k, r)));
    forall e | InShape(e, s)
      ensures 0 <= EntryIndex(e, s.batches, unit, d) < |data| && data[EntryIndex(e, s.batches, unit, d)] == t(e)
    {
      IndexInBounds(e, s, unit, d, k, r);
      EntryRoundTrip(e, s, unit, d, k, r);
    }
  }

  /** The rows before `row`, and the first w entries of it, are in place. */
  ghost predicate DenseUpTo(out: seq<real>, t: Tensor, batch: int, s: Shape, row: int, w: int)
  {
    forall c, h, j | 0 <= c < s.channels && 0 <= h < s.height && 0 <= j < s.width &&
                     (Flat(c, h, s.height) < row || (Flat(c, h, s.height) == row && j < w)) ::
      At(out, Flat(Flat(c, h, s.height), j, s.width)) == t(Entry(batch, c, h, j))
  }

  /** The dense channels-first tensor of one batch. */
  ghost predicate Dense(out: seq<real>, t: Tensor, batch: int, s: Shape)
  {
    forall c, h, j | 0 <= c < s.channels && 0 <= h < s.height && 0 <= j < s.width ::
      At(out, Flat(Flat(c, h, s.height), j, s.width)) == t(Entry(batch, c, h, j))
  }

  lemma EntryStored(before: seq<real>, after: seq<real>, t: Tensor, batch: int, s: Shape, c: int, h: int, w: int)
    requires DenseUpTo(before, t, batch, s, Flat(c, h, s.height), w)
    requires 0 <= c < s.channels && 0 <= h < s.height && 0 <= w < s.width
    requires 0 <= Flat(Flat(c, h, s.height), w, s.width) < |before|
    requires after == before[Flat(Flat(c, h, s.height), w, s.width) := t(Entry(batch, c, h, w))]
    ensures DenseUpTo(after, t, batch, s, Flat(c, h, s.height), w + 1)
  {
    FlatApart(Flat(c, h, s.height), w, s.width);
    FlatApart(c, h, s.height);
  }

  lemma DenseDone(out: seq<real>, t: Tensor, batch: int, s: Shape)
    requires DenseUpTo(out, t, batch, s, s.channels * s.height, 0)
    ensures Dense(out, t, batch, s)
  {
    forall c, h | 0 <= c < s.channels && 0 <= h < s.height
      ensures Flat(c, h, s.height) < s.channels * s.height
    {
      FlatBelow(c, h, s.channels, s.height);
    }
  }

  /** The gather loop of one batch. */
  method Gather(data: seq<real>, batch: int, s: Shape, unit: int, d: Dims, ghost k: int, ghost r: int, ghost t: Tensor)
    returns (out: array<real>)
    requires WellFormed(d, s, unit, k, r) && Stores(data, t, s, unit, d) && 0 <= batch < s.batches
    ensures fresh(out) && out.Length == s.channels * s.height * s.width && Dense(out[..], t, batch, s)
  {
    assert s.channels * s.height >= 0;
    assert s.channels * s.height * s.width >= 0;
    out := new real[s.channels * s.height * s.width];
    for c := 0 to s.channels
      invariant DenseUpTo(out[..], t, batch, s, c * s.height, 0)
    {
      for h := 0 to s.height
        invariant DenseUpTo(out[..], t, batch, s, c * s.height + h, 0)
      {
        GatherRow(data, out, batch, s, unit, d, c, h, k, r, t);
      }
      RowsFollow(c, c + 1, s.height);
      assert (c + 1) * s.height == c * s.height + s.height;
    }
    DenseDone(out[..], t, batch, s);
  }

  method GatherRow(data: seq<real>, out: array<real>, batch: int, s: Shape, unit: int, d: Dims, c: int, h: int,
                   ghost k: int, ghost r: int, ghost t: Tensor)
    requires WellFormed(d, s, unit, k, r) && Stores(data, t, s, unit, d) && 0 <= batch < s.batches
    requires 0 <= c < s.channels && 0 <= h < s.height && out.Length == s.channels * s.height * s.width
    requires DenseUpTo(out[..], t, batch, s, c * s.height + h, 0)
    modifies out
    ensures DenseUpTo(out[..], t, batch, s, c * s.height + h + 1, 0)
  {
    for w := 0 to s.width
      invariant DenseUpTo(out[..], t, batch, s, Flat(c, h, s.height), w)
    {
      ghost var before := out[..];
      RowIndex(c, h, w, s.channels, s.height, s.width);
      assert InShape(Entry(batch, c, h, w), s);
      out[c * s.height * s.width + h * s.width + w] := data[EntryIndex(Entry(batch, c, h, w), s.batches, unit, d)];
      EntryStored(before, out[..], t, batch, s, c, h, w);
    }
  }
}
