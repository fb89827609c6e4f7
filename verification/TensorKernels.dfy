/** The array loops behind the keypoint head: softmax, sums along an axis, products with a
    ramp, and the change of tensor layout.  Tensors are flat buffers. */
module TensorKernels {
  import opened Collections
  import opened Sums

  /** The flat index of entry (i, j) in rows of length n. */
  function Flat(i: int, j: int, n: int): int { i * n + j }

  /** Reading a buffer; total, so that it can be summed. */
  function At(s: seq<real>, i: int): real { if 0 <= i < |s| then s[i] else 0.0 }

  lemma RowsFollow(i: int, i': int, n: int)
    requires i < i' && 0 <= n
    ensures i * n + n <= i' * n
  {
    var d := i' - i - 1;
    assert i' * n == i * n + n + d * n;
    assert d * n >= 0;
  }

  lemma FlatBelow(i: int, j: int, m: int, n: int)
    requires 0 <= i < m && 0 <= j < n
    ensures 0 <= Flat(i, j, n) < m * n
  {
    RowsFollow(i, m, n);
    assert i * n >= 0;
  }

  lemma FlatInjective(i: int, j: int, i': int, j': int, n: int)
    requires 0 <= j < n && 0 <= j' < n && Flat(i, j, n) == Flat(i', j', n)
    ensures i == i' && j == j'
  {
    if i > i' { RowsFollow(i', i, n); }
    if i < i' { RowsFollow(i, i', n); }
  }

  lemma FlatApart(i: int, j: int, n: int)
    requires 0 <= j < n
    ensures forall i', j' | 0 <= j' < n && (i' != i || j' != j) :: Flat(i', j', n) != Flat(i, j, n)
  {
    forall i', j' | 0 <= j' < n && Flat(i', j', n) == Flat(i, j, n)
      ensures i' == i && j' == j
    {
      FlatInjective(i', j', i, j, n);
    }
  }

  /** The buffer holds the table v, row by row. */
  ghost predicate Holds(s: seq<real>, m: int, n: int, v: (int, int) -> real)
  {
    forall i, j | 0 <= i < m && 0 <= j < n :: At(s, Flat(i, j, n)) == v(i, j)
  }

  /** The same for the rows before i, and the columns before j of row i. */
  ghost predicate HoldsUpTo(s: seq<real>, n: int, v: (int, int) -> real, i: int, j: int)
  {
    forall i', j' | 0 <= i' <= i && 0 <= j' < n && (i' < i || j' < j) :: At(s, Flat(i', j', n)) == v(i', j')
  }

  lemma Stored(s: seq<real>, t: seq<real>, n: int, v: (int, int) -> real, i: int, j: int)
    requires HoldsUpTo(s, n, v, i, j) && 0 <= i && 0 <= j < n && 0 <= Flat(i, j, n) < |s|
    requires t == s[Flat(i, j, n) := v(i, j)]
    ensures HoldsUpTo(t, n, v, i, j + 1)
  {
    FlatApart(i, j, n);
  }

  lemma {:induction false} HoldsUnique(s: seq<real>, t: seq<real>, m: int, n: int, v: (int, int) -> real)
    requires 0 <= m && 0 < n && |s| == |t| == m * n && Holds(s, m, n, v) && Holds(t, m, n, v)
    ensures s == t
  {
    forall k | 0 <= k < |s|
      ensures s[k] == t[k]
    {
      var (i, j) := (k / n, k % n);
      assert k == Flat(i, j, n);
      if m < i { RowsFollow(m, i, n); }
      assert At(s, Flat(i, j, n)) == At(t, Flat(i, j, n));
    }
  }

  // ----- sums along an axis

  ghost function RowSum(s: seq<real>, h: int, w: int): (int, int) -> real
  {
    (c: int, i: int) => Sum(if w < 0 then 0 else w, k => At(s, Flat(Flat(c, i, h), k, w)))
  }

  ghost function ColSum(s: seq<real>, h: int, w: int): (int, int) -> real
  {
    (c: int, j: int) => Sum(if h < 0 then 0 else h, k => At(s, Flat(Flat(c, k, h), j, w)))
  }

  /** The inner loop of the two reductions. */
  method AddUp(s: seq<real>, base: int, stride: int, n: nat) returns (sum: real)
    requires forall k | 0 <= k < n :: 0 <= base + k * stride < |s|
    ensures sum == Sum(n, k => At(s, base + k * stride))
  {
    sum := 0.0;
    for k := 0 to n
      invariant sum == Sum(k, k => At(s, base + k * stride))
    {
      sum := sum + s[base + k * stride];
    }
  }

  lemma RowIndex(c: int, i: int, k: int, channels: int, h: int, w: int)
    requires 0 <= c < channels && 0 <= i < h && 0 <= k < w
    ensures c * h * w + i * w + k == Flat(Flat(c, i, h), k, w)
    ensures 0 <= Flat(Flat(c, i, h), k, w) < channels * h * w
  {
    FlatBelow(c, i, channels, h);
    FlatBelow(Flat(c, i, h), k, channels * h, w);
    assert (c * h + i) * w == c * h * w + i * w;
  }

  method ReduceSumW(input: seq<real>, output: array<real>, channels: nat, height: nat, width: nat)
    requires |input| == channels * height * width && output.Length == channels * height
    modifies output
    ensures Holds(output[..], channels, height, RowSum(input, height, width))
  {
    ghost var v := RowSum(input, height, width);
    for c := 0 to channels
      invariant HoldsUpTo(output[..], height, v, c, 0)
    {
      for h := 0 to height
        invariant HoldsUpTo(output[..], height, v, c, h)
      {
        ghost var before := output[..];
        var base := c * height * width + h * width;
        forall k | 0 <= k < width
          ensures base + k * 1 == Flat(Flat(c, h, height), k, width) && 0 <= base + k * 1 < |input|
        {
          RowIndex(c, h, k, channels, height, width);
        }
        var sum := AddUp(input, base, 1, width);
        SumEqual(width, k => At(input, base + k * 1), k => At(input, Flat(Flat(c, h, height), k, width)));
        FlatBelow(c, h, channels, height);
        output[c * height + h] := sum;
        Stored(before, output[..], height, v, c, h);
      }
    }
  }

  lemma ColIndex(c: int, k: int, j: int, channels: int, h: int, w: int)
    requires 0 <= c < channels && 0 <= k < h && 0 <= j < w
    ensures c * h * w + j + k * w == Flat(Flat(c, k, h), j, w)
    ensures 0 <= Flat(Flat(c, k, h), j, w) < channels * h * w
  {
    RowIndex(c, k, j, channels, h, w);
  }

  method ReduceSumH(input: seq<real>, output: array<real>, channels: nat, height: nat, width: nat)
    requires |input| == channels * height * width && output.Length == channels * width
    modifies output
    ensures Holds(output[..], channels, width, ColSum(input, height, width))
  {
    ghost var v := ColSum(input, height, width);
    for c := 0 to channels
      invariant HoldsUpTo(output[..], width, v, c, 0)
    {
      for w := 0 to width
        invariant HoldsUpTo(output[..], width, v, c, w)
      {
        ghost var before := output[..];
        var base := c * height * width + w;
        forall k | 0 <= k < height
          ensures base + k * width == Flat(Flat(c, k, height), w, width) && 0 <= base + k * width < |input|
        {
          ColIndex(c, k, w, channels, height, width);
        }
        var sum := AddUp(input, base, width, height);
        SumEqual(height, k => At(input, base + k * width), k => At(input, Flat(Flat(c, k, height), w, width)));
        FlatBelow(c, w, channels, width);
        output[c * width + w] := sum;
        Stored(before, output[..], width, v, c, w);
      }
    }
  }

  // ----- softmax

  const FLT_MAX := 340282346638528859811704183484516925440.0

  /** The greatest of the first k entries of a lane, from the least float on. */
  function Peak(s: seq<real>, base: int, k: nat): real
  {
    if k == 0 then -FLT_MAX
    else var m := Peak(s, base, k - 1); if m < At(s, base + k - 1) then At(s, base + k - 1) else m
  }

  /** Entry i of the lane that begins at `base`. */
  function Lane(s: seq<real>, base: int, i: int): real { At(s, base + i) }

  /** It is the greatest of them, unless all lie below the least float. */
  lemma {:induction false} PeakIsGreatest(s: seq<real>, base: int, k: nat)
    ensures Peak(s, base, k) >= -FLT_MAX && forall i | 0 <= i < k :: Lane(s, base, i) <= Peak(s, base, k)
    ensures Peak(s, base, k) == -FLT_MAX || exists i :: 0 <= i < k && Lane(s, base, i) == Peak(s, base, k)
  {
    if k > 0 {
      PeakIsGreatest(s, base, k - 1);
      var m := Peak(s, base, k - 1);
      if m < At(s, base + k - 1) {
        assert Lane(s, base, k - 1) == Peak(s, base, k);
      } else if m != -FLT_MAX {
        var i :| 0 <= i < k - 1 && Lane(s, base, i) == m;
        assert Lane(s, base, i) == Peak(s, base, k);
      }
    }
  }

  ghost predicate IsIn(v: real, t: seq<real>, base: int, n: nat) { exists j :: 0 <= j < n && Lane(t, base, j) == v }

  ghost predicate EachIn(s: seq<real>, t: seq<real>, base: int, n: nat)
  {
    forall i | 0 <= i < n :: IsIn(Lane(s, base, i), t, base, n)
  }

  lemma PeakAtMost(s: seq<real>, t: seq<real>, base: int, n: nat)
    requires EachIn(s, t, base, n)
    ensures Peak(s, base, n) <= Peak(t, base, n)
  {
    PeakIsGreatest(s, base, n);
    PeakIsGreatest(t, base, n);
    if Peak(s, base, n) != -FLT_MAX {
      var i :| 0 <= i < n && Lane(s, base, i) == Peak(s, base, n);
      assert IsIn(Lane(s, base, i), t, base, n);
    }
  }

  ghost function Weight(exp: real -> real, s: seq<real>, base: int, n: nat): int -> real
  {
    (i: int) => exp(At(s, base + i) - Peak(s, base, n))
  }

  /** Lane c of the softmax of a buffer of lanes of length n. */
  ghost function Softmax(exp: real -> real, s: seq<real>, n: nat): (int, int) -> real
  {
    (c: int, i: int) =>
      var total := Sum(n, Weight(exp, s, c * n, n));
      if total == 0.0 then 0.0 else Weight(exp, s, c * n, n)(i) / total
  }

  /** Only entries of the lane change. */
  ghost predicate SameOutside(s: seq<real>, t: seq<real>, base: int, n: nat)
  {
    |s| == |t| && forall k | 0 <= k < |s| && !(base <= k < base + n) :: t[k] == s[k]
  }

  /** The first two loops: the peak, then the exponentials with their sum. */
  method ExponentialLane(input: seq<real>, output: array<real>, base: nat, n: nat, exp: real -> real)
    returns (sum: real)
    requires base + n <= |input| == output.Length
    modifies output
    ensures SameOutside(old(output[..]), output[..], base, n)
    ensures sum == Sum(n, Weight(exp, input, base, n))
    ensures forall k | 0 <= k < n :: output[base + k] == Weight(exp, input, base, n)(k)
  {
    ghost var was := output[..];
    var max := -FLT_MAX;
    for i := 0 to n
      invariant max == Peak(input, base, i)
    {
      max := if max < input[base + i] then input[base + i] else max;
    }
    ghost var weight := Weight(exp, input, base, n);
    sum := 0.0;
    for i := 0 to n
      invariant sum == Sum(i, weight) && SameOutside(was, output[..], base, n)
      invariant forall k | 0 <= k < i :: output[base + k] == weight(k)
    {
      assert weight(i) == exp(At(input, base + i) - Peak(input, base, n));
      output[base + i] := exp(input[base + i] - max);
      sum := sum + output[base + i];
    }
  }

  /** The third loop. */
  method DivideLane(output: array<real>, base: nat, n: nat, sum: real)
    requires base + n <= output.Length && sum != 0.0
    modifies output
    ensures SameOutside(old(output[..]), output[..], base, n)
    ensures forall k | base <= k < base + n :: output[k] == old(output[k]) / sum
  {
    ghost var was := output[..];
    for i := 0 to n
      invariant SameOutside(was, output[..], base, n)
      invariant forall k | base <= k < base + i :: output[k] == was[k] / sum
      invariant forall k | base + i <= k < base + n :: output[k] == was[k]
    {
      output[base + i] := output[base + i] / sum;
    }
  }

  lemma SoftmaxValue(exp: real -> real, s: seq<real>, n: nat, c: int, base: int, i: int)
    requires base == c * n && n > 0 && forall x :: exp(x) > 0.0
    ensures Sum(n, Weight(exp, s, base, n)) > 0.0
    ensures Softmax(exp, s, n)(c, i) == Weight(exp, s, base, n)(i) / Sum(n, Weight(exp, s, base, n))
  {
    SumPositive(n, Weight(exp, s, base, n));
  }

  method SoftmaxLane(input: seq<real>, output: array<real>, base: nat, n: nat, exp: real -> real, ghost c: nat)
    requires base == c * n && base + n <= |input| == output.Length && n > 0 && forall x :: exp(x) > 0.0
    modifies output
    ensures SameOutside(old(output[..]), output[..], base, n)
    ensures forall k | base <= k < base + n :: output[k] == Softmax(exp, input, n)(c, k - base)
  {
    var sum := ExponentialLane(input, output, base, n, exp);
    ghost var weights := output[..];
    SoftmaxValue(exp, input, n, c, base, 0);
    DivideLane(output, base, n, sum);
    forall k | base <= k < base + n
      ensures output[k] == Softmax(exp, input, n)(c, k - base)
    {
      SoftmaxValue(exp, input, n, c, base, k - base);
      assert weights[base + (k - base)] == Weight(exp, input, base, n)(k - base);
    }
  }

  lemma LaneDone(s: seq<real>, t: seq<real>, n: nat, v: (int, int) -> real, c: nat)
    requires HoldsUpTo(s, n, v, c, 0) && SameOutside(s, t, c * n, n) && c * n + n <= |s|
    requires forall i | 0 <= i < n :: At(t, Flat(c, i, n)) == v(c, i)
    ensures HoldsUpTo(t, n, v, c + 1, 0)
  {
    forall i', j' | 0 <= i' < c && 0 <= j' < n
      ensures At(t, Flat(i', j', n)) == v(i', j')
    {
      RowsFollow(i', c, n);
      FlatBelow(i', j', c, n);
      assert At(s, Flat(i', j', n)) == v(i', j');
    }
  }

  method SoftmaxLastDim(input: seq<real>, output: array<real>, lanes: nat, n: nat, exp: real -> real)
    requires |input| == output.Length == lanes * n && forall x :: exp(x) > 0.0
    modifies output
    ensures Holds(output[..], lanes, n, Softmax(exp, input, n))
  {
    ghost var v := Softmax(exp, input, n);
    for c := 0 to lanes
      invariant HoldsUpTo(output[..], n, v, c, 0)
    {
      ghost var before := output[..];
      RowsFollow(c, lanes, n);
      assert c * n >= 0;
      if n > 0 {
        SoftmaxLane(input, output, c * n, n, exp, c);
      }
      LaneDone(before, output[..], n, v, c);
    }
  }

  lemma TimesReciprocal(a: real, b: real)
    requires b != 0.0
    ensures Times(a, 1.0 / b) == a / b
  {
  }

  lemma SharesSumToOne(n: nat, weight: int -> real, total: real)
    requires total == Sum(n, weight) != 0.0
    ensures Sum(n, i => weight(i) / total) == 1.0
  {
    forall i
      ensures Times(weight(i), 1.0 / total) == weight(i) / total
    {
      TimesReciprocal(weight(i), total);
    }
    SumScales(n, weight, 1.0 / total);
    SumEqual(n, i => Times(weight(i), 1.0 / total), i => weight(i) / total);
    TimesReciprocal(total, total);
  }

  /** The softmax of a lane is a probability distribution. */
  lemma SoftmaxIsDistribution(exp: real -> real, s: seq<real>, n: nat, c: int)
    requires n > 0 && forall x :: exp(x) > 0.0
    ensures forall i :: Softmax(exp, s, n)(c, i) > 0.0
    ensures Sum(n, i => Softmax(exp, s, n)(c, i)) == 1.0
  {
    var weight := Weight(exp, s, c * n, n);
    var total := Sum(n, weight);
    SumPositive(n, weight);
    SharesSumToOne(n, weight, total);
    var (share, softmax) := ((i: int) => weight(i) / total, (i: int) => Softmax(exp, s, n)(c, i));
    forall i
      ensures softmax(i) == share(i)
    {
      SoftmaxValue(exp, s, n, c, c * n, i);
    }
    SumEqual(n, i => weight(i) / total, share);
    SumEqual(n, share, softmax);
    SumEqual(n, softmax, i => Softmax(exp, s, n)(c, i));
  }

  ghost function Exponential(exp: real -> real, s: seq<real>, base: int): int -> real
  {
    (i: int) => exp(At(s, base + i))
  }

  lemma CommonFactor(a: real, b: real, e: real)
    requires b != 0.0 && e != 0.0
    ensures Times(b, e) != 0.0 && Times(a, e) / Times(b, e) == a / b
  {
    var q := a / b;
    assert a == q * b;
    assert Times(a, e) == q * Times(b, e);
  }

  /** Subtracting the peak first, which keeps the exponentials small, does not change the
      result when exp turns sums into products. */
  lemma PeakCancels(exp: real -> real, s: seq<real>, n: nat, c: int, i: int)
    requires n > 0 && (forall x :: exp(x) > 0.0) && forall x, y :: exp(x + y) == Times(exp(x), exp(y))
    ensures var plain := Exponential(exp, s, c * n);
            Sum(n, plain) > 0.0 && Softmax(exp, s, n)(c, i) == plain(i) / Sum(n, plain)
  {
    var base := c * n;
    var (plain, weight) := (Exponential(exp, s, base), Weight(exp, s, base, n));
    var peak := Peak(s, base, n);
    forall j
      ensures plain(j) == Times(weight(j), exp(peak))
    {
      assert At(s, base + j) == (At(s, base + j) - peak) + peak;
    }
    SumPositive(n, plain);
    SoftmaxValue(exp, s, n, c, base, i);
    SumScales(n, weight, exp(peak));
    SumEqual(n, plain, j => Times(weight(j), exp(peak)));
    CommonFactor(weight(i), Sum(n, weight), exp(peak));
  }

  // ----- products

  method ElementwiseMult(a: seq<real>, b: seq<real>, output: array<real>, base: nat, n: nat)
    requires n <= |b| && base + n <= |a| == output.Length
    modifies output
    ensures SameOutside(old(output[..]), output[..], base, n)
    ensures forall i | 0 <= i < n :: output[base + i] == Times(a[base + i], b[i])
  {
    ghost var was := output[..];
    for i := 0 to n
      invariant SameOutside(was, output[..], base, n)
      invariant forall k | 0 <= k < i :: output[base + k] == Times(a[base + k], b[k])
    {
      output[base + i] := a[base + i] * b[i];
    }
  }

  ghost function Product(s: seq<real>, coeffs: seq<real>, n: int): (int, int) -> real
  {
    (c: int, i: int) => Times(At(s, Flat(c, i, n)), At(coeffs, i))
  }

  /** Multiply every row by the same coefficients. */
  method ElementwiseMultHm(input: seq<real>, coeffs: seq<real>, output: array<real>, channels: nat, n: nat)
    requires |input| == output.Length == channels * n && |coeffs| == n
    modifies output
    ensures Holds(output[..], channels, n, Product(input, coeffs, n))
  {
    ghost var v := Product(input, coeffs, n);
    for c := 0 to channels
      invariant HoldsUpTo(output[..], n, v, c, 0)
    {
      ghost var before := output[..];
      RowsFollow(c, channels, n);
      assert c * n >= 0;
      ElementwiseMult(input, coeffs, output, c * n, n);
      LaneDone(before, output[..], n, v, c);
    }
  }

  /** The number of steps between the points; one point alone cannot include both ends. */
  function Steps(n: nat, endpoint: bool): int { if endpoint then n - 1 else n }

  lemma StepsReach(start: real, stop: real, m: real)
    requires m != 0.0
    ensures start + m * ((stop - start) / m) == stop
  {
    assert m * ((stop - start) / m) == stop - start;
  }

  /** Equally spaced points from start to stop, which is the last one or is left out.  One point
      that should be both ends is the quotient of something by zero, times zero: not a number. */
  method Linspace(start: real, stop: real, n: nat, endpoint: bool) returns (points: Option<seq<real>>)
    ensures points.None? <==> endpoint && n == 1
    ensures points.Some? ==> |points.value| == n
    ensures forall i | 0 <= i < n && points.Some? ::
              && Steps(n, endpoint) != 0
              && points.value[i] == start + i as real * ((stop - start) / Steps(n, endpoint) as real)
    ensures endpoint && n > 1 ==> points.value[0] == start && points.value[n - 1] == stop
  {
    if endpoint && n == 1 {
      return None;
    }
    var list := [];
    for i := 0 to n
      invariant |list| == i
      invariant forall k | 0 <= k < i :: list[k] == start + k as real * ((stop - start) / Steps(n, endpoint) as real)
    {
      list := list + [start + i as real * ((stop - start) / Steps(n, endpoint) as real)];
    }
    if endpoint && n > 1 {
      StepsReach(start, stop, (n - 1) as real);
      list := list[n - 1 := stop];
    }
    points := Some(list);
  }

  // ----- layout

  /** Row r of the result is channel r % channels of batch r / channels. */
  ghost function Transposed(s: seq<real>, channels: int, area: int): (int, int) -> real
  {
    (r: int, i: int) => if channels <= 0 then 0.0 else At(s, Flat(Flat(r / channels, i, area), r % channels, channels))
  }

  /** The rows before `first` are done, and in the next `channels` rows the columns before i and
      the first c entries of column i. */
  ghost predicate TransposedUpTo(t: seq<real>, v: (int, int) -> real, first: int, channels: int, area: int, i: int,
                                 c: int)
  {
    forall r, j | 0 <= r < first + channels && 0 <= j < area && (r < first || j < i || (j == i && r < first + c)) ::
      At(t, Flat(r, j, area)) == v(r, j)
  }

  lemma TransposedStored(t: seq<real>, u: seq<real>, v: (int, int) -> real, first: int, channels: int, area: int,
                         i: int, c: int)
    requires TransposedUpTo(t, v, first, channels, area, i, c) && 0 <= c < channels && 0 <= i < area && 0 <= first
    requires 0 <= Flat(first + c, i, area) < |t| && u == t[Flat(first + c, i, area) := v(first + c, i)]
    ensures TransposedUpTo(u, v, first, channels, area, i, c + 1)
  {
    FlatApart(first + c, i, area);
  }

  lemma RowOfBatch(bi: int, c: int, channels: int)
    requires 0 <= c < channels
    ensures (bi * channels + c) / channels == bi && (bi * channels + c) % channels == c
  {
    var r := bi * channels + c;
    FlatInjective(r / channels, r % channels, bi, c, channels);
  }

  /** From channels last to channels first, batch by batch. */
  method NHWC2NCHW(source: seq<real>, dest: array<real>, batches: nat, channels: nat, area: nat)
    requires |source| == batches * area * channels && dest.Length == batches * channels * area
    modifies dest
    ensures Holds(dest[..], batches * channels, area, Transposed(source, channels, area))
  {
    ghost var v := Transposed(source, channels, area);
    for bi := 0 to batches
      invariant TransposedUpTo(dest[..], v, bi * channels, 0, area, 0, 0)
    {
      NHWC2NCHWBatch(source, dest, batches, channels, area, bi);
    }
  }

  /** The loops over one batch. */
  method NHWC2NCHWBatch(source: seq<real>, dest: array<real>, batches: nat, channels: nat, area: nat, bi: nat)
    requires bi < batches && |source| == batches * area * channels && dest.Length == batches * channels * area
    requires TransposedUpTo(dest[..], Transposed(source, channels, area), bi * channels, 0, area, 0, 0)
    modifies dest
    ensures TransposedUpTo(dest[..], Transposed(source, channels, area), (bi + 1) * channels, 0, area, 0, 0)
  {
    ghost var v := Transposed(source, channels, area);
    ghost var first := bi * channels;
    NextBatch(bi, channels);
    for i := 0 to area
      invariant TransposedUpTo(dest[..], v, first, channels, area, i, 0)
    {
      for c := 0 to channels
        invariant TransposedUpTo(dest[..], v, first, channels, area, i, c)
      {
        ghost var before := dest[..];
        BatchIndex(bi, i, c, batches, channels, area);
        dest[bi * (channels * area) + i + c * area] := source[bi * (channels * area) + i * channels + c];
        TransposedStored(before, dest[..], v, first, channels, area, i, c);
      }
    }
  }

  lemma NextBatch(bi: nat, channels: nat)
    ensures bi * channels >= 0 && (bi + 1) * channels == bi * channels + channels
  {
  }

  /** Where an entry is read from and stored to. */
  lemma BatchIndex(bi: int, i: int, c: int, batches: int, channels: int, area: int)
    requires 0 <= bi < batches && 0 <= i < area && 0 <= c < channels
    ensures bi * (channels * area) + i * channels + c == Flat(Flat(bi, i, area), c, channels)
    ensures 0 <= Flat(Flat(bi, i, area), c, channels) < batches * area * channels
    ensures bi * (channels * area) + i + c * area == Flat(bi * channels + c, i, area)
    ensures 0 <= Flat(bi * channels + c, i, area) < batches * channels * area
    ensures (bi * channels + c) / channels == bi && (bi * channels + c) % channels == c
  {
    RowIndex(bi, i, c, batches, area, channels);
    RowIndex(bi, c, i, batches, channels, area);
    RowOfBatch(bi, c, channels);
    ProductOfThree(bi, channels, area);
  }

  lemma ProductOfThree(a: int, b: int, c: int)
    ensures a * (b * c) == a * c * b == a * b * c
  {
  }
}
