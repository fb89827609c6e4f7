/** From the coordinates of the network input back to the picture.  The picture is stretched to
    the size of the network input, each axis by its own ratio, and boxes are moved back as if it
    had been scaled by the smaller ratio and padded. */
module PictureScale {
  import opened BoxOverlap
  import opened Sums

  /** Width and height of the network input and of the picture. */
  datatype Sizes = Sizes(netW: int, netH: int, picW: int, picH: int)

  predicate Positive(s: Sizes) { s.netW > 0 && s.netH > 0 && s.picW > 0 && s.picH > 0 }

  /** Rounding half away from zero. */
  function Nearest(x: real): int { if x >= 0.0 then (x + 0.5).Floor else -((0.5 - x).Floor) }

  function Round(x: real): real { Nearest(x) as real }

  /** Rounding gives a nearest whole number, on a tie the one further from zero. */
  lemma RoundNearest(x: real)
    ensures x >= 0.0 ==> x - 0.5 < Round(x) <= x + 0.5
    ensures x < 0.0 ==> x - 0.5 <= Round(x) < x + 0.5
  {
  }

  lemma CloseWholes(m: int, n: int)
    requires n as real - 1.0 < m as real < n as real + 1.0
    ensures m == n
  {
  }

  lemma RoundsTo(v: real, n: int)
    requires n as real - 0.5 < v < n as real + 0.5
    ensures Round(v) == n as real
  {
    RoundNearest(v);
    CloseWholes(Nearest(v), n);
  }

  function Ratio(net: int, pic: int): real
    requires pic > 0
  {
    net as real / pic as real
  }

  /** The scale and the padding that moving back assumes. */
  datatype Letterbox = Letterbox(padX: real, padY: real, ratio: real)

  function Pad(net: int, pic: int, ratio: real): real { (net as real - Times(pic as real, ratio)) / 2.0 }

  function Fit(s: Sizes): (l: Letterbox)
    requires Positive(s)
    ensures l.ratio > 0.0
  {
    RatioPositive(s.netW, s.picW);
    RatioPositive(s.netH, s.picH);
    var ratio := Min(Ratio(s.netW, s.picW), Ratio(s.netH, s.picH));
    Letterbox(Pad(s.netW, s.picW, ratio), Pad(s.netH, s.picH, ratio), ratio)
  }

  lemma RatioPositive(net: int, pic: int)
    requires net > 0 && pic > 0
    ensures Ratio(net, pic) > 0.0 && Times(pic as real, Ratio(net, pic)) == net as real
  {
    assert Ratio(net, pic) * pic as real == net as real;
  }

  function Unscaled(x: real, ratio: real): real
    requires ratio != 0.0
  {
    Round(x / ratio)
  }

  /** A box of the network input, in the picture. */
  function ToPicture(r: Rect, l: Letterbox): Rect
    requires l.ratio != 0.0
  {
    Rect(Unscaled(r.x - l.padX, l.ratio), Unscaled(r.y - l.padY, l.ratio), Unscaled(r.w, l.ratio),
         Unscaled(r.h, l.ratio))
  }

  /** A box of the picture, as the network sees it in the stretched picture. */
  function Stretched(r: Rect, s: Sizes): Rect
    requires Positive(s)
  {
    var (a, b) := (Ratio(s.netW, s.picW), Ratio(s.netH, s.picH));
    Rect(Times(r.x, a), Times(r.y, b), Times(r.w, a), Times(r.h, b))
  }

  // ----- one axis

  /** Moving back an extent n that was stretched by a. */
  function Extent(n: int, a: real, ratio: real): real
    requires ratio != 0.0
  {
    Unscaled(Times(n as real, a), ratio)
  }

  function Position(n: int, a: real, pad: real, ratio: real): real
    requires ratio != 0.0
  {
    Unscaled(Times(n as real, a) - pad, ratio)
  }

  lemma QuotientOfProduct(x: real, a: real, m: real)
    requires m > 0.0
    ensures Times(x, a) / m == Times(x, a / m)
  {
    assert a / m * m == a;
    assert Times(x, a / m) * m == Times(x, a);
  }

  lemma PartOfGap(n: int, pic: int, gap: real)
    requires 0 <= n <= pic && gap >= 0.0
    ensures 0.0 <= Times(n as real, gap) <= Times(pic as real, gap)
  {
    assert Times(pic as real, gap) - Times(n as real, gap) == Times(pic as real - n as real, gap);
    assert Times(pic as real - n as real, gap) >= 0.0;
  }

  lemma OneMore(x: real, q: real)
    ensures Times(x, q) == x + Times(x, q - 1.0)
  {
  }

  /** If the whole width is off by less than half a pixel, every extent comes back. */
  lemma ExtentReturns(n: int, pic: int, a: real, m: real)
    requires 0 <= n <= pic && 0.0 < m <= a && Times(pic as real, a / m - 1.0) < 0.5
    ensures Extent(n, a, m) == n as real
  {
    QuotientOfProduct(n as real, a, m);
    OneMore(n as real, a / m);
    AtLeastOne(a, m);
    PartOfGap(n, pic, a / m - 1.0);
    RoundsTo(Times(n as real, a) / m, n);
  }

  lemma AtLeastOne(a: real, m: real)
    requires 0.0 < m <= a
    ensures a / m >= 1.0 && (a == m ==> a / m == 1.0)
  {
    assert a / m * m == a;
  }

  /** The whole width does not come back if it is off by half a pixel or more. */
  lemma WholeExtentLost(pic: int, a: real, m: real)
    requires pic > 0 && 0.0 < m <= a && Times(pic as real, a / m - 1.0) >= 0.5
    ensures Extent(pic, a, m) != pic as real
  {
    QuotientOfProduct(pic as real, a, m);
    OneMore(pic as real, a / m);
    RoundNearest(Times(pic as real, a) / m);
  }

  /** Where a position lands: it is pushed away from the middle of the picture. */
  lemma PositionLands(n: int, pic: int, a: real, pad: real, m: real)
    requires 0.0 < m && pad == (Times(pic as real, a) - Times(pic as real, m)) / 2.0
    ensures (Times(n as real, a) - pad) / m
         == n as real + Times(n as real, a / m - 1.0) - Times(pic as real, a / m - 1.0) / 2.0
  {
    var (x, p, q) := (n as real, pic as real, a / m);
    assert q * m == a;
    var v := x + Times(x, q - 1.0) - Times(p, q - 1.0) / 2.0;
    assert v * m == Times(x, a) - pad;
  }

  lemma PositionReturns(n: int, pic: int, a: real, pad: real, m: real)
    requires 0 <= n <= pic && 0.0 < m <= a && pad == (Times(pic as real, a) - Times(pic as real, m)) / 2.0
    requires Times(pic as real, a / m - 1.0) < 0.5
    ensures Position(n, a, pad, m) == n as real
  {
    PositionLands(n, pic, a, pad, m);
    AtLeastOne(a, m);
    PartOfGap(n, pic, a / m - 1.0);
    RoundsTo((Times(n as real, a) - pad) / m, n);
  }

  // ----- both axes

  function Whole(x: int, y: int, w: int, h: int): Rect { Rect(x as real, y as real, w as real, h as real) }

  predicate InPicture(x: int, y: int, w: int, h: int, s: Sizes)
  {
    0 <= x && 0 <= y && 0 <= w && 0 <= h && x + w <= s.picW && y + h <= s.picH
  }

  ghost predicate Returns(x: int, y: int, w: int, h: int, s: Sizes)
    requires Positive(s)
  {
    ToPicture(Stretched(Whole(x, y, w, h), s), Fit(s)) == Whole(x, y, w, h)
  }

  /** Every box of whole pixels in the picture comes back as it was. */
  ghost predicate AllReturn(s: Sizes)
    requires Positive(s)
  {
    forall x, y, w, h | InPicture(x, y, w, h, s) :: Returns(x, y, w, h, s)
  }

  /** How far the whole of an axis is off, in pixels of the picture. */
  function Excess(net: int, pic: int, ratio: real): real
    requires pic > 0 && ratio > 0.0
  {
    Times(pic as real, Ratio(net, pic) / ratio - 1.0)
  }

  lemma AxisReturns(n: int, net: int, pic: int, ratio: real)
    requires net > 0 && 0 <= n <= pic && pic > 0 && 0.0 < ratio <= Ratio(net, pic) && Excess(net, pic, ratio) < 0.5
    ensures Extent(n, Ratio(net, pic), ratio) == n as real
    ensures Position(n, Ratio(net, pic), Pad(net, pic, ratio), ratio) == n as real
  {
    RatioPositive(net, pic);
    ExtentReturns(n, pic, Ratio(net, pic), ratio);
    PositionReturns(n, pic, Ratio(net, pic), Pad(net, pic, ratio), ratio);
  }

  lemma AllReturnIffExcess(s: Sizes)
    requires Positive(s)
    ensures AllReturn(s) <==> Excess(s.netW, s.picW, Fit(s).ratio) < 0.5 && Excess(s.netH, s.picH, Fit(s).ratio) < 0.5
  {
    var m := Fit(s).ratio;
    if Excess(s.netW, s.picW, m) < 0.5 && Excess(s.netH, s.picH, m) < 0.5 {
      forall x, y, w, h | InPicture(x, y, w, h, s)
        ensures Returns(x, y, w, h, s)
      {
        AxisReturns(x, s.netW, s.picW, m);
        AxisReturns(w, s.netW, s.picW, m);
        AxisReturns(y, s.netH, s.picH, m);
        AxisReturns(h, s.netH, s.picH, m);
      }
    } else {
      WholePictureLost(s);
      assert InPicture(0, 0, s.picW, s.picH, s);
    }
  }

  /** Then the box of the whole picture is a box that does not come back. */
  lemma WholePictureLost(s: Sizes)
    requires Positive(s)
    requires Excess(s.netW, s.picW, Fit(s).ratio) >= 0.5 || Excess(s.netH, s.picH, Fit(s).ratio) >= 0.5
    ensures !Returns(0, 0, s.picW, s.picH, s)
  {
    var m := Fit(s).ratio;
    if Excess(s.netW, s.picW, m) >= 0.5 {
      WholeExtentLost(s.picW, Ratio(s.netW, s.picW), m);
    } else {
      WholeExtentLost(s.picH, Ratio(s.netH, s.picH), m);
    }
  }

  /** The excess of an axis over the ratio of the other one, in sizes. */
  lemma ExcessInSizes(net: int, pic: int, otherNet: int, otherPic: int)
    requires net > 0 && pic > 0 && otherNet > 0 && otherPic > 0
    ensures Ratio(otherNet, otherPic) > 0.0
    ensures Excess(net, pic, Ratio(otherNet, otherPic)) < 0.5 <==> 2 * (net * otherPic - otherNet * pic) < otherNet
    ensures Ratio(net, pic) <= Ratio(otherNet, otherPic) <==> net * otherPic <= otherNet * pic
  {
    RatioPositive(net, pic);
    RatioPositive(otherNet, otherPic);
    var (a, m) := (Ratio(net, pic), Ratio(otherNet, otherPic));
    SizesOrder(net as real, pic as real, otherNet as real, otherPic as real, a, m);
    ExcessReal(net as real, pic as real, otherNet as real, otherPic as real, a, m);
    ProductCast(net, otherPic);
    ProductCast(otherNet, pic);
  }

  lemma ProductCast(a: int, b: int)
    ensures (a * b) as real == Times(a as real, b as real)
  {
  }

  lemma SizesOrder(n: real, p: real, n': real, p': real, a: real, m: real)
    requires p > 0.0 && p' > 0.0 && Times(p, a) == n && Times(p', m) == n'
    ensures a <= m <==> Times(n, p') <= Times(n', p)
  {
    var w := p * p';
    assert w > 0.0;
    assert Times(n', p) - Times(n, p') == (m - a) * w;
    if a <= m { assert (m - a) * w >= 0.0; } else { assert (m - a) * w < 0.0; }
  }

  lemma ExcessReal(n: real, p: real, n': real, p': real, a: real, m: real)
    requires p > 0.0 && p' > 0.0 && n' > 0.0 && m > 0.0 && Times(p, a) == n && Times(p', m) == n'
    ensures Times(p, a / m - 1.0) < 0.5 <==> 2.0 * (Times(n, p') - Times(n', p)) < n'
  {
    var e := Times(p, a / m - 1.0);
    assert a / m * m == a;
    assert e * m == n - p * m;
    assert Times(e, n') == Times(n, p') - Times(n', p) by {
      assert e * n' == (e * m) * p';
    }
    if e < 0.5 { assert (0.5 - e) * n' > 0.0; } else { assert (0.5 - e) * n' <= 0.0; }
    assert (0.5 - e) * n' == 0.5 * n' - Times(e, n');
  }

  /** The two ratios are so close that the picture is off by less than half a pixel. */
  predicate RatiosClose(s: Sizes)
  {
    && 2 * (s.netW * s.picH - s.netH * s.picW) < s.netH
    && 2 * (s.netH * s.picW - s.netW * s.picH) < s.netW
  }

  /** Boxes of whole pixels all come back exactly if the ratios of the two axes are that close;
      otherwise already the box of the whole picture does not. */
  lemma AllReturnIffRatiosClose(s: Sizes)
    requires Positive(s)
    ensures AllReturn(s) <==> RatiosClose(s)
    ensures !RatiosClose(s) ==> InPicture(0, 0, s.picW, s.picH, s) && !Returns(0, 0, s.picW, s.picH, s)
  {
    ExcessInSizes(s.netW, s.picW, s.netH, s.picH);
    ExcessInSizes(s.netH, s.picH, s.netW, s.picW);
    NoExcess(s.netW, s.picW);
    NoExcess(s.netH, s.picH);
    AllReturnIffExcess(s);
    if !RatiosClose(s) { WholePictureLost(s); }
  }

  lemma NoExcess(net: int, pic: int)
    requires net > 0 && pic > 0
    ensures Ratio(net, pic) > 0.0 && Excess(net, pic, Ratio(net, pic)) == 0.0
  {
    RatioPositive(net, pic);
    AtLeastOne(Ratio(net, pic), Ratio(net, pic));
  }

  /** Unequal ratios may be close enough, and need not be. */
  lemma CloseAndFar()
    ensures AllReturn(Sizes(320, 20, 1601, 100)) && 320 * 100 != 20 * 1601
    ensures !Returns(0, 0, 640, 400, Sizes(320, 320, 640, 400))
  {
    AllReturnIffRatiosClose(Sizes(320, 20, 1601, 100));
    AllReturnIffRatiosClose(Sizes(320, 320, 640, 400));
  }
}
