/** A finger feature with memory: a measurement moves it to a state only when it is clearly
    inside that state's band, so that it does not flicker at a threshold. */
module FingerState {

  datatype FingerState = Unknown | Open | Neutral | Closed

  datatype Band = Band(closedAt: real, openAt: real, width: real)

  function UpdateState(value: real, band: Band, state: FingerState): FingerState
  {
    if value <= band.closedAt - band.width / 2.0 then Closed
    else if band.closedAt + band.width / 2.0 < value < band.openAt - band.width / 2.0 then Neutral
    else if value > band.openAt + band.width / 2.0 then Open
    else state
  }

  /** The state after the first k measurements. */
  function StateAfter(signal: seq<real>, band: Band, start: FingerState, k: nat): FingerState
    requires k <= |signal|
  {
    if k == 0 then start else UpdateState(signal[k - 1], band, StateAfter(signal, band, start, k - 1))
  }

  /** How often the state changes during the first k measurements. */
  function Changes(signal: seq<real>, band: Band, start: FingerState, k: nat): nat
    requires k <= |signal|
  {
    if k == 0 then 0
    else
      var moved := StateAfter(signal, band, start, k) != StateAfter(signal, band, start, k - 1);
      Changes(signal, band, start, k - 1) + if moved then 1 else 0
  }

  function Distance(x: real, y: real): real { if x < y then y - x else x - y }

  /** The length of the path the signal travels up to its k-th measurement. */
  function Variation(signal: seq<real>, k: nat): real
    requires k <= |signal|
  {
    if k <= 1 then 0.0 else Variation(signal, k - 1) + Distance(signal[k - 2], signal[k - 1])
  }

  /** The measurements that put a feature into a state. */
  ghost predicate InRegion(value: real, band: Band, state: FingerState)
  {
    !state.Unknown? && forall s :: UpdateState(value, band, s) == state
  }

  lemma MovedMeansInRegion(value: real, band: Band, s: FingerState)
    requires UpdateState(value, band, s) != s
    ensures InRegion(value, band, UpdateState(value, band, s))
  {
  }

  /** Regions of different states are a band width apart when the thresholds are in order. */
  lemma RegionsApart(x: real, y: real, band: Band, s: FingerState, t: FingerState)
    requires band.closedAt <= band.openAt && band.width >= 0.0 && s != t
    requires InRegion(x, band, s) && InRegion(y, band, t)
    ensures Distance(x, y) >= band.width
  {
    assert UpdateState(x, band, Unknown) == s && UpdateState(y, band, Unknown) == t;
  }

  lemma {:induction false} VariationBoundsDistance(signal: seq<real>, i: nat, j: nat)
    requires i <= j < |signal|
    ensures Variation(signal, i + 1) + Distance(signal[i], signal[j]) <= Variation(signal, j + 1)
    decreases j
  {
    if i < j { VariationBoundsDistance(signal, i, j - 1); }
  }

  lemma {:induction false} VariationGrows(signal: seq<real>, i: nat, k: nat)
    requires i <= k <= |signal|
    ensures 0.0 <= Variation(signal, i) <= Variation(signal, k)
    decreases k, i
  {
    if i < k {
      VariationGrows(signal, i, k - 1);
    } else if i > 0 {
      VariationGrows(signal, i - 1, i - 1);
    }
  }

  function Price(changes: nat, width: real): real { changes as real * width }

  /** One width for every change but the first: (changes - 1) * width. */
  ghost function Cost(changes: nat, width: real): real
  {
    if changes <= 1 then 0.0 else Cost(changes - 1, width) + width
  }

  lemma {:induction false} ProductBoundsCost(changes: nat, width: real)
    requires width >= 0.0
    ensures Price(changes, width) <= Cost(changes, width) + width
  {
    if changes > 1 {
      ProductBoundsCost(changes - 1, width);
      var n := changes as real;
      assert n * width == (n - 1.0) * width + width;
    }
  }

  /** How often a recorded history of states changes. */
  ghost function Flips(history: seq<FingerState>): nat
  {
    if |history| <= 1 then 0
    else
      var n := |history| - 1;
      Flips(history[..n]) + if history[n] != history[n - 1] then 1 else 0
  }

  /** Each measurement either updates the recorded state or, on a frame that freezes the
      feature, leaves it. */
  ghost predicate MovesBy(history: seq<FingerState>, signal: seq<real>, band: Band)
  {
    && 0 < |history| <= |signal| + 1
    && forall k | 1 <= k < |history| ::
         history[k] == history[k - 1] || history[k] == UpdateState(signal[k - 1], band, history[k - 1])
  }

  /** The last measurement that changed the state, and the path travelled by then. */
  lemma {:induction false} LastChange(history: seq<FingerState>, signal: seq<real>, band: Band) returns (i: nat)
    requires band.closedAt <= band.openAt && band.width >= 0.0
    requires MovesBy(history, signal, band) && Flips(history) > 0
    ensures i < |history| - 1 && InRegion(signal[i], band, history[|history| - 1])
    ensures Cost(Flips(history), band.width) <= Variation(signal, i + 1)
    decreases |history|
  {
    var n := |history| - 1;
    var earlier := history[..n];
    var (before, after) := (history[n - 1], history[n]);
    assert MovesBy(earlier, signal, band);
    if before == after {
      i := LastChange(earlier, signal, band);
    } else {
      i := n - 1;
      VariationGrows(signal, 0, n);
      MovedMeansInRegion(signal[i], band, before);
      if Flips(earlier) > 0 {
        var j := LastChange(earlier, signal, band);
        RegionsApart(signal[j], signal[i], band, before, after);
        VariationBoundsDistance(signal, j, i);
      }
    }
  }

  /** However often frames freeze the feature, its history is as costly. */
  lemma FlipsCostVariation(history: seq<FingerState>, signal: seq<real>, band: Band)
    requires band.closedAt <= band.openAt && band.width >= 0.0
    requires MovesBy(history, signal, band) && |history| == |signal| + 1
    ensures Cost(Flips(history), band.width) <= Variation(signal, |signal|)
  {
    VariationGrows(signal, 0, |signal|);
    if Flips(history) > 0 {
      var i := LastChange(history, signal, band);
      VariationGrows(signal, i + 1, |signal|);
    }
  }

  // ----- bands that change

  /** Each measurement is judged by its own band, or leaves the state. */
  ghost predicate MovesByBands(history: seq<FingerState>, signal: seq<real>, bands: seq<Band>)
  {
    && |history| == |signal| + 1 == |bands| + 1
    && forall k | 1 <= k < |history| ::
         history[k] == history[k - 1] || history[k] == UpdateState(signal[k - 1], bands[k - 1], history[k - 1])
  }

  function Switches(bands: seq<Band>): nat
  {
    var n := |bands|;
    if n <= 1 then 0 else Switches(bands[..n - 1]) + if bands[n - 1] != bands[n - 2] then 1 else 0
  }

  /** Where the last stretch of one band begins. */
  lemma {:induction false} LastStretch(bands: seq<Band>) returns (m: nat)
    requires bands != []
    ensures m < |bands| && forall k | m <= k < |bands| :: bands[k] == bands[|bands| - 1]
    ensures Switches(bands) == if m == 0 then 0 else Switches(bands[..m]) + 1
    decreases |bands|
  {
    var n := |bands|;
    if n == 1 {
      m := 0;
    } else if bands[n - 1] != bands[n - 2] {
      m := n - 1;
    } else {
      m := LastStretch(bands[..n - 1]);
      assert bands[..n - 1][..m] == bands[..m];
    }
  }

  lemma {:induction false} FlipsSplit(history: seq<FingerState>, m: nat)
    requires m < |history|
    ensures Flips(history) == Flips(history[..m + 1]) + Flips(history[m..])
    decreases |history|
  {
    var n := |history| - 1;
    if m == n {
      assert history[..m + 1] == history;
    } else {
      FlipsSplit(history[..n], m);
      assert history[..n][..m + 1] == history[..m + 1] && history[..n][m..] == history[m..][..n - m];
    }
  }

  lemma {:induction false} VariationSplit(signal: seq<real>, m: nat, k: nat)
    requires m <= k <= |signal|
    ensures Variation(signal, k) >= Variation(signal[..m], m) + Variation(signal[m..], k - m)
    decreases k
  {
    if m == k {
      VariationPrefix(signal, m, m);
    } else {
      VariationSplit(signal, m, k - 1);
    }
  }

  lemma {:induction false} VariationPrefix(signal: seq<real>, m: nat, k: nat)
    requires k <= m <= |signal|
    ensures Variation(signal[..m], k) == Variation(signal, k)
  {
    if k > 0 { VariationPrefix(signal, m, k - 1); }
  }

  lemma {:induction false} CostGrows(changes: nat, w: real, width: real)
    requires 0.0 <= w <= width
    ensures Cost(changes, w) <= Cost(changes, width)
  {
    if changes > 1 { CostGrows(changes - 1, w, width); }
  }

  lemma PriceAdds(m: nat, n: nat, w: real)
    ensures Price(m + n, w) == Price(m, w) + Price(n, w)
  {
    assert (m + n) as real == m as real + n as real;
  }

  ghost predicate InOrder(band: Band, w: real) { band.closedAt <= band.openAt && 0.0 <= w <= band.width }

  /** While one band is in force. */
  lemma StretchCost(history: seq<FingerState>, signal: seq<real>, band: Band, w: real)
    requires InOrder(band, w) && MovesBy(history, signal, band) && |history| == |signal| + 1
    ensures Price(Flips(history), w) <= Variation(signal, |signal|) + w
  {
    FlipsCostVariation(history, signal, band);
    CostGrows(Flips(history), w, band.width);
    ProductBoundsCost(Flips(history), w);
  }

  lemma MovesApart(history: seq<FingerState>, signal: seq<real>, bands: seq<Band>, m: nat, band: Band)
    requires MovesByBands(history, signal, bands) && m <= |bands| && forall k | m <= k < |bands| :: bands[k] == band
    ensures MovesByBands(history[..m + 1], signal[..m], bands[..m])
    ensures MovesBy(history[m..], signal[m..], band)
  {
    forall k | 1 <= k < |history| - m
      ensures var (before, after) := (history[m..][k - 1], history[m..][k]);
              after == before || after == UpdateState(signal[m..][k - 1], band, before)
    {
      assert history[m..][k] == history[m + k] && signal[m..][k - 1] == signal[m + k - 1];
    }
  }

  /** A stretch after what was before. */
  lemma StretchAdds(history: seq<FingerState>, signal: seq<real>, m: nat, switches: nat, w: real)
    requires |history| == |signal| + 1 && m <= |signal|
    requires Price(Flips(history[..m + 1]), w) <= Variation(signal[..m], m) + Price(switches + 1, w)
    requires Price(Flips(history[m..]), w) <= Variation(signal[m..], |signal| - m) + w
    ensures Price(Flips(history), w) <= Variation(signal, |signal|) + Price(switches + 2, w)
  {
    FlipsSplit(history, m);
    VariationSplit(signal, m, |signal|);
    PriceAdds(Flips(history[..m + 1]), Flips(history[m..]), w);
    PriceAdds(switches + 1, 1, w);
  }

  /** With bands that change, every change of state costs the signal a path of at least the least
      width, but for the first and for one more at each change of band. */
  lemma {:induction false} FlipsAcrossBands(history: seq<FingerState>, signal: seq<real>, bands: seq<Band>, w: real)
    requires w >= 0.0 && MovesByBands(history, signal, bands) && forall k | 0 <= k < |bands| :: InOrder(bands[k], w)
    ensures Price(Flips(history), w) <= Variation(signal, |signal|) + Price(Switches(bands) + 1, w)
    decreases |bands|
  {
    if bands != [] {
      var m := LastStretch(bands);
      var band := bands[|bands| - 1];
      MovesApart(history, signal, bands, m, band);
      StretchCost(history[m..], signal[m..], band, w);
      if m == 0 {
        assert history[0..] == history && signal[0..] == signal;
      } else {
        FlipsAcrossBands(history[..m + 1], signal[..m], bands[..m], w);
        StretchAdds(history, signal, m, Switches(bands[..m]), w);
      }
    }
  }

  lemma {:induction false} FlipsAreChanges(history: seq<FingerState>, signal: seq<real>, band: Band, start: FingerState)
    requires 0 < |history| <= |signal| + 1
    requires forall k | 0 <= k < |history| :: history[k] == StateAfter(signal, band, start, k)
    ensures Flips(history) == Changes(signal, band, start, |history| - 1)
    decreases |history|
  {
    if |history| > 1 { FlipsAreChanges(history[..|history| - 1], signal, band, start); }
  }

  lemma StatesMove(history: seq<FingerState>, signal: seq<real>, band: Band, start: FingerState)
    requires |history| == |signal| + 1
    requires forall k | 0 <= k < |history| :: history[k] == StateAfter(signal, band, start, k)
    ensures MovesBy(history, signal, band)
  {
  }

  lemma CostWithinVariation(signal: seq<real>, band: Band, start: FingerState)
    requires band.closedAt <= band.openAt && band.width >= 0.0
    ensures Cost(Changes(signal, band, start, |signal|), band.width) <= Variation(signal, |signal|)
  {
    var history := seq(|signal| + 1, k requires 0 <= k <= |signal| => StateAfter(signal, band, start, k));
    FlipsAreChanges(history, signal, band, start);
    StatesMove(history, signal, band, start);
    FlipsCostVariation(history, signal, band);
  }

  /** However the signal moves, every change of state but the first costs it a path of at
      least the band width. */
  lemma ChangesCostVariation(signal: seq<real>, band: Band, start: FingerState)
    requires band.closedAt <= band.openAt && band.width >= 0.0
    ensures Price(Changes(signal, band, start, |signal|), band.width) <= Variation(signal, |signal|) + band.width
  {
    CostWithinVariation(signal, band, start);
    ProductBoundsCost(Changes(signal, band, start, |signal|), band.width);
  }

  ghost predicate ChangesAreCostly(band: Band)
  {
    forall signal, start ::
      Price(Changes(signal, band, start, |signal|), band.width) <= Variation(signal, |signal|) + band.width
  }

  /** For a band of positive width, having the thresholds in order is exactly what makes
      changes costly. */
  lemma CostlyIffOrdered(band: Band)
    requires band.width > 0.0
    ensures ChangesAreCostly(band) <==> band.closedAt <= band.openAt
  {
    if band.closedAt <= band.openAt {
      forall signal, start
        ensures Price(Changes(signal, band, start, |signal|), band.width) <= Variation(signal, |signal|) + band.width
      {
        ChangesCostVariation(signal, band, start);
      }
    } else {
      CheapChange(band);
    }
  }

  /** With the thresholds out of order, a step shorter than the width goes from closed to open. */
  lemma CheapChange(band: Band)
    requires band.width > 0.0 && band.closedAt > band.openAt
    ensures !ChangesAreCostly(band)
  {
    var (x, edge) := (band.closedAt - band.width / 2.0, band.openAt + band.width / 2.0);
    var top := x + band.width;
    var y := ((if edge > x then edge else x) + top) / 2.0;
    var signal := [x, y];
    assert StateAfter(signal, band, Unknown, 1) == UpdateState(x, band, Unknown) == Closed;
    assert StateAfter(signal, band, Unknown, 2) == UpdateState(y, band, Closed) == Open;
    assert Changes(signal, band, Unknown, 1) == 1;
    assert Changes(signal, band, Unknown, 2) == 2;
    assert Variation(signal, 2) == Variation(signal, 1) + Distance(x, y) == y - x < band.width;
    assert 2 as real * band.width == band.width + band.width;
    assert |signal| == 2;
  }
}
