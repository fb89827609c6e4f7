/** The One Euro filter: a low-pass filter whose smoothing factor follows the speed of the
    signal.  Stamps are optional; an undefined stamp leaves the frequency alone. */
module OneEuro {
  import opened Collections
  import opened Sums

  const PI := 3.141592653589793

  datatype LowPass = LowPass(y: real, a: real, s: real, initialized: bool)

  datatype Params = Params(minCutoff: real, beta: real, dCutoff: real)

  datatype State = State(params: Params, freq: real, x: LowPass, dx: LowPass, last: Option<real>)

  // ----- the smoothing factor

  /** With a cutoff of zero the time constant is infinite, and without a finite quotient so is
      the factor; any value above one stands for that. */
  function Alpha(freq: real, cutoff: real): real
    requires freq != 0.0
  {
    if cutoff == 0.0 then 0.0
    else
      var te := 1.0 / freq;
      var tau := 1.0 / (2.0 * PI * cutoff);
      var d := 1.0 + tau / te;
      if d == 0.0 then 2.0 else 1.0 / d
  }

  predicate InRange(alpha: real) { 0.0 < alpha <= 1.0 }

  lemma Quotient(tau: real, te: real)
    requires te > 0.0
    ensures tau > 0.0 ==> tau / te > 0.0
    ensures tau < 0.0 ==> tau / te < 0.0
  {
  }

  lemma Inverse(d: real)
    requires d != 0.0
    ensures d > 1.0 ==> 0.0 < 1.0 / d < 1.0
    ensures d < 1.0 ==> 1.0 / d < 0.0 || 1.0 / d > 1.0
    ensures d > 0.0 ==> 1.0 / d > 0.0
    ensures d < 0.0 ==> 1.0 / d < 0.0
  {
    assert 1.0 / d * d == 1.0;
  }

  /** The factor passes the range check exactly for positive cutoffs, and is then below one. */
  lemma AlphaInRange(freq: real, cutoff: real)
    requires freq > 0.0
    ensures InRange(Alpha(freq, cutoff)) <==> cutoff > 0.0
    ensures cutoff > 0.0 ==> 0.0 < Alpha(freq, cutoff) < 1.0
  {
    if cutoff != 0.0 {
      var (te, tau) := (1.0 / freq, 1.0 / (2.0 * PI * cutoff));
      Inverse(freq);
      Inverse(2.0 * PI * cutoff);
      Quotient(tau, te);
      var d := 1.0 + tau / te;
      if d != 0.0 { Inverse(d); }
    }
  }

  /** A negative frequency never passes it. */
  lemma AlphaOfNegative(freq: real, cutoff: real)
    requires freq < 0.0 && cutoff > 0.0
    ensures !InRange(Alpha(freq, cutoff))
  {
    var (te, tau) := (1.0 / freq, 1.0 / (2.0 * PI * cutoff));
    Inverse(freq);
    Inverse(2.0 * PI * cutoff);
    Quotient(tau, -te);
    assert tau / te == -(tau / -te);
    var d := 1.0 + tau / te;
    if d != 0.0 { Inverse(d); }
  }

  // ----- steps

  /** Between the old value and the new one, at fraction a. */
  function Mix(a: real, v: real, s: real): real { Times(a, v) + Times(1.0 - a, s) }

  function LowPassStep(l: LowPass, v: real): LowPass
  {
    LowPass(v, l.a, if l.initialized then Mix(l.a, v, l.s) else v, true)
  }

  /** Set the factor, or fail the range check, then filter.  The output is the new `s`. */
  function FilterWithAlpha(l: LowPass, v: real, alpha: real): Option<LowPass>
  {
    if InRange(alpha) then Some(LowPassStep(l.(a := alpha), v)) else None
  }

  function Abs(x: real): real { if x < 0.0 then -x else x }

  /** The time since the stamp before, if both are there. */
  function Gap(f: State, stamp: Option<real>): Option<real>
  {
    if stamp.Some? && f.last.Some? then Some(stamp.value - f.last.value) else None
  }

  /** A stamp that the filter can use is later than the one before. */
  predicate StampOk(f: State, stamp: Option<real>) { Gap(f, stamp).None? || Gap(f, stamp).value > 0.0 }

  function Frequency(f: State, stamp: Option<real>): real
    requires Gap(f, stamp) != Some(0.0)
  {
    if Gap(f, stamp).Some? then 1.0 / Gap(f, stamp).value else f.freq
  }

  function Speed(f: State, v: real, freq: real): real { if f.x.initialized then Times(v - f.x.y, freq) else 0.0 }

  /** One value; None is the range error.  The output is the new x.s.  The same stamp twice makes
      the frequency infinite and the first factor zero. */
  function Step(f: State, v: real, stamp: Option<real>): Option<State>
    requires f.freq > 0.0
  {
    if Gap(f, stamp) == Some(0.0) then None
    else
      var freq := Frequency(f, stamp);
      FrequencySign(f, stamp);
      var dx := FilterWithAlpha(f.dx, Speed(f, v, freq), Alpha(freq, f.params.dCutoff));
      if dx.None? then None
      else
        var cutoff := f.params.minCutoff + Times(f.params.beta, Abs(dx.value.s));
        var x := FilterWithAlpha(f.x, v, Alpha(freq, cutoff));
        if x.None? then None else Some(State(f.params, freq, x.value, dx.value, stamp))
  }

  lemma FrequencySign(f: State, stamp: Option<real>)
    requires f.freq > 0.0 && Gap(f, stamp) != Some(0.0)
    ensures if StampOk(f, stamp) then Frequency(f, stamp) > 0.0 else Frequency(f, stamp) < 0.0
  {
    if Gap(f, stamp).Some? { Inverse(Gap(f, stamp).value); }
  }

  function New(a: real): LowPass { LowPass(0.0, a, 0.0, false) }

  /** A new filter, or None for the range errors of its setters. */
  function Create(freq: real, p: Params): Option<State>
  {
    if freq <= 0.0 || p.minCutoff <= 0.0 || p.dCutoff <= 0.0 then None
    else Some(State(p, freq, New(Alpha(freq, p.minCutoff)), New(Alpha(freq, p.dCutoff)), None))
  }

  function Reset(f: State): State
  {
    f.(x := f.x.(initialized := false), dx := f.dx.(initialized := false), last := None)
  }

  /** What every filter that was created keeps. */
  ghost predicate Ready(f: State) { f.freq > 0.0 && f.params.minCutoff > 0.0 && f.params.dCutoff > 0.0 }

  // ----- the range error

  /** A stamp that is not later than the one before raises the range error, whatever beta is. */
  lemma LateStampFails(f: State, v: real, stamp: Option<real>)
    requires Ready(f) && !StampOk(f, stamp)
    ensures Step(f, v, stamp).None?
  {
    if Gap(f, stamp) != Some(0.0) {
      FrequencySign(f, stamp);
      AlphaOfNegative(Frequency(f, stamp), f.params.dCutoff);
    }
  }

  lemma StepReady(f: State, v: real, stamp: Option<real>)
    requires Ready(f)
    ensures Step(f, v, stamp).Some? ==>
              StampOk(f, stamp) && Ready(Step(f, v, stamp).value) && Step(f, v, stamp).value.params == f.params
    ensures f.params.beta >= 0.0 ==> (Step(f, v, stamp).Some? <==> StampOk(f, stamp))
  {
    if StampOk(f, stamp) {
      FrequencySign(f, stamp);
      var freq := Frequency(f, stamp);
      AlphaInRange(freq, f.params.dCutoff);
      var dx := FilterWithAlpha(f.dx, Speed(f, v, freq), Alpha(freq, f.params.dCutoff));
      var cutoff := f.params.minCutoff + Times(f.params.beta, Abs(dx.value.s));
      if f.params.beta >= 0.0 { assert Times(f.params.beta, Abs(dx.value.s)) >= 0.0; }
      AlphaInRange(freq, cutoff);
    } else {
      LateStampFails(f, v, stamp);
    }
  }

  /** A value with its stamp, or a reset in between. */
  datatype Event = Sample(v: real, stamp: Option<real>) | Restart

  type Signal = seq<Event>

  function Move(f: State, e: Event): Option<State>
    requires f.freq > 0.0
  {
    match e
    case Sample(v, stamp) => Step(f, v, stamp)
    case Restart => Some(Reset(f))
  }

  /** The states of a run without errors: its k-th event moves states[k] to states[k + 1]. */
  ghost predicate IsRun(states: seq<State>, signal: Signal)
  {
    && |states| == |signal| + 1
    && forall k | 0 <= k < |signal| :: Follows(states[k], signal[k], states[k + 1])
  }

  ghost predicate Follows(f: State, e: Event, g: State) { Ready(f) && Move(f, e) == Some(g) }

  lemma {:induction false} RunReady(states: seq<State>, signal: Signal, k: nat)
    requires IsRun(states, signal) && k <= |signal| && Ready(states[0])
    ensures Ready(states[k]) && states[k].params == states[0].params
    decreases k
  {
    if k > 0 {
      RunReady(states, signal, k - 1);
      assert Follows(states[k - 1], signal[k - 1], states[k]);
      if signal[k - 1].Sample? { StepReady(states[k - 1], signal[k - 1].v, signal[k - 1].stamp); }
    }
  }

  /** Some run of a new filter ends in the range error, at a value whose stamp is not late. */
  ghost predicate MayFail(freq: real, p: Params)
  {
    exists states: seq<State>, signal: Signal, v: real, stamp: Option<real> ::
      && IsRun(states, signal) && Create(freq, p) == Some(states[0])
      && Fails(states[|signal|], v, stamp) && StampOk(states[|signal|], stamp)
  }

  ghost predicate Fails(f: State, v: real, stamp: Option<real>) { Ready(f) && Step(f, v, stamp).None? }

  /** While stamps increase the range error can never fire, exactly if beta is not negative. */
  lemma NeverFailsIffBeta(freq: real, p: Params)
    requires Create(freq, p).Some?
    ensures !MayFail(freq, p) <==> p.beta >= 0.0
  {
    if p.beta >= 0.0 {
      forall states: seq<State>, signal: Signal, v: real, stamp: Option<real>
        | IsRun(states, signal) && Create(freq, p) == Some(states[0]) && StampOk(states[|signal|], stamp)
        ensures !Fails(states[|signal|], v, stamp)
      {
        RunReady(states, signal, |signal|);
        StepReady(states[|signal|], v, stamp);
      }
    } else {
      FastSignalFails(freq, p);
    }
  }

  /** A jump that makes the cutoff negative. */
  lemma FastSignalFails(freq: real, p: Params)
    requires Create(freq, p).Some? && p.beta < 0.0
    ensures MayFail(freq, p)
  {
    var f := Create(freq, p).value;
    var a := Alpha(freq, p.dCutoff);
    AlphaInRange(freq, p.dCutoff);
    AlphaInRange(freq, p.minCutoff);
    assert Times(p.beta, 0.0) == 0.0 && Abs(0.0) == 0.0;
    var g := Step(f, 0.0, None).value;
    assert g.dx.s == 0.0 && g.x.y == 0.0 && g.x.initialized && g.dx.initialized && g.freq == freq && g.params == p;
    // the speed that the derivative filter should see, and the value that has it
    var speed := p.minCutoff / -p.beta / a;
    var v := speed / freq;
    Undo(speed, freq);
    SpeedReaches(p.minCutoff, p.beta, a, speed);
    assert Speed(g, v, freq) == speed;
    assert Fails(g, v, None) by {
      var dx := FilterWithAlpha(g.dx, speed, a).value;
      assert dx.s == Mix(a, speed, 0.0);
      AlphaInRange(freq, p.minCutoff + Times(p.beta, Abs(dx.s)));
    }
    assert Follows(f, Sample(0.0, None), g);
    var states := [f, g];
    var signal: Signal := [Sample(0.0, None)];
    assert IsRun(states, signal) && states[|signal|] == g;
  }

  lemma Undo(speed: real, freq: real)
    requires freq > 0.0
    ensures Times(speed / freq - 0.0, freq) == speed
  {
  }

  lemma SpeedReaches(minCutoff: real, beta: real, a: real, speed: real)
    requires minCutoff > 0.0 && beta < 0.0 && a > 0.0 && speed == minCutoff / -beta / a
    ensures minCutoff + Times(beta, Abs(Mix(a, speed, 0.0))) == 0.0
  {
    var m := minCutoff / -beta;
    assert Times(a, speed) == m;
    assert m > 0.0;
    assert Mix(a, speed, 0.0) == m;
    assert Times(beta, m) == -minCutoff;
  }

  // ----- outputs stay among the inputs

  lemma NotNegative(a: real, b: real)
    requires a >= 0.0 && b >= 0.0
    ensures Times(a, b) >= 0.0
  {
  }

  lemma MixBetween(a: real, v: real, s: real, lo: real, hi: real)
    requires 0.0 <= a <= 1.0 && lo <= v <= hi && lo <= s <= hi
    ensures lo <= Mix(a, v, s) <= hi
  {
    NotNegative(a, v - lo);
    NotNegative(1.0 - a, s - lo);
    NotNegative(a, hi - v);
    NotNegative(1.0 - a, hi - s);
    assert Mix(a, v, s) == lo + Times(a, v - lo) + Times(1.0 - a, s - lo);
    assert Mix(a, v, s) == hi - Times(a, hi - v) - Times(1.0 - a, hi - s);
  }

  lemma StepBetween(f: State, v: real, stamp: Option<real>, lo: real, hi: real)
    requires f.freq > 0.0 && Step(f, v, stamp).Some?
    requires lo <= v <= hi && (f.x.initialized ==> lo <= f.x.s <= hi)
    ensures var g := Step(f, v, stamp).value; g.x.initialized && lo <= g.x.s <= hi
  {
    var g := Step(f, v, stamp).value;
    MixBetween(g.x.a, v, if f.x.initialized then f.x.s else v, lo, hi);
  }

  /** Since it was new or reset, a filter only puts out values between the least and the
      greatest value it was given. */
  lemma {:induction false} OutputsBetween(states: seq<State>, signal: Signal, lo: real, hi: real, k: nat)
    requires IsRun(states, signal) && !states[0].x.initialized && k <= |signal|
    requires forall j | 0 <= j < k :: signal[j].Sample? ==> lo <= signal[j].v <= hi
    ensures states[k].x.initialized <==> k > 0 && signal[k - 1].Sample?
    ensures states[k].x.initialized ==> lo <= states[k].x.s <= hi
    decreases k
  {
    if k > 0 {
      OutputsBetween(states, signal, lo, hi, k - 1);
      assert Follows(states[k - 1], signal[k - 1], states[k]);
      if signal[k - 1].Sample? { StepBetween(states[k - 1], signal[k - 1].v, signal[k - 1].stamp, lo, hi); }
    }
  }

  // ----- the speed estimate

  /** Filters with the same speed estimate now and from the same values. */
  ghost predicate SameSpeed(f: State, g: State)
  {
    && f.freq == g.freq && f.last == g.last && f.params.dCutoff == g.params.dCutoff
    && f.x.initialized == g.x.initialized && (f.x.initialized ==> f.x.y == g.x.y) && SameLow(f.dx, g.dx)
  }

  lemma MoveSameSpeed(f: State, g: State, e: Event, f': State, g': State)
    requires SameSpeed(f, g) && Follows(f, e, f') && Follows(g, e, g')
    ensures SameSpeed(f', g')
  {
    if e.Sample? { StepReady(f, e.v, e.stamp); }
  }

  /** The estimate depends on the values, the stamps and the derivative cutoff only: two filters
      that differ in minCutoff and beta, and so in what they put out, estimate the same speed. */
  lemma {:induction false} SpeedIgnoresOutput(states: seq<State>, others: seq<State>, signal: Signal, k: nat)
    requires IsRun(states, signal) && IsRun(others, signal) && k <= |signal| && SameSpeed(states[0], others[0])
    ensures SameSpeed(states[k], others[k])
    decreases k
  {
    if k > 0 {
      SpeedIgnoresOutput(states, others, signal, k - 1);
      assert Follows(states[k - 1], signal[k - 1], states[k]);
      assert Follows(others[k - 1], signal[k - 1], others[k]);
      MoveSameSpeed(states[k - 1], others[k - 1], signal[k - 1], states[k], others[k]);
    }
  }

  lemma NewSameSpeed(freq: real, p: Params, p': Params)
    requires Create(freq, p).Some? && Create(freq, p').Some? && p.dCutoff == p'.dCutoff
    ensures SameSpeed(Create(freq, p).value, Create(freq, p').value)
  {
  }

  function Power(x: real, k: nat): real { if k == 0 then 1.0 else Times(Power(x, k - 1), x) }

  /** A value that grows by d with every sample. */
  function Ramp(d: real, n: nat): Signal { seq(n, i => Sample(Times(i as real, d), None)) }

  /** The last raw value is on the ramp, and the estimate has come so close to the slope. */
  ghost predicate OnRamp(f: State, freq: real, p: Params, d: real, k: nat)
    requires freq > 0.0
  {
    && f.freq == freq && f.params == p && f.x.initialized && f.dx.initialized
    && f.x.y == Times(k as real, d)
    && f.dx.s == Times(1.0 - Power(1.0 - Alpha(freq, p.dCutoff), k), Times(d, freq))
  }

  lemma RampStarts(f: State, freq: real, p: Params, d: real, g: State)
    requires Create(freq, p) == Some(f) && Follows(f, Sample(Times(0.0, d), None), g)
    ensures OnRamp(g, freq, p, d, 0)
  {
  }

  lemma NextSlope(a: real, q: real, w: real)
    ensures Mix(a, w, Times(1.0 - q, w)) == Times(1.0 - Times(q, 1.0 - a), w)
  {
  }

  lemma SlopeSeen(k: real, d: real, freq: real)
    ensures Times(Times(k + 1.0, d) - Times(k, d), freq) == Times(d, freq)
  {
  }

  lemma RampGoesOn(f: State, freq: real, p: Params, d: real, k: nat, g: State)
    requires freq > 0.0 && OnRamp(f, freq, p, d, k) && Follows(f, Sample(Times((k + 1) as real, d), None), g)
    ensures OnRamp(g, freq, p, d, k + 1)
  {
    var a := Alpha(freq, p.dCutoff);
    SlopeSeen(k as real, d, freq);
    assert (k + 1) as real == k as real + 1.0;
    NextSlope(a, Power(1.0 - a, k), Times(d, freq));
  }

  /** On a ramp the speed estimate comes closer to the slope by one and the same factor with
      every sample. */
  lemma {:induction false} RampSpeed(freq: real, p: Params, d: real, n: nat, states: seq<State>, k: nat)
    requires IsRun(states, Ramp(d, n)) && Create(freq, p) == Some(states[0]) && k < n
    ensures OnRamp(states[k + 1], freq, p, d, k)
    decreases k
  {
    assert Follows(states[k], Ramp(d, n)[k], states[k + 1]);
    if k == 0 {
      RampStarts(states[0], freq, p, d, states[1]);
    } else {
      RampSpeed(freq, p, d, n, states, k - 1);
      RampGoesOn(states[k], freq, p, d, k - 1, states[k + 1]);
    }
  }

  // ----- the answer to a step

  /** A zero and then only ones. */
  function StepUp(n: nat): Signal { seq(n, i => Sample(if i == 0 then 0.0 else 1.0, None)) }

  ghost predicate AfterStep(f: State, freq: real, p: Params, k: nat)
    requires freq > 0.0
  {
    && f.freq == freq && f.params == p && f.x.initialized
    && f.x.s == 1.0 - Power(1.0 - Alpha(freq, p.minCutoff), k)
  }

  lemma NextOutput(a: real, q: real)
    ensures Mix(a, 1.0, 1.0 - q) == 1.0 - Times(q, 1.0 - a)
  {
  }

  lemma AnswerGoesOn(f: State, freq: real, p: Params, k: nat, g: State)
    requires freq > 0.0 && p.beta == 0.0 && AfterStep(f, freq, p, k) && Follows(f, Sample(1.0, None), g)
    ensures AfterStep(g, freq, p, k + 1)
  {
    NextOutput(Alpha(freq, p.minCutoff), Power(1.0 - Alpha(freq, p.minCutoff), k));
    assert forall x :: Times(0.0, x) == 0.0;
  }

  /** With beta zero the output closes the gap to a new level by one and the same factor with
      every sample: that of the least cutoff. */
  lemma {:induction false} StepAnswer(freq: real, p: Params, n: nat, states: seq<State>, k: nat)
    requires IsRun(states, StepUp(n)) && Create(freq, p) == Some(states[0]) && p.beta == 0.0 && k < n
    ensures AfterStep(states[k + 1], freq, p, k)
    decreases k
  {
    assert Follows(states[k], StepUp(n)[k], states[k + 1]);
    if k > 0 {
      StepAnswer(freq, p, n, states, k - 1);
      AnswerGoesOn(states[k], freq, p, k - 1, states[k + 1]);
    }
  }

  // ----- reset

  /** Low-pass filters that behave alike: the factor is set before every use. */
  ghost predicate SameLow(l: LowPass, m: LowPass)
  {
    l.initialized == m.initialized && (l.initialized ==> l.y == m.y && l.s == m.s)
  }

  ghost predicate Same(f: State, g: State)
  {
    f.params == g.params && f.freq == g.freq && f.last == g.last && SameLow(f.x, g.x) && SameLow(f.dx, g.dx)
  }

  lemma SameFilter(l: LowPass, m: LowPass, v: real, alpha: real)
    requires SameLow(l, m)
    ensures FilterWithAlpha(l, v, alpha) == FilterWithAlpha(m, v, alpha)
  {
  }

  lemma StepSame(f: State, g: State, v: real, stamp: Option<real>)
    requires Ready(f) && Same(f, g)
    ensures Step(f, v, stamp) == Step(g, v, stamp)
  {
    if StampOk(f, stamp) {
      var freq := Frequency(f, stamp);
      FrequencySign(f, stamp);
      assert Speed(f, v, freq) == Speed(g, v, freq);
      var alpha := Alpha(freq, f.params.dCutoff);
      SameFilter(f.dx, g.dx, Speed(f, v, freq), alpha);
      var dx := FilterWithAlpha(f.dx, Speed(f, v, freq), alpha);
      if dx.Some? {
        SameFilter(f.x, g.x, v, Alpha(freq, f.params.minCutoff + Times(f.params.beta, Abs(dx.value.s))));
      }
    } else {
      LateStampFails(f, v, stamp);
      LateStampFails(g, v, stamp);
    }
  }

  lemma MoveSame(f: State, g: State, e: Event)
    requires Ready(f) && Same(f, g)
    ensures Move(f, e).Some? <==> Move(g, e).Some?
    ensures Move(f, e).Some? ==> Same(Move(f, e).value, Move(g, e).value)
    ensures e.Sample? ==> Move(f, e) == Move(g, e)
  {
    if e.Sample? { StepSame(f, g, e.v, e.stamp); }
  }

  /** Filters that are the same but for values that are never read stay so, and are equal after
      every value. */
  lemma {:induction false} SameMeet(states: seq<State>, others: seq<State>, signal: Signal, k: nat)
    requires IsRun(states, signal) && IsRun(others, signal) && k <= |signal| && Same(states[0], others[0])
    ensures Same(states[k], others[k]) && (k > 0 && signal[k - 1].Sample? ==> states[k] == others[k])
    decreases k
  {
    if k > 0 {
      SameMeet(states, others, signal, k - 1);
      assert Follows(states[k - 1], signal[k - 1], states[k]);
      assert Follows(others[k - 1], signal[k - 1], others[k]);
      MoveSame(states[k - 1], others[k - 1], signal[k - 1]);
    }
  }

  /** After every value a reset filter is the same as a new one of its frequency, for whatever
      signal follows. */
  lemma ResetIsNew(f: State, states: seq<State>, fresh': seq<State>, signal: Signal, k: nat)
    requires Ready(f) && IsRun(states, signal) && IsRun(fresh', signal) && 0 < k <= |signal| && signal[k - 1].Sample?
    requires states[0] == Reset(f) && Create(f.freq, f.params) == Some(fresh'[0])
    ensures states[k] == fresh'[k]
  {
    SameMeet(states, fresh', signal, k);
  }

  lemma {:induction false} FrequencyKept(states: seq<State>, signal: Signal, k: nat)
    requires IsRun(states, signal) && k <= |signal| && forall j | 0 <= j < |signal| && signal[j].Sample? ::
               signal[j].stamp.None?
    ensures states[k].freq == states[0].freq
    decreases k
  {
    if k > 0 {
      FrequencyKept(states, signal, k - 1);
      assert Follows(states[k - 1], signal[k - 1], states[k]);
    }
  }

  /** Without stamps, a filter that has run, resets included, and is then reset puts out what a
      new filter with the same parameters does, for ever. */
  lemma ResetForgets(freq: real, p: Params, before: seq<State>, past: Signal, after: seq<State>, fresh': seq<State>,
                     signal: Signal, k: nat)
    requires IsRun(before, past) && Create(freq, p) == Some(before[0])
    requires forall j | 0 <= j < |past| && past[j].Sample? :: past[j].stamp.None?
    requires IsRun(after, signal) && after[0] == Reset(before[|past|])
    requires IsRun(fresh', signal) && Create(freq, p) == Some(fresh'[0])
    requires 0 < k <= |signal| && signal[k - 1].Sample?
    ensures after[k] == fresh'[k]
  {
    RunReady(before, past, |past|);
    FrequencyKept(before, past, |past|);
    ResetIsNew(before[|past|], after, fresh', signal, k);
  }

  lemma OverReciprocal(a: real, b: real)
    requires b > 0.0
    ensures 1.0 / b != 0.0 && a / (1.0 / b) == Times(a, b)
  {
    var r := 1.0 / b;
    assert r * b == 1.0;
    assert Times(a, b) * r == a;
  }

  lemma Reciprocals(m: real, n: real)
    requires 1.0 < m < n
    ensures 1.0 / m > 1.0 / n
  {
    Inverse(m);
    Inverse(n);
    assert Times(1.0 / m, m) == 1.0 && Times(1.0 / n, n) == 1.0;
    assert Times(1.0 / n, n - m) > 0.0;
    assert Times(1.0 / n, m) < 1.0;
  }

  /** The quotient in the factor: the frequency over the cutoff, but for a constant. */
  lemma FactorQuotient(freq: real, cutoff: real)
    requires freq > 0.0 && cutoff > 0.0
    ensures var q := (1.0 / (2.0 * PI * cutoff)) / (1.0 / freq);
            q > 0.0 && Times(Times(q, cutoff), 2.0 * PI) == freq && Alpha(freq, cutoff) == 1.0 / (1.0 + q)
  {
    var tau := 1.0 / (2.0 * PI * cutoff);
    Inverse(2.0 * PI * cutoff);
    OverReciprocal(tau, freq);
    PositiveProduct(tau, freq);
    TimesSwap(tau, freq, cutoff, 2.0 * PI);
  }

  lemma TimesSwap(tau: real, freq: real, cutoff: real, two: real)
    requires two * cutoff != 0.0 && tau == 1.0 / (two * cutoff)
    ensures Times(Times(Times(tau, freq), cutoff), two) == freq
  {
    assert tau * (two * cutoff) == 1.0;
    assert Times(Times(Times(tau, freq), cutoff), two) == tau * (two * cutoff) * freq;
  }

  lemma PositiveProduct(a: real, b: real)
    requires a > 0.0 && b > 0.0
    ensures Times(a, b) > 0.0
  {
  }

  lemma ProductOrder(a: real, b: real, k: real)
    requires k > 0.0
    ensures a < b <==> Times(a, k) < Times(b, k)
  {
    assert Times(b, k) - Times(a, k) == Times(b - a, k);
    if a < b { PositiveProduct(b - a, k); }
    if b < a { PositiveProduct(a - b, k); assert Times(a - b, k) == -Times(b - a, k); }
  }

  /** The factor is the share of the angular cutoff, two pi times the cutoff, in the angular cutoff
      and the frequency together. */
  lemma AlphaIsShare(freq: real, cutoff: real)
    requires freq > 0.0 && cutoff > 0.0
    ensures Times(Alpha(freq, cutoff), Times(2.0 * PI, cutoff) + freq) == Times(2.0 * PI, cutoff)
  {
    var q := (1.0 / (2.0 * PI * cutoff)) / (1.0 / freq);
    var w := Times(2.0 * PI, cutoff);
    FactorQuotient(freq, cutoff);
    SwapTimes(q, cutoff, 2.0 * PI);
    ShareOf(q, w);
  }

  lemma SwapTimes(q: real, c: real, k: real)
    ensures Times(Times(q, c), k) == Times(q, Times(k, c))
  {
  }

  lemma ShareOf(q: real, w: real)
    requires q > 0.0
    ensures Times(1.0 / (1.0 + q), w + Times(q, w)) == w
  {
    var d := 1.0 + q;
    assert w + Times(q, w) == Times(d, w);
    assert (1.0 / d) * d == 1.0;
    assert (1.0 / d) * (d * w) == ((1.0 / d) * d) * w;
  }

  /** The factor grows with the cutoff measured in the frequency. */
  lemma AlphaOrder(f: real, c: real, g: real, d: real)
    requires f > 0.0 && c > 0.0 && g > 0.0 && d > 0.0 && Times(d, f) < Times(c, g)
    ensures Alpha(f, c) > Alpha(g, d)
  {
    var p := (1.0 / (2.0 * PI * c)) / (1.0 / f);
    var q := (1.0 / (2.0 * PI * d)) / (1.0 / g);
    FactorQuotient(f, c);
    FactorQuotient(g, d);
    SmallerQuotient(p, q, f, c, g, d, 2.0 * PI);
    Reciprocals(1.0 + p, 1.0 + q);
  }

  lemma SmallerQuotient(p: real, q: real, f: real, c: real, g: real, d: real, k: real)
    requires p > 0.0 && q > 0.0 && c > 0.0 && d > 0.0 && k > 0.0
    requires Times(Times(p, c), k) == f && Times(Times(q, d), k) == g && Times(d, f) < Times(c, g)
    ensures p < q
  {
    var w := Times(Times(c, d), k);
    PositiveProduct(c, d);
    PositiveProduct(Times(c, d), k);
    assert Times(d, f) == Times(p, w);
    assert Times(c, g) == Times(q, w);
    ProductOrder(p, q, w);
  }

  // ----- when a reset filter is as good as new

  ghost predicate CanRun(f: State, signal: Signal)
  {
    exists states: seq<State> :: IsRun(states, signal) && states[0] == f
  }

  /** Two filters fail on the same signals and put out the same values on all others. */
  ghost predicate ActsLike(f: State, g: State)
  {
    && (forall signal: Signal :: CanRun(f, signal) <==> CanRun(g, signal))
    && (forall states: seq<State>, others: seq<State>, signal: Signal, k: nat |
          && IsRun(states, signal) && IsRun(others, signal) && states[0] == f && others[0] == g
          && 0 < k <= |signal| && signal[k - 1].Sample? ::
          states[k].x.s == others[k].x.s)
  }

  lemma {:induction false} SameRun(states: seq<State>, g: State, signal: Signal) returns (others: seq<State>)
    requires IsRun(states, signal) && Same(states[0], g)
    ensures IsRun(others, signal) && others[0] == g
    decreases |signal|
  {
    if signal == [] {
      others := [g];
    } else {
      var n := |signal| - 1;
      RunPrefix(states, signal);
      others := SameRun(states[..n + 1], g, signal[..n]);
      SameMeet(states[..n + 1], others, signal[..n], n);
      assert Follows(states[n], signal[n], states[n + 1]);
      MoveSame(states[n], others[n], signal[n]);
      RunExtends(others, signal[..n], signal[n], Move(others[n], signal[n]).value);
      others := others + [Move(others[n], signal[n]).value];
      assert signal[..n] + [signal[n]] == signal;
    }
  }

  lemma RunPrefix(states: seq<State>, signal: Signal)
    requires IsRun(states, signal) && |signal| > 0
    ensures IsRun(states[..|signal|], signal[..|signal| - 1])
  {
    forall k | 0 <= k < |signal| - 1
      ensures Follows(states[..|signal|][k], signal[..|signal| - 1][k], states[..|signal|][k + 1])
    {
      assert Follows(states[k], signal[k], states[k + 1]);
    }
  }

  lemma RunExtends(states: seq<State>, signal: Signal, e: Event, g: State)
    requires IsRun(states, signal) && Follows(states[|signal|], e, g)
    ensures IsRun(states + [g], signal + [e])
  {
    forall k | 0 <= k < |signal| + 1
      ensures Follows((states + [g])[k], (signal + [e])[k], (states + [g])[k + 1])
    {
      if k < |signal| { assert Follows(states[k], signal[k], states[k + 1]); }
    }
  }

  lemma SameCanRun(f: State, g: State, signal: Signal)
    requires Same(f, g) && CanRun(f, signal)
    ensures CanRun(g, signal)
  {
    var states :| IsRun(states, signal) && states[0] == f;
    var others := SameRun(states, g, signal);
  }

  lemma SameActsLike(f: State, g: State)
    requires Same(f, g)
    ensures ActsLike(f, g)
  {
    forall signal
      ensures CanRun(f, signal) <==> CanRun(g, signal)
    {
      if CanRun(f, signal) { SameCanRun(f, g, signal); }
      if CanRun(g, signal) { SameCanRun(g, f, signal); }
    }
    forall states: seq<State>, others: seq<State>, signal: Signal, k: nat |
      && IsRun(states, signal) && IsRun(others, signal) && states[0] == f && others[0] == g
      && 0 < k <= |signal| && signal[k - 1].Sample?
      ensures states[k].x.s == others[k].x.s
    {
      SameMeet(states, others, signal, k);
    }
  }

  /** The cutoff for a step of height e after a zero. */
  function StepCutoff(freq: real, p: Params, e: real): real
    requires freq > 0.0
  {
    p.minCutoff + Times(p.beta, Times(Alpha(freq, p.dCutoff), Times(e, freq)))
  }

  ghost predicate Empty(f: State) { Ready(f) && !f.x.initialized && !f.dx.initialized }

  /** The values 0 and e without stamps: the second output is e times a factor. */
  lemma SecondOutput(f: State, e: real) returns (states: seq<State>)
    requires Empty(f) && e > 0.0 && StepCutoff(f.freq, f.params, e) > 0.0
    ensures IsRun(states, [Sample(0.0, None), Sample(e, None)]) && states[0] == f
    ensures states[2].x.s == Times(Alpha(f.freq, StepCutoff(f.freq, f.params, e)), e)
  {
    var a := Alpha(f.freq, f.params.dCutoff);
    AlphaInRange(f.freq, f.params.dCutoff);
    AlphaInRange(f.freq, f.params.minCutoff);
    assert Times(f.params.beta, Abs(0.0)) == 0.0;
    var g := Step(f, 0.0, None).value;
    assert g.x == LowPass(0.0, g.x.a, 0.0, true) && g.dx == LowPass(0.0, g.dx.a, 0.0, true) && g.freq == f.freq;
    PositiveProduct(e, f.freq);
    PositiveProduct(a, Times(e, f.freq));
    assert Speed(g, e, f.freq) == Times(e, f.freq);
    MixFromZero(a, Times(e, f.freq));
    var cutoff := StepCutoff(f.freq, f.params, e);
    AlphaInRange(f.freq, cutoff);
    MixFromZero(Alpha(f.freq, cutoff), e);
    var h := Step(g, e, None).value;
    assert Follows(f, Sample(0.0, None), g) && Follows(g, Sample(e, None), h);
    states := [f, g, h];
  }

  lemma MixFromZero(a: real, v: real)
    ensures Mix(a, v, 0.0) == Times(a, v)
  {
  }

  /** A height of the step that keeps both cutoffs positive and in the order of the frequencies. */
  lemma TellingHeight(f: real, g: real, p: Params) returns (e: real)
    requires 0.0 < f < g && p.minCutoff > 0.0 && p.dCutoff > 0.0
    ensures e > 0.0 && StepCutoff(f, p, e) > 0.0 && StepCutoff(g, p, e) > 0.0
    ensures Times(StepCutoff(g, p, e), f) < Times(StepCutoff(f, p, e), g)
  {
    var (a, b) := (Alpha(f, p.dCutoff), Alpha(g, p.dCutoff));
    AlphaInRange(f, p.dCutoff);
    AlphaInRange(g, p.dCutoff);
    ProductOrder(f, g, p.dCutoff);
    assert Times(p.dCutoff, f) == Times(f, p.dCutoff) && Times(p.dCutoff, g) == Times(g, p.dCutoff);
    AlphaOrder(f, p.dCutoff, g, p.dCutoff);
    if p.beta >= 0.0 {
      e := 1.0;
      RisingCutoffs(f, g, p.minCutoff, p.beta, a, b, e);
    } else {
      var room := if g - f < f then g - f else f;
      e := HeightFor(-p.beta, p.minCutoff, f, g, room);
      FallingCutoffs(f, g, p.minCutoff, p.beta, a, b, e, room);
    }
  }

  lemma HeightFor(slope: real, m: real, f: real, g: real, room: real) returns (e: real)
    requires slope > 0.0 && m > 0.0 && 0.0 < f < g && room > 0.0
    ensures e > 0.0 && Times(Times(slope, e), Times(f, g)) == Times(m, room)
  {
    PositiveProduct(f, g);
    PositiveProduct(slope, Times(f, g));
    PositiveProduct(m, room);
    var w := Times(slope, Times(f, g));
    e := Times(m, room) / w;
    assert e * w == Times(m, room);
    assert e > 0.0;
    assert Times(Times(slope, e), Times(f, g)) == e * w;
  }

  lemma RisingCutoffs(f: real, g: real, m: real, beta: real, a: real, b: real, e: real)
    requires 0.0 < f < g && m > 0.0 && beta >= 0.0 && 0.0 < b < a && e > 0.0
    ensures m + Times(beta, Times(a, Times(e, f))) > 0.0 && m + Times(beta, Times(b, Times(e, g))) > 0.0
    ensures Times(m + Times(beta, Times(b, Times(e, g))), f) < Times(m + Times(beta, Times(a, Times(e, f))), g)
  {
    var w := Times(Times(beta, e), Times(f, g));
    NotNegative(beta, e);
    NotNegative(f, g);
    NotNegative(Times(beta, e), Times(f, g));
    NotNegative(w, a - b);
    NotNegative(e, f);
    NotNegative(e, g);
    NotNegative(a, Times(e, f));
    NotNegative(b, Times(e, g));
    NotNegative(beta, Times(a, Times(e, f)));
    NotNegative(beta, Times(b, Times(e, g)));
    PositiveProduct(m, g - f);
    CutoffGap(f, g, m, beta, a, b, e);
  }

  /** How far apart the two cutoffs are, each weighed with the other frequency. */
  lemma CutoffGap(f: real, g: real, m: real, beta: real, a: real, b: real, e: real)
    ensures Times(m + Times(beta, Times(a, Times(e, f))), g) - Times(m + Times(beta, Times(b, Times(e, g))), f)
         == Times(m, g - f) + Times(Times(Times(beta, e), Times(f, g)), a - b)
  {
    var w := Times(Times(beta, e), Times(f, g));
    assert Times(m + Times(beta, Times(a, Times(e, f))), g) == m * g + w * a;
    assert Times(m + Times(beta, Times(b, Times(e, g))), f) == m * f + w * b;
  }

  lemma FallingCutoffs(f: real, g: real, m: real, beta: real, a: real, b: real, e: real, room: real)
    requires 0.0 < f < g && m > 0.0 && beta < 0.0 && 0.0 < b < a < 1.0 && e > 0.0
    requires 0.0 < room <= f && room <= g - f && Times(Times(-beta, e), Times(f, g)) == Times(m, room)
    ensures m + Times(beta, Times(a, Times(e, f))) > 0.0 && m + Times(beta, Times(b, Times(e, g))) > 0.0
    ensures Times(m + Times(beta, Times(b, Times(e, g))), f) < Times(m + Times(beta, Times(a, Times(e, f))), g)
  {
    PositiveProduct(m, room);
    RoomIsEnough(m, room, f);
    RoomIsEnough(m, room, g);
    RoomIsEnough(m, room, g - f);
    CutoffAbove(f, g, m, beta, a, e, Times(m, room));
    CutoffAbove(g, f, m, beta, b, e, Times(m, room));
    CutoffGap(f, g, m, beta, a, b, e);
    SlopeSign(beta, e, f, g, a - b);
    PartOf(a - b, Times(m, room));
  }

  lemma PartOf(a: real, w: real)
    requires 0.0 < a < 1.0 && w > 0.0
    ensures Times(w, a) < w
  {
    PositiveProduct(w, 1.0 - a);
    assert Times(w, 1.0 - a) == w - Times(w, a);
  }

  lemma SlopeSign(beta: real, e: real, f: real, g: real, a: real)
    ensures Times(Times(Times(beta, e), Times(f, g)), a) == -Times(Times(Times(-beta, e), Times(f, g)), a)
    ensures Times(Times(-beta, e), Times(f, g)) == Times(Times(-beta, e), Times(g, f))
  {
  }

  /** A cutoff stays positive if the other frequency weighs what beta can take from it. */
  lemma CutoffAbove(f: real, g: real, m: real, beta: real, a: real, e: real, w: real)
    requires g > 0.0 && 0.0 < a < 1.0 && w == Times(Times(-beta, e), Times(f, g)) && 0.0 < w <= Times(m, g)
    ensures m + Times(beta, Times(a, Times(e, f))) > 0.0
  {
    var cutoff := m + Times(beta, Times(a, Times(e, f)));
    WeighedCutoff(f, g, m, beta, a, e);
    PartOf(a, w);
    PositiveFactor(cutoff, g);
  }

  lemma WeighedCutoff(f: real, g: real, m: real, beta: real, a: real, e: real)
    ensures Times(m + Times(beta, Times(a, Times(e, f))), g) ==
              Times(m, g) - Times(Times(Times(-beta, e), Times(f, g)), a)
  {
  }

  lemma RoomIsEnough(m: real, room: real, whole: real)
    requires m > 0.0 && room <= whole
    ensures Times(m, room) <= Times(m, whole)
  {
    NotNegative(m, whole - room);
    assert Times(m, whole) == Times(m, room) + Times(m, whole - room);
  }

  lemma PositiveFactor(x: real, k: real)
    requires k > 0.0 && Times(x, k) > 0.0
    ensures x > 0.0
  {
    ProductOrder(0.0, x, k);
    assert Times(0.0, k) == 0.0;
  }

  /** Empty filters of different frequency can be told apart, whatever beta is. */
  lemma FrequencyShows(f: State, g: State)
    requires Empty(f) && Empty(g) && f.params == g.params && f.freq < g.freq
    ensures !ActsLike(f, g) && !ActsLike(g, f)
  {
    var e := TellingHeight(f.freq, g.freq, f.params);
    var states := SecondOutput(f, e);
    var others := SecondOutput(g, e);
    var (a, b) := (Alpha(f.freq, StepCutoff(f.freq, f.params, e)), Alpha(g.freq, StepCutoff(g.freq, g.params, e)));
    AlphaOrder(f.freq, StepCutoff(f.freq, f.params, e), g.freq, StepCutoff(g.freq, g.params, e));
    ProductOrder(b, a, e);
    assert states[2].x.s != others[2].x.s;
    var signal: Signal := [Sample(0.0, None), Sample(e, None)];
    assert IsRun(states, signal) && IsRun(others, signal) && |signal| == 2 && signal[1].Sample?;
  }

  predicate Stamped(e: Event) { e.Sample? && e.stamp.Some? }

  /** The time between the last two values that both had a stamp, with nothing in between. */
  function LastGap(past: Signal): Option<real>
  {
    var n := |past|;
    if n < 2 then None
    else if Stamped(past[n - 1]) && Stamped(past[n - 2]) then Some(past[n - 1].stamp.value - past[n - 2].stamp.value)
    else LastGap(past[..n - 1])
  }

  /** The stamps have left the frequency as it was set. */
  predicate RateKept(past: Signal, freq: real) { LastGap(past).None? || Times(LastGap(past).value, freq) == 1.0 }

  /** The stamp the filter remembers after an event. */
  function Remembered(e: Event): Option<real> { if e.Sample? then e.stamp else None }

  lemma MoveFrequency(f: State, e: Event, g: State)
    requires Follows(f, e, g)
    ensures g.last == Remembered(e)
    ensures Gap(f, Remembered(e)).Some? ==> Gap(f, Remembered(e)).value > 0.0
    ensures g.freq == if Gap(f, Remembered(e)).Some? then 1.0 / Gap(f, Remembered(e)).value else f.freq
  {
    if e.Sample? { StepReady(f, e.v, e.stamp); }
  }

  lemma {:induction false} FrequencyFromGap(states: seq<State>, past: Signal, k: nat)
    requires IsRun(states, past) && Ready(states[0]) && states[0].last.None? && k <= |past|
    ensures states[k].last == if k == 0 then None else Remembered(past[k - 1])
    ensures LastGap(past[..k]).Some? ==> LastGap(past[..k]).value > 0.0
    ensures states[k].freq == if LastGap(past[..k]).None? then states[0].freq else 1.0 / LastGap(past[..k]).value
    decreases k
  {
    if k > 0 {
      FrequencyFromGap(states, past, k - 1);
      MoveFrequency(states[k - 1], past[k - 1], states[k]);
      assert past[..k][..k - 1] == past[..k - 1];
    }
  }

  lemma RateIsFrequency(gap: real, freq: real)
    requires gap > 0.0
    ensures 1.0 / gap == freq <==> Times(gap, freq) == 1.0
  {
    assert 1.0 / gap * gap == 1.0;
    if Times(gap, freq) == 1.0 { assert Times(gap, freq - 1.0 / gap) == 0.0; }
  }

  /** For every filter and every past: after a reset it fails and puts out as a new filter does,
      on every signal, exactly if the stamps of the past have left the frequency as it was. */
  lemma ResetActsNewIff(freq: real, p: Params, before: seq<State>, past: Signal)
    requires IsRun(before, past) && Create(freq, p) == Some(before[0])
    ensures ActsLike(Reset(before[|past|]), before[0]) <==> RateKept(past, freq)
  {
    var (f, g) := (Reset(before[|past|]), before[0]);
    RunReady(before, past, |past|);
    FrequencyFromGap(before, past, |past|);
    assert past[..|past|] == past;
    if LastGap(past).Some? { RateIsFrequency(LastGap(past).value, freq); }
    if f.freq == g.freq {
      SameActsLike(f, g);
    } else if f.freq < g.freq {
      FrequencyShows(f, g);
    } else {
      FrequencyShows(g, f);
    }
  }

  /** For every filter two stamped values are enough for that: at half its frequency. */
  lemma StampsSpoilReset(freq: real, p: Params) returns (before: seq<State>, past: Signal)
    requires Create(freq, p).Some?
    ensures IsRun(before, past) && Create(freq, p) == Some(before[0]) && |past| == 2
    ensures past == [Sample(0.0, Some(0.0)), Sample(0.0, Some(2.0 / freq))] && !ActsLike(Reset(before[2]), before[0])
  {
    HalfRate(freq);
    before := TwoZeros(Create(freq, p).value, 2.0 / freq);
    past := [Sample(0.0, Some(0.0)), Sample(0.0, Some(2.0 / freq))];
    GapOfTwo(2.0 / freq);
    ResetActsNewIff(freq, p, before, past);
  }

  lemma HalfRate(freq: real)
    requires freq > 0.0
    ensures 2.0 / freq > 0.0 && Times(2.0 / freq, freq) == 2.0
  {
    assert 2.0 / freq * freq == 2.0;
  }

  lemma GapOfTwo(d: real)
    ensures LastGap([Sample(0.0, Some(0.0)), Sample(0.0, Some(d))]) == Some(d)
  {
  }

  lemma TwoZeros(f: State, d: real) returns (states: seq<State>)
    requires Ready(f) && f.last.None? && ZeroSoFar(f.x) && ZeroSoFar(f.dx) && d > 0.0
    ensures IsRun(states, [Sample(0.0, Some(0.0)), Sample(0.0, Some(d))]) && states[0] == f
  {
    var g := ZeroStep(f, Some(0.0));
    var h := ZeroStep(g, Some(d));
    states := [f, g, h];
  }

  /** A filter that has only seen zeros accepts another zero. */
  lemma ZeroStep(f: State, stamp: Option<real>) returns (g: State)
    requires Ready(f) && StampOk(f, stamp) && ZeroSoFar(f.x) && ZeroSoFar(f.dx)
    ensures Follows(f, Sample(0.0, stamp), g) && Ready(g) && ZeroSoFar(g.x) && ZeroSoFar(g.dx) && g.last == stamp
  {
    FrequencySign(f, stamp);
    var freq := Frequency(f, stamp);
    AlphaInRange(freq, f.params.dCutoff);
    AlphaInRange(freq, f.params.minCutoff);
    assert Speed(f, 0.0, freq) == 0.0;
    assert forall a :: Mix(a, 0.0, 0.0) == 0.0;
    assert Times(f.params.beta, Abs(0.0)) == 0.0;
    g := Step(f, 0.0, stamp).value;
  }

  ghost predicate ZeroSoFar(l: LowPass) { l.initialized ==> l.y == 0.0 && l.s == 0.0 }
}
