/** The One Euro filter as an object that owns two low-pass filters. */
module OneEuroFilter {
  import opened Collections
  import opened OneEuro
  import opened Sums

  class LowPassFilter {
    var y: real
    var a: real
    var s: real
    var initialized: bool

    ghost function Value(): LowPass
      reads this
    {
      LowPass(y, a, s, initialized)
    }

    constructor (alpha: real)
      requires InRange(alpha)
      ensures Value() == New(alpha)
    {
      y, s := 0.0, 0.0;
      a := alpha;
      initialized := false;
    }

    method Filter(value: real) returns (result: real)
      modifies this
      ensures Value() == LowPassStep(old(Value()), value) && result == s
    {
      if initialized {
        result := Times(a, value) + Times(1.0 - a, s);
      } else {
        result := value;
        initialized := true;
      }
      y := value;
      s := result;
    }

    /** None is the range error, which leaves the filter as it was. */
    method WithAlpha(value: real, alpha: real) returns (result: Option<real>)
      modifies this
      ensures var after := FilterWithAlpha(old(Value()), value, alpha);
              if after.None? then result.None? && Value() == old(Value())
              else Value() == after.value && result == Some(s)
    {
      if alpha <= 0.0 || alpha > 1.0 {
        return None;
      }
      a := alpha;
      var r := Filter(value);
      return Some(r);
    }

    method Reset()
      modifies this
      ensures Value() == old(Value()).(initialized := false)
    {
      initialized := false;
    }
  }

  class OneEuroFilter {
    const params: Params
    const x: LowPassFilter
    const dx: LowPassFilter
    var freq: real
    var last: Option<real>

    ghost function Value(): State
      reads this, x, dx
    {
      State(params, freq, x.Value(), dx.Value(), last)
    }

    ghost predicate Valid()
      reads this, x, dx
    {
      x != dx && Ready(Value())
    }

    /** The setters throw unless frequency and cutoffs are positive. */
    constructor (frequency: real, p: Params)
      requires Create(frequency, p).Some?
      ensures Valid() && fresh(x) && fresh(dx)
      ensures Value() == Create(frequency, p).value
    {
      AlphaInRange(frequency, p.minCutoff);
      AlphaInRange(frequency, p.dCutoff);
      params := p;
      freq := frequency;
      last := None;
      x := new LowPassFilter(Alpha(frequency, p.minCutoff));
      dx := new LowPassFilter(Alpha(frequency, p.dCutoff));
    }

    method Reset()
      requires Valid()
      modifies this, x, dx
      ensures Valid() && Value() == OneEuro.Reset(old(Value()))
    {
      x.Reset();
      dx.Reset();
      last := None;
    }

    /** None is the range error; the first factor may then already be in use.  After a stamp that
        is not later than the one before, the frequency is negative or infinite. */
    method Filter(value: real, stamp: Option<real>) returns (result: Option<real>)
      requires Valid()
      modifies this, x, dx
      ensures StampOk(old(Value()), stamp) ==> Valid()
      ensures var after := Step(old(Value()), value, stamp);
              if after.None? then result.None? else Value() == after.value && result == Some(after.value.x.s)
      ensures !StampOk(old(Value()), stamp) ==> result.None?
      ensures params.beta >= 0.0 && StampOk(old(Value()), stamp) ==> result.Some?
    {
      StepReady(Value(), value, stamp);
      var before := last;
      last := stamp;
      if before.Some? && stamp.Some? {
        if stamp.value == before.value {
          return None;
        }
        FrequencySign(old(Value()), stamp);
        freq := 1.0 / (stamp.value - before.value);
      }
      var speed := if x.initialized then Times(value - x.y, freq) else 0.0;
      var smoothed := dx.WithAlpha(speed, Alpha(freq, params.dCutoff));
      if smoothed.None? {
        return None;
      }
      var cutoff := params.minCutoff + Times(params.beta, Abs(smoothed.value));
      result := x.WithAlpha(value, Alpha(freq, cutoff));
    }
  }
}
