/** Callers that ask the memory pool for new memory at the same time: the size is tested before
    the lock is taken, and added under it. */
module MemoryPoolRace {
  import opened MemoryPool

  /** The cache size, and the sizes of the requests that have passed the test and not been added. */
  datatype Race = Race(size: nat, passed: seq<nat>)

  datatype Step = Test(asked: nat) | Add(i: nat)

  function Without(sizes: seq<nat>, i: nat): seq<nat>
    requires i < |sizes|
  {
    sizes[..i] + sizes[i + 1..]
  }

  function Move(limit: nat, r: Race, step: Step): Race
    requires step.Add? ==> step.i < |r.passed|
  {
    match step
    case Test(asked) => if (r.size + asked) % TWO_64 > limit then r else r.(passed := r.passed + [asked])
    case Add(i) => Race((r.size + r.passed[i]) % TWO_64, Without(r.passed, i))
  }

  /** So many callers at once, and none asks for more than the most. */
  ghost predicate Follows(limit: nat, callers: nat, most: nat, r: Race, step: Step, r': Race)
  {
    && (if step.Test? then |r.passed| < callers && step.asked <= most else step.i < |r.passed|)
    && r' == Move(limit, r, step)
  }

  ghost predicate IsRun(limit: nat, callers: nat, most: nat, steps: seq<Step>, states: seq<Race>)
  {
    && |states| == |steps| + 1 && states[0] == Race(0, [])
    && forall k | 0 <= k < |steps| :: Follows(limit, callers, most, states[k], steps[k], states[k + 1])
  }

  // ----- how far the limit can be passed

  lemma {:induction false} TotalWithout(sizes: seq<nat>, i: nat)
    requires i < |sizes|
    ensures Total(sizes) == Total(Without(sizes, i)) + sizes[i]
  {
    var n := |sizes| - 1;
    if i == n {
      assert Without(sizes, i) == sizes[..n];
    } else {
      TotalWithout(sizes[..n], i);
      assert Without(sizes, i)[..n - 1] == Without(sizes[..n], i);
    }
  }

  /** What the callers ask for if each asks for the most. */
  function AsMuch(callers: nat, most: nat): nat { if callers == 0 then 0 else AsMuch(callers - 1, most) + most }

  lemma {:induction false} MoreCallers(callers: nat, others: nat, most: nat)
    requires callers <= others
    ensures AsMuch(callers, most) <= AsMuch(others, most)
    decreases others
  {
    if callers < others { MoreCallers(callers, others - 1, most); }
  }

  lemma {:induction false} TotalAtMost(sizes: seq<nat>, most: nat)
    requires forall i | 0 <= i < |sizes| :: sizes[i] <= most
    ensures Total(sizes) <= AsMuch(|sizes|, most)
  {
    if sizes != [] {
      TotalAtMost(sizes[..|sizes| - 1], most);
      MoreCallers(|sizes| - 1, |sizes|, most);
    }
  }

  ghost predicate Within(limit: nat, callers: nat, most: nat, r: Race)
    requires callers > 0
  {
    && |r.passed| <= callers && (forall i | 0 <= i < |r.passed| :: r.passed[i] <= most)
    && r.size + Total(r.passed) <= limit + AsMuch(callers - 1, most)
  }

  /** Sums below 2^64 do not wrap. */
  lemma NoWrap(size: nat, more: nat)
    requires size + more < TWO_64
    ensures (size + more) % TWO_64 == size + more
  {
  }

  lemma TestWithin(limit: nat, callers: nat, most: nat, r: Race, asked: nat)
    requires callers > 0 && limit + AsMuch(callers, most) < TWO_64 && Within(limit, callers, most, r)
    requires |r.passed| < callers && asked <= most && r.size + asked <= limit
    ensures Within(limit, callers, most, r.(passed := r.passed + [asked]))
  {
    assert (r.passed + [asked])[..|r.passed|] == r.passed;
    TotalAtMost(r.passed, most);
    MoreCallers(|r.passed|, callers - 1, most);
  }

  lemma AddWithin(limit: nat, callers: nat, most: nat, r: Race, i: nat)
    requires callers > 0 && Within(limit, callers, most, r) && i < |r.passed|
    ensures Within(limit, callers, most, Race(r.size + r.passed[i], Without(r.passed, i)))
  {
    TotalWithout(r.passed, i);
  }

  lemma MoveWithin(limit: nat, callers: nat, most: nat, r: Race, step: Step, r': Race)
    requires callers > 0 && limit + AsMuch(callers, most) < TWO_64 && Within(limit, callers, most, r)
    requires Follows(limit, callers, most, r, step, r')
    ensures Within(limit, callers, most, r')
  {
    match step
    case Test(asked) =>
      NoWrap(r.size, asked);
      if r.size + asked <= limit { TestWithin(limit, callers, most, r, asked); }
    case Add(i) =>
      TotalWithout(r.passed, i);
      NoWrap(r.size, r.passed[i]);
      AddWithin(limit, callers, most, r, i);
  }

  /** In every interleaving the cache size exceeds the limit by at most one greatest request for
      each further caller at a time. */
  lemma {:induction false} OvershootBound(limit: nat, callers: nat, most: nat, steps: seq<Step>, states: seq<Race>,
                                          k: nat)
    requires callers > 0 && limit + AsMuch(callers, most) < TWO_64
    requires IsRun(limit, callers, most, steps, states) && k <= |steps|
    ensures Within(limit, callers, most, states[k]) && states[k].size <= limit + AsMuch(callers - 1, most)
    decreases k
  {
    if k > 0 {
      OvershootBound(limit, callers, most, steps, states, k - 1);
      assert Follows(limit, callers, most, states[k - 1], steps[k - 1], states[k]);
      MoveWithin(limit, callers, most, states[k - 1], steps[k - 1], states[k]);
    }
  }

  /** All callers pass the test, one after the other, and then all sizes are added. */
  function Together(callers: nat, most: nat, k: nat): Race
    requires k <= 2 * callers
  {
    if k <= callers then Race(0, seq(k, _ => most))
    else Race(AsMuch(k - callers, most), seq(2 * callers - k, _ => most))
  }

  function TogetherSteps(callers: nat, most: nat): seq<Step>
  {
    seq(2 * callers, k => if k < callers then Test(most) else Add(0))
  }

  lemma TogetherTests(callers: nat, most: nat, k: nat)
    requires k < callers && AsMuch(callers, most) < TWO_64
    ensures Follows(most, callers, most, Together(callers, most, k), Test(most), Together(callers, most, k + 1))
  {
    MoreCallers(1, callers, most);
    assert AsMuch(1, most) == AsMuch(0, most) + most;
    NoWrap(0, most);
    assert seq(k, _ => most) + [most] == seq(k + 1, _ => most);
  }

  lemma TogetherAdds(callers: nat, most: nat, k: nat)
    requires callers <= k < 2 * callers && AsMuch(callers, most) < TWO_64
    ensures Follows(most, callers, most, Together(callers, most, k), Add(0), Together(callers, most, k + 1))
  {
    MoreCallers(k + 1 - callers, callers, most);
    NoWrap(AsMuch(k - callers, most), most);
    assert Without(seq(2 * callers - k, _ => most), 0) == seq(2 * callers - k - 1, _ => most);
  }

  /** With the greatest request at the limit, any number of callers reaches that bound. */
  lemma OvershootReached(callers: nat, most: nat) returns (steps: seq<Step>, states: seq<Race>)
    requires callers > 0 && AsMuch(callers, most) < TWO_64
    ensures IsRun(most, callers, most, steps, states)
    ensures states[|steps|].size == most + AsMuch(callers - 1, most)
  {
    steps := TogetherSteps(callers, most);
    states := seq(2 * callers + 1, k requires 0 <= k <= 2 * callers => Together(callers, most, k));
    forall k | 0 <= k < |steps|
      ensures Follows(most, callers, most, states[k], steps[k], states[k + 1])
    {
      if k < callers { TogetherTests(callers, most, k); } else { TogetherAdds(callers, most, k); }
    }
  }

  /** Fewer callers at once are fewer interleavings. */
  lemma MoreAtOnce(limit: nat, callers: nat, others: nat, most: nat, steps: seq<Step>, states: seq<Race>)
    requires IsRun(limit, callers, most, steps, states) && callers <= others
    ensures IsRun(limit, others, most, steps, states)
  {
    forall k | 0 <= k < |steps|
      ensures Follows(limit, others, most, states[k], steps[k], states[k + 1])
    {
      assert Follows(limit, callers, most, states[k], steps[k], states[k + 1]);
    }
  }

  ghost predicate LimitKept(callers: nat)
  {
    forall limit: nat, most: nat, steps: seq<Step>, states: seq<Race> |
      limit + AsMuch(callers, most) < TWO_64 && IsRun(limit, callers, most, steps, states) ::
      states[|steps|].size <= limit
  }

  /** The limit holds in every interleaving exactly if no two callers are in a request at once. */
  lemma LimitKeptIffSerial(callers: nat)
    requires callers > 0 && AsMuch(callers, 1) < TWO_64 - 1
    ensures LimitKept(callers) <==> callers == 1
  {
    if callers == 1 {
      forall limit: nat, most: nat, steps: seq<Step>, states: seq<Race> |
        limit + AsMuch(callers, most) < TWO_64 && IsRun(limit, callers, most, steps, states)
        ensures states[|steps|].size <= limit
      {
        OvershootBound(limit, callers, most, steps, states, |steps|);
      }
    } else {
      assert AsMuch(2, 1) == AsMuch(1, 1) + 1 && AsMuch(1, 1) == AsMuch(0, 1) + 1;
      var steps, states := OvershootReached(2, 1);
      MoreAtOnce(1, 2, callers, 1, steps, states);
      assert states[|steps|].size > 1;
    }
  }
}
