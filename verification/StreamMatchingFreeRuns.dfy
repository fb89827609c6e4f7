/** Runs of the matcher without the promise that a stream reports a frame only once. */
module StreamMatchingFreeRuns {
  import opened Collections
  import opened StreamMatching
  import opened StreamMatchingSafety

  // ----- runs in which packets may be repeated

  ghost predicate IsFreeStep(c: Config, s: State, a: Action, t: State)
  {
    Fits(c, s) && (a.Callback? ==> a.order < Outputs(c)) && LockFree(c, s, a) && t == Next(c, s, a)
  }

  ghost predicate StepAt(c: Config, states: seq<State>, actions: seq<Action>, k: nat)
    requires |states| == |actions| + 1 && k < |actions|
  {
    IsFreeStep(c, states[k], actions[k], states[k + 1])
  }

  ghost predicate IsFreeRun(c: Config, states: seq<State>, actions: seq<Action>)
  {
    && |states| == |actions| + 1 && states[0] == Init(c)
    && forall k: nat | k < |actions| :: StepAt(c, states, actions, k)
  }

  /** The packets of a frame are counted, and the slots they filled are marked. */
  ghost predicate Counted(c: Config, stream: Stream)
  {
    && |stream.slots| == Outputs(c) && (forall o | o in stream.bitmap :: o < Outputs(c))
    && (forall o | 0 <= o < Outputs(c) :: o in stream.bitmap <==> stream.slots[o].Some?)
    && |stream.bitmap| <= stream.count <= Outputs(c)
  }

  /** How many packets of the frame were repeats. */
  ghost function Repeats(stream: Stream): int { stream.count - |stream.bitmap| }

  ghost predicate CountedAll(c: Config, streams: seq<Stream>, fates: seq<Fate>)
  {
    && |fates| == |streams|
    && forall id | 0 <= id < |streams| ::
         Counted(c, streams[id]) && (fates[id].Finished? <==> streams[id].count == Outputs(c))
  }

  ghost predicate FreeBase(c: Config, s: State)
  {
    && WellFormed(c) && Fits(c, s)
    && Tracked(s.streams, s.fates, s.inflight)
    && CountedAll(c, s.streams, s.fates)
  }

  lemma ForgetFree(c: Config, s: State, stamp: int, fate: Fate)
    requires FreeBase(c, s) && !fate.InFlight? && !fate.Finished?
    ensures FreeBase(c, Forget(s, stamp, fate))
  {
    ForgetTracked(s, stamp, fate);
  }

  lemma {:induction false} EvictFree(c: Config, s: State)
    requires FreeBase(c, s)
    ensures FreeBase(c, Evict(s))
    decreases |s.inflight|
  {
    if |s.inflight| >= MAX_GLOBAL_DEPTH {
      var oldest := MinKey(s.inflight.Keys);
      ForgetFree(c, s, oldest, Evicted);
      EvictFree(c, Forget(s, oldest, Evicted));
    }
  }

  lemma {:induction false} FlowCleanFree(c: Config, s: State, stamp: int)
    requires FreeBase(c, s)
    ensures FreeBase(c, FlowClean(s, stamp))
    decreases |s.inflight|
  {
    if s.inflight.Keys != {} && MinKey(s.inflight.Keys) < stamp {
      var oldest := MinKey(s.inflight.Keys);
      ForgetFree(c, s, oldest, FlowDropped);
      FlowCleanFree(c, Forget(s, oldest, FlowDropped), stamp);
    }
  }

  lemma AdmitFree(c: Config, s: State, raw: nat, stamp: int)
    requires FreeBase(c, s) && stamp !in s.inflight
    ensures FreeBase(c, Admit(c, s, raw, stamp))
  {
    AdmitTracked(c, s, raw, stamp);
  }

  /** A packet is counted; a repeated one marks no new slot. */
  lemma FillCounted(c: Config, stream: Stream, order: nat, packet: Packet)
    requires Counted(c, stream) && order < Outputs(c) && stream.count < Outputs(c)
    ensures Counted(c, Fill(stream, order, packet))
    ensures Repeats(Fill(stream, order, packet)) == Repeats(stream) + if stream.slots[order].Some? then 1 else 0
  {
    if stream.slots[order].Some? {
      assert stream.bitmap + {order} == stream.bitmap;
    }
  }

  lemma InFlightNotFull(c: Config, s: State, stamp: int)
    requires FreeBase(c, s) && stamp in s.inflight
    ensures var id := s.inflight[stamp];
            id < |s.streams| && Counted(c, s.streams[id]) && s.streams[id].count < Outputs(c)
  {
    assert s.fates[s.inflight[stamp]].InFlight?;
  }

  lemma AbsorbFree(c: Config, s: State, packet: Packet, order: nat)
    requires FreeBase(c, s) && order < Outputs(c) && packet.stamp in s.inflight
    ensures FreeBase(c, Absorb(c, s, packet, order))
  {
    InFlightNotFull(c, s, packet.stamp);
    FillCounted(c, s.streams[s.inflight[packet.stamp]], order, packet);
    AbsorbTracked(c, s, packet, order);
  }

  lemma HandFree(c: Config, s: State, id: nat, order: nat)
    requires FreeBase(c, s) && id < |s.streams| && order < Outputs(c)
    ensures FreeBase(c, Hand(c, s, id, order))
  {
    HandEffect(c, s, id, order);
  }

  lemma CleanedFree(c: Config, s: State, stamp: int)
    requires FreeBase(c, s)
    ensures FreeBase(c, Cleaned(c, s, stamp))
  {
    FlowCleanFree(c, s, stamp);
  }

  lemma MatchFree(c: Config, s: State, packet: Packet, order: nat)
    requires FreeBase(c, s) && order < Outputs(c) && packet.stamp in s.inflight
    ensures FreeBase(c, Match(c, s, packet, order))
  {
    AbsorbFree(c, s, packet, order);
    HandFree(c, Absorb(c, s, packet, order), s.inflight[packet.stamp], order);
  }

  lemma LatestFree(c: Config, s: State, latest: seq<Option<int>>)
    requires FreeBase(c, s) && |latest| == |s.latest|
    ensures FreeBase(c, s.(latest := latest))
  {
  }

  lemma CallbackFree(c: Config, s: State, packet: Packet, order: nat)
    requires FreeBase(c, s) && order < Outputs(c)
    ensures FreeBase(c, CallbackStep(c, s, packet, order))
  {
    var s1 := if packet.stamp in s.inflight then Match(c, s, packet, order) else s;
    if packet.stamp in s.inflight { MatchFree(c, s, packet, order); }
    CleanedFree(c, s1, packet.stamp);
    var s2 := if s1.waiting != s.waiting then s1 else Cleaned(c, s1, packet.stamp);
    LatestFree(c, s2, s.latest[order := Some(packet.stamp)]);
  }

  lemma StepFree(c: Config, s: State, a: Action, t: State)
    requires FreeBase(c, s) && IsFreeStep(c, s, a, t)
    ensures FreeBase(c, t)
  {
    match a
    case Register(raw, stamp) =>
      if s.started && stamp !in s.inflight {
        AdmitFree(c, s, raw, stamp);
        EvictFree(c, Admit(c, s, raw, stamp));
      }
    case Clear(stamp) => ForgetFree(c, s, stamp, Cleared);
    case Callback(packet, order) => CallbackFree(c, s, packet, order);
    case Stop => if s.waiting.Some? { CleanedFree(c, Release(s), s.streams[s.handed[s.waiting.value].id].stamp); }
    case Get(_, _) =>
    case Start =>
  }

  lemma {:induction false} FreeRunBase(c: Config, states: seq<State>, actions: seq<Action>, n: nat)
    requires WellFormed(c) && IsFreeRun(c, states, actions) && n <= |actions|
    ensures FreeBase(c, states[n])
    decreases n
  {
    if n == 0 {
      InitInv(c);
    } else {
      FreeRunBase(c, states, actions, n - 1);
      assert StepAt(c, states, actions, n - 1);
      StepFree(c, states[n - 1], actions[n - 1], states[n]);
    }
  }

  lemma LastStep(c: Config, states: seq<State>, actions: seq<Action>, n: nat)
    requires WellFormed(c) && IsFreeRun(c, states, actions) && 0 < n <= |actions|
    ensures FreeBase(c, states[n - 1]) && FreeBase(c, states[n])
    ensures IsFreeStep(c, states[n - 1], actions[n - 1], states[n])
  {
    FreeRunBase(c, states, actions, n - 1);
    FreeRunBase(c, states, actions, n);
    assert StepAt(c, states, actions, n - 1);
  }

  // ----- what one step does to frames and hand-overs

  /** The packet of the action goes to frame id. */
  ghost predicate Reaches(s: State, a: Action, id: nat)
  {
    && a.Callback? && a.packet.stamp in s.inflight && s.inflight[a.packet.stamp] == id
    && id < |s.streams| && a.order < |s.streams[id].slots|
  }

  /** A stream that has reported the frame reports it again. */
  ghost predicate RepeatsFrame(s: State, a: Action, id: nat)
  {
    Reaches(s, a, id) && s.streams[id].slots[a.order].Some?
  }

  /** The same hand-overs, but for their outcomes. */
  ghost predicate SameHandoffs(before: seq<Handoff>, after: seq<Handoff>)
  {
    |after| == |before| && forall k | 0 <= k < |before| :: after[k] == before[k].(outcome := after[k].outcome)
  }

  ghost predicate OneMore(before: seq<Handoff>, after: seq<Handoff>, id: nat, order: nat, group: nat,
                          slots: seq<Option<Packet>>)
  {
    && |after| == |before| + 1 && SameHandoffs(before, after[..|before|])
    && after[|before|].id == id && after[|before|].order == order && after[|before|].group == group
    && after[|before|].slots == slots
  }

  /** Frame id got the packet and became `stream`; it was handed over if the test says so. */
  ghost predicate GotPacket(c: Config, s: State, t: State, id: nat, order: nat, stream: Stream)
    requires order < |c.groups| && order < |c.bitmaps|
  {
    && id < |s.streams| && t.streams == s.streams[id := stream]
    && if Publishes(c, stream, order) then OneMore(s.handed, t.handed, id, order, c.groups[order], stream.slots)
       else SameHandoffs(s.handed, t.handed)
  }

  /** No frame got a packet; at most a new one was added. */
  ghost predicate GotNone(c: Config, s: State, t: State)
  {
    && SameHandoffs(s.handed, t.handed)
    && (|| t.streams == s.streams
        || (|t.streams| == |s.streams| + 1 && s.streams <= t.streams && IsEmpty(c, t.streams[|s.streams|])))
  }

  predicate IsEmpty(c: Config, stream: Stream)
  {
    stream.count == 0 && stream.bitmap == {} && stream.slots == seq(Outputs(c), _ => None)
  }

  lemma CallbackEffectFree(c: Config, s: State, packet: Packet, order: nat)
    requires Fits(c, s) && Tracked(s.streams, s.fates, s.inflight) && order < Outputs(c) && packet.stamp in s.inflight
    ensures var id := s.inflight[packet.stamp];
            GotPacket(c, s, CallbackStep(c, s, packet, order), id, order, Fill(s.streams[id], order, packet))
  {
    var id := s.inflight[packet.stamp];
    var a := Absorb(c, s, packet, order);
    CleanedFrame(c, Match(c, s, packet, order), packet.stamp);
    AbsorbTracked(c, s, packet, order);
    AbsorbEffect(c, s, packet, order);
    if Publishes(c, a.streams[id], order) { HandEffect(c, a, id, order); }
  }

  lemma StepEffect(c: Config, s: State, a: Action, t: State)
    requires FreeBase(c, s) && IsFreeStep(c, s, a, t)
    ensures if a.Callback? && a.packet.stamp in s.inflight
            then var id := s.inflight[a.packet.stamp];
                 GotPacket(c, s, t, id, a.order, Fill(s.streams[id], a.order, a.packet))
            else GotNone(c, s, t)
  {
    match a
    case Register(raw, stamp) => if s.started && stamp !in s.inflight { EvictFrame(Admit(c, s, raw, stamp)); }
    case Callback(packet, order) =>
      if packet.stamp in s.inflight {
        CallbackEffectFree(c, s, packet, order);
      } else {
        CleanedFrame(c, s, packet.stamp);
      }
    case Stop => if s.waiting.Some? { CleanedFrame(c, Release(s), s.streams[s.handed[s.waiting.value].id].stamp); }
    case Clear(_) =>
    case Get(_, _) =>
    case Start =>
  }
}
