/** What the output queues hold: the order of the frames, which frames, and the wait for room. */
module StreamMatchingQueues {
  import opened Collections
  import opened StreamMatching
  import opened StreamMatchingSafety

  // ----- newest first

  /** A filled slot is no newer than the latest packet of its stream. */
  ghost predicate LatestOk(c: Config, streams: seq<Stream>, latest: seq<Option<int>>)
  {
    && |latest| == Outputs(c)
    && forall id, o | 0 <= id < |streams| && 0 <= o < Outputs(c) && o < |streams[id].slots|
         && streams[id].slots[o].Some? ::
         latest[o].Some? && streams[id].stamp <= latest[o].value
  }

  ghost predicate NewestFirst(streams: seq<Stream>, queue: seq<nat>)
  {
    && (forall i | 0 <= i < |queue| :: queue[i] < |streams|)
    && (forall i, j | 0 <= i < j < |queue| :: streams[queue[i]].stamp > streams[queue[j]].stamp)
  }

  ghost predicate AllNewestFirst(streams: seq<Stream>, queues: seq<seq<nat>>)
  {
    forall g | 0 <= g < |queues| :: NewestFirst(streams, queues[g])
  }

  ghost predicate Ordered(c: Config, s: State)
  {
    LatestOk(c, s.streams, s.latest) && AllNewestFirst(s.streams, s.queues)
  }

  /** Every output stream delivers its packets in the order of their stamps. */
  ghost predicate InOrder(c: Config, s: State, a: Action)
    requires Fits(c, s)
  {
    a.Callback? ==> a.order < Outputs(c) && (s.latest[a.order].Some? ==> s.latest[a.order].value < a.packet.stamp)
  }

  /** In-order streams cannot report a frame twice. */
  lemma InOrderEnabled(c: Config, s: State, a: Action)
    requires Inv(c, s) && Ordered(c, s) && InOrder(c, s, a) && LockFree(c, s, a)
    ensures Enabled(c, s, a)
  {
    if a.Callback? && a.packet.stamp in s.inflight {
      var id := s.inflight[a.packet.stamp];
      assert s.streams[id].stamp == a.packet.stamp;
    }
  }

  /** The order of a queue depends on the stamps only, which never change. */
  ghost predicate SameStamps(streams: seq<Stream>, after: seq<Stream>)
  {
    |after| >= |streams| && forall i | 0 <= i < |streams| :: after[i].stamp == streams[i].stamp
  }

  lemma StampsKept(streams: seq<Stream>, after: seq<Stream>, queues: seq<seq<nat>>)
    requires AllNewestFirst(streams, queues) && SameStamps(streams, after)
    ensures AllNewestFirst(after, queues)
  {
    forall g | 0 <= g < |queues|
      ensures NewestFirst(after, queues[g])
    {
      assert NewestFirst(streams, queues[g]);
    }
  }

  lemma NextOrdered(c: Config, s: State, a: Action)
    requires Inv(c, s) && Ordered(c, s) && InOrder(c, s, a) && LockFree(c, s, a)
    ensures Ordered(c, Next(c, s, a))
  {
    InOrderEnabled(c, s, a);
    match a
    case Register(raw, stamp) =>
      EvictFrame(Admit(c, s, raw, stamp));
      StampsKept(s.streams, Admit(c, s, raw, stamp).streams, s.queues);
    case Callback(packet, order) => CallbackOrdered(c, s, packet, order);
    case Get(group, reuse) => GetOrdered(s, group, reuse);
    case Stop => if s.waiting.Some? { CleanedFrame(c, Release(s), s.streams[s.handed[s.waiting.value].id].stamp); }
    case Start =>
    case Clear(_) =>
  }

  lemma GetOrdered(s: State, group: nat, reuse: bool)
    requires AllNewestFirst(s.streams, s.queues)
    ensures AllNewestFirst(GetStep(s, group, reuse).streams, GetStep(s, group, reuse).queues)
  {
    var t := GetStep(s, group, reuse);
    forall g | 0 <= g < |t.queues|
      ensures NewestFirst(t.streams, t.queues[g])
    {
      assert NewestFirst(s.streams, s.queues[g]);
    }
  }

  lemma CallbackOrdered(c: Config, s: State, packet: Packet, order: nat)
    requires Inv(c, s) && Ordered(c, s)
    requires InOrder(c, s, Callback(packet, order)) && Enabled(c, s, Callback(packet, order))
    ensures Ordered(c, CallbackStep(c, s, packet, order))
  {
    var t := CallbackStep(c, s, packet, order);
    LastCallbackHands(c, s, packet, order);
    if packet.stamp in s.inflight {
      var id := s.inflight[packet.stamp];
      EffectQueues(c, s, t, id, order, Fill(s.streams[id], order, packet));
      CallbackQueues(c, s, t, packet, order);
    }
    LatestAdvances(c, s.streams, t.streams, s.latest, order, packet);
  }

  /** What a callback may do to the queues: put its frame in front of those of its group. */
  lemma EffectQueues(c: Config, s: State, t: State, id: nat, order: nat, stream: Stream)
    requires Fits(c, s) && order < Outputs(c) && id < |s.streams| && c.cleaning[c.groups[order]].depth >= 1
    requires CallbackEffect(c, s, t, id, order, stream)
    ensures Pushed(s.queues, t.queues, c.groups[order], id)
  {
  }

  ghost predicate Pushed(queues: seq<seq<nat>>, after: seq<seq<nat>>, g: nat, id: nat)
  {
    || after == queues
    || (g < |queues| && exists kept: nat :: kept <= |queues[g]| && after == queues[g := [id] + queues[g][..kept]])
  }

  lemma CallbackQueues(c: Config, s: State, t: State, packet: Packet, order: nat)
    requires Inv(c, s) && Ordered(c, s) && InOrder(c, s, Callback(packet, order)) && packet.stamp in s.inflight
    requires SameStamps(s.streams, t.streams) && Pushed(s.queues, t.queues, c.groups[order], s.inflight[packet.stamp])
    ensures AllNewestFirst(t.streams, t.queues)
  {
    var (id, g) := (s.inflight[packet.stamp], c.groups[order]);
    assert s.streams[id].stamp == packet.stamp;
    StampsKept(s.streams, t.streams, s.queues);
    forall i | 0 <= i < |s.queues[g]|
      ensures s.queues[g][i] < |s.streams| && s.streams[s.queues[g][i]].stamp < packet.stamp
    {
      QueuedIsOlder(c, s, order, i);
    }
    PushedNewestFirst(t.streams, s.queues, t.queues, g, id);
  }

  lemma LatestAdvances(c: Config, streams: seq<Stream>, after: seq<Stream>, latest: seq<Option<int>>, order: nat,
                       packet: Packet)
    requires LatestOk(c, streams, latest) && order < Outputs(c)
    requires latest[order].Some? ==> latest[order].value < packet.stamp
    requires after == streams ||
             (exists id :: 0 <= id < |streams| && order < |streams[id].slots| &&
                           streams[id].stamp == packet.stamp
                             && after == streams[id := Fill(streams[id], order, packet)])
    ensures LatestOk(c, after, latest[order := Some(packet.stamp)])
  {
  }

  /** A queued frame already holds the packet of every stream of its group. */
  lemma QueuedIsOlder(c: Config, s: State, order: nat, i: nat)
    requires Inv(c, s) && Ordered(c, s) && order < Outputs(c)
    requires c.groups[order] < |s.queues| && i < |s.queues[c.groups[order]]|
    ensures var q := s.queues[c.groups[order]][i];
            q < |s.streams| && s.latest[order].Some? && s.streams[q].stamp <= s.latest[order].value
  {
    var g := c.groups[order];
    assert QueueOk(s.queues[g], c.cleaning[g].depth, s.handed, g);
    var q := s.queues[g][i];
    assert WasPublished(s.handed, q, g);
    var k :| 0 <= k < |s.handed| && s.handed[k].id == q && s.handed[k].group == g;
    assert HandoffOk(c, s.streams, s.handed[k]);
  }

  lemma PushedNewestFirst(streams: seq<Stream>, queues: seq<seq<nat>>, after: seq<seq<nat>>, g: nat, id: nat)
    requires AllNewestFirst(streams, queues) && g < |queues| && id < |streams| && Pushed(queues, after, g, id)
    requires forall i | 0 <= i < |queues[g]| ::
               queues[g][i] < |streams| && streams[queues[g][i]].stamp < streams[id].stamp
    ensures AllNewestFirst(streams, after)
  {
    forall h | 0 <= h < |after|
      ensures NewestFirst(streams, after[h])
    {
      assert NewestFirst(streams, queues[h]);
    }
  }

  ghost predicate IsOrderedRun(c: Config, s: State, actions: seq<Action>, t: State)
    decreases |actions|
  {
    if actions == [] then t == s
    else
      && Fits(c, s) && InOrder(c, s, actions[0]) && LockFree(c, s, actions[0])
      && IsOrderedRun(c, Next(c, s, actions[0]), actions[1..], t)
  }

  /** When every stream delivers in order, all queues stay strictly newest first. */
  lemma {:induction false} QueuesNewestFirst(c: Config, s: State, actions: seq<Action>, t: State)
    requires Inv(c, s) && Ordered(c, s) && IsOrderedRun(c, s, actions, t)
    ensures Inv(c, t) && Ordered(c, t)
    decreases |actions|
  {
    if actions != [] {
      InOrderEnabled(c, s, actions[0]);
      NextOrdered(c, s, actions[0]);
      NextInv(c, s, actions[0]);
      QueuesNewestFirst(c, Next(c, s, actions[0]), actions[1..], t);
    }
  }

  /** So in every run with in-order streams the front of a queue is the newest frame it holds. */
  lemma FrontIsNewest(c: Config, actions: seq<Action>, t: State, g: nat, i: nat)
    requires WellFormed(c) && IsOrderedRun(c, Init(c), actions, t)
    requires g < |t.queues| && 0 < i < |t.queues[g]|
    ensures t.queues[g][0] < |t.streams| && t.queues[g][i] < |t.streams|
    ensures t.streams[t.queues[g][0]].stamp > t.streams[t.queues[g][i]].stamp
  {
    InitInv(c);
    QueuesNewestFirst(c, Init(c), actions, t);
    assert NewestFirst(t.streams, t.queues[g]);
  }

  /** A covering queue shows a frame in front as soon as the running graph has all packets of
      its group; the frames before it move back by one. */
  lemma CoveringQueueShowsFrame(c: Config, s: State, packet: Packet, order: nat)
    requires Inv(c, s) && Enabled(c, s, Callback(packet, order)) && packet.stamp in s.inflight && s.started
    requires c.cleaning[c.groups[order]].policy.LoopCover?
    requires GroupFilled(c, Fill(s.streams[s.inflight[packet.stamp]], order, packet), c.groups[order])
    ensures var (t, g) := (CallbackStep(c, s, packet, order), c.groups[order]);
            && |t.queues| == |s.queues|
            && ShowsFront(s.queues[g], t.queues[g], s.inflight[packet.stamp], c.cleaning[g].depth)
  {
    var id := s.inflight[packet.stamp];
    LastCallbackHands(c, s, packet, order);
    EffectShows(c, s, CallbackStep(c, s, packet, order), id, order, Fill(s.streams[id], order, packet));
  }

  ghost predicate ShowsFront(before: seq<nat>, after: seq<nat>, id: nat, depth: nat)
  {
    && 0 < |after| && after[0] == id && |after| == Least(|before| + 1, depth)
    && forall i | 1 <= i < |after| :: after[i] == before[i - 1]
  }

  lemma EffectShows(c: Config, s: State, t: State, id: nat, order: nat, stream: Stream)
    requires Fits(c, s) && order < Outputs(c) && id < |s.streams| && c.cleaning[c.groups[order]].depth >= 1
    requires CallbackEffect(c, s, t, id, order, stream) && s.started && GroupFilled(c, stream, c.groups[order])
    requires c.cleaning[c.groups[order]].policy.LoopCover?
    ensures |t.queues| == |s.queues|
    ensures var g := c.groups[order]; ShowsFront(s.queues[g], t.queues[g], id, c.cleaning[g].depth)
  {
    TakenQueue(c, s, t, c.groups[order], id, HandOutcome(c, s, order));
  }

  // ----- which frames a queue holds

  /** The frames handed to a group, in order. */
  ghost function IdsHanded(handed: seq<Handoff>, g: nat): seq<nat>
  {
    if handed == [] then []
    else
      var (rest, last) := (handed[..|handed| - 1], handed[|handed| - 1]);
      IdsHanded(rest, g) + if last.group == g then [last.id] else []
  }

  lemma IdsHandedGrows(handed: seq<Handoff>, h: Handoff, g: nat)
    ensures IdsHanded(handed + [h], g) == if h.group == g then IdsHanded(handed, g) + [h.id] else IdsHanded(handed, g)
  {
    assert (handed + [h])[..|handed|] == handed;
  }

  /** As many of the frames as fit, newest in front: the last ones if the queue covers old
      frames, the first ones if it drops or blocks new ones. */
  ghost predicate QueueHolds(cleaning: Cleaning, queue: seq<nat>, ids: seq<nat>)
  {
    var count := Least(|ids|, cleaning.depth);
    && |queue| == count
    && forall i | 0 <= i < count :: queue[i] == ids[(if cleaning.policy.LoopCover? then |ids| else count) - 1 - i]
  }

  lemma HeldAfterPush(cleaning: Cleaning, queue: seq<nat>, ids: seq<nat>, id: nat)
    requires cleaning.depth >= 1 && QueueHolds(cleaning, queue, ids)
    ensures QueueHolds(cleaning,
              if HasRoom(cleaning, |queue|) then [id] + queue[..Least(|queue|, cleaning.depth - 1)] else queue,
              ids + [id])
  {
  }

  /** No frame is in flight before the graph was started. */
  ghost predicate Running(s: State) { s.started || s.inflight == map[] }

  /** The action neither stops the graph nor removes a frame from the queue of g. */
  predicate LeavesQueue(a: Action, g: nat) { !a.Stop? && !(a.Get? && a.group == g && !a.reuse) }

  ghost predicate Holding(c: Config, s: State, g: nat)
  {
    && Running(s) && g < |s.queues| && g < |c.cleaning|
    && QueueHolds(c.cleaning[g], s.queues[g], IdsHanded(s.handed, g))
  }

  lemma NextHolding(c: Config, s: State, a: Action, g: nat)
    requires Inv(c, s) && Enabled(c, s, a) && LeavesQueue(a, g) && Holding(c, s, g)
    ensures Holding(c, Next(c, s, a), g)
  {
    match a
    case Register(raw, stamp) => EvictFrame(Admit(c, s, raw, stamp));
    case Callback(packet, order) => CallbackHolding(c, s, packet, order, g);
    case Get(group, reuse) => GetHolding(c, s, group, reuse, g);
    case Start =>
    case Clear(_) =>
  }

  lemma GetHolding(c: Config, s: State, group: nat, reuse: bool, g: nat)
    requires LeavesQueue(Get(group, reuse), g) && Holding(c, s, g)
    ensures Holding(c, GetStep(s, group, reuse), g)
  {
  }

  lemma CallbackHolding(c: Config, s: State, packet: Packet, order: nat, g: nat)
    requires Inv(c, s) && Enabled(c, s, Callback(packet, order)) && Holding(c, s, g)
    ensures Holding(c, CallbackStep(c, s, packet, order), g)
  {
    LastCallbackHands(c, s, packet, order);
    if packet.stamp in s.inflight {
      var id := s.inflight[packet.stamp];
      var stream := Fill(s.streams[id], order, packet);
      EffectHolding(c, s, CallbackStep(c, s, packet, order), id, order, stream, g);
    } else {
      FlowCleanDropsOlder(s, packet.stamp);
    }
  }

  lemma EffectHolding(c: Config, s: State, t: State, id: nat, order: nat, stream: Stream, g: nat)
    requires Fits(c, s) && order < Outputs(c) && id < |s.streams| && c.cleaning[c.groups[order]].depth >= 1
    requires CallbackEffect(c, s, t, id, order, stream) && s.started && Holding(c, s, g)
    ensures Holding(c, t, g)
  {
    if GroupFilled(c, stream, c.groups[order]) {
      HandedHolding(c, s, t, Handoff(id, c.groups[order], order, stream.slots, HandOutcome(c, s, order)), g);
    }
  }

  lemma HandedHolding(c: Config, s: State, t: State, h: Handoff, g: nat)
    requires h.group < |s.queues| && h.group < |c.cleaning| && c.cleaning[h.group].depth >= 1
    requires QueueTook(c, s, t, h.group, h.id, h.outcome) && t.handed == s.handed + [h]
    requires s.started && t.started && Holding(c, s, g)
    ensures Holding(c, t, g)
  {
    IdsHandedGrows(s.handed, h, g);
    TakenQueue(c, s, t, h.group, h.id, h.outcome);
    if h.group == g {
      PushedHolds(c.cleaning[g], s.queues[g], t.queues[g], IdsHanded(s.handed, g), IdsHanded(t.handed, g), h.id);
    }
  }

  lemma PushedHolds(cleaning: Cleaning, before: seq<nat>, after: seq<nat>, ids: seq<nat>, more: seq<nat>, id: nat)
    requires cleaning.depth >= 1 && QueueHolds(cleaning, before, ids) && more == ids + [id]
    requires after == if HasRoom(cleaning, |before|) then [id] + before[..Least(|before|, cleaning.depth - 1)]
                      else before
    ensures QueueHolds(cleaning, after, more)
  {
    HeldAfterPush(cleaning, before, ids, id);
  }

  lemma TakenQueue(c: Config, s: State, t: State, g: nat, id: nat, outcome: Outcome)
    requires g < |s.queues| && g < |c.cleaning| && c.cleaning[g].depth >= 1
    requires s.started && QueueTook(c, s, t, g, id, outcome)
    ensures |t.queues| == |s.queues| && forall h | 0 <= h < |t.queues| && h != g :: t.queues[h] == s.queues[h]
    ensures var queue := s.queues[g];
            t.queues[g] == if HasRoom(c.cleaning[g], |queue|)
                           then [id] + queue[..Least(|queue|, c.cleaning[g].depth - 1)]
                           else queue
  {
  }

  lemma {:induction false} RunHolding(c: Config, s: State, actions: seq<Action>, t: State, g: nat)
    requires Inv(c, s) && Holding(c, s, g) && IsRun(c, s, actions, t)
    requires forall k | 0 <= k < |actions| :: LeavesQueue(actions[k], g)
    ensures Holding(c, t, g)
    decreases |actions|
  {
    if actions != [] {
      NextHolding(c, s, actions[0], g);
      NextInv(c, s, actions[0]);
      RunHolding(c, Next(c, s, actions[0]), actions[1..], t, g);
    }
  }

  /** In every run without a stop and without a removing read, a queue that covers old frames
      holds the last frames handed to its group, up to its depth, and any other queue the
      first ones; both newest in front. */
  lemma QueueHoldsHanded(c: Config, actions: seq<Action>, t: State, g: nat)
    requires WellFormed(c) && IsRun(c, Init(c), actions, t) && g < GroupCount(c)
    requires forall k | 0 <= k < |actions| :: LeavesQueue(actions[k], g)
    ensures g < |t.queues| && QueueHolds(c.cleaning[g], t.queues[g], IdsHanded(t.handed, g))
  {
    InitInv(c);
    RunHolding(c, Init(c), actions, t, g);
  }

  // ----- waiting for room

  lemma WaitStep(c: Config, s: State, a: Action)
    requires Inv(c, s) && Enabled(c, s, a) && s.waiting.Some? && !a.Stop?
    ensures NothingHanded(s, Next(c, s, a)) && Next(c, s, a).started
  {
    match a
    case Register(raw, stamp) => EvictFrame(Admit(c, s, raw, stamp));
    case Callback(packet, order) =>
      LastCallbackHands(c, s, packet, order);
      if packet.stamp in s.inflight {
        var stream := Fill(s.streams[s.inflight[packet.stamp]], order, packet);
        FillOk(c, s.streams[s.inflight[packet.stamp]], order, packet);
        PublishesIffFilled(c, stream, order);
      }
    case Start =>
    case Clear(_) =>
    case Get(_, _) =>
  }

  /** A frame that waits for room in a blocking queue waits for the stop: until then no call
      that needs the output lock goes on, so no read can make room, and all queues stay. */
  lemma {:induction false} WaitEndsOnlyByStop(c: Config, s: State, actions: seq<Action>, t: State)
    requires Inv(c, s) && s.waiting.Some? && IsRun(c, s, actions, t)
    requires forall k | 0 <= k < |actions| :: !actions[k].Stop?
    ensures NothingHanded(s, t) && t.started
    decreases |actions|
  {
    if actions != [] {
      WaitStep(c, s, actions[0]);
      NextInv(c, s, actions[0]);
      WaitEndsOnlyByStop(c, Next(c, s, actions[0]), actions[1..], t);
    }
  }

  /** A stop always ends the wait, and the frame that waited is dropped. */
  lemma StopEndsWait(c: Config, s: State)
    requires Inv(c, s) && s.waiting.Some?
    ensures var t := StopStep(c, s);
            && t.waiting.None? && !t.started && t.queues == s.queues && |t.handed| == |s.handed|
            && t.handed[s.waiting.value] == s.handed[s.waiting.value].(outcome := DroppedStopped)
  {
    CleanedFrame(c, Release(s), s.streams[s.handed[s.waiting.value].id].stamp);
  }
}
