/** What every run of the stream matcher keeps. */
module StreamMatchingSafety {
  import opened Collections
  import opened StreamMatching

  // ----- the invariant

  /** A frame is in flight exactly while it is registered under its own stamp. */
  ghost predicate Tracked(streams: seq<Stream>, fates: seq<Fate>, inflight: map<int, nat>)
  {
    && |fates| == |streams|
    && (forall k | k in inflight :: inflight[k] < |streams| && streams[inflight[k]].stamp == k)
    && (forall id | 0 <= id < |streams| ::
          fates[id].InFlight? <==> streams[id].stamp in inflight && inflight[streams[id].stamp] == id)
  }

  ghost predicate StreamOk(c: Config, stream: Stream)
  {
    && |stream.slots| == Outputs(c)
    && (forall o | o in stream.bitmap :: o < Outputs(c))
    && (forall o | 0 <= o < Outputs(c) :: o in stream.bitmap <==> stream.slots[o].Some?)
    && stream.count == |stream.bitmap|
  }

  ghost predicate Slotted(c: Config, streams: seq<Stream>, fates: seq<Fate>)
  {
    && |fates| == |streams|
    && forall id | 0 <= id < |streams| ::
         StreamOk(c, streams[id]) && (fates[id].Finished? <==> streams[id].count == Outputs(c))
  }

  ghost predicate GroupFilled(c: Config, stream: Stream, g: nat)
  {
    forall o | 0 <= o < Outputs(c) && c.groups[o] == g :: o < |stream.slots| && stream.slots[o].Some?
  }

  ghost predicate WasHanded(handed: seq<Handoff>, id: nat, g: nat)
  {
    exists k :: 0 <= k < |handed| && handed[k].id == id && handed[k].group == g
  }

  ghost predicate WasPublished(handed: seq<Handoff>, id: nat, g: nat)
  {
    exists k :: 0 <= k < |handed| && handed[k].id == id && handed[k].group == g && handed[k].outcome.Published?
  }

  /** The slots of the group were full when it was handed over, and still hold the same packets. */
  ghost predicate HandoffOk(c: Config, streams: seq<Stream>, h: Handoff)
  {
    && h.id < |streams| && h.order < Outputs(c) && h.group == c.groups[h.order]
    && |h.slots| == Outputs(c) == |streams[h.id].slots|
    && forall o | 0 <= o < Outputs(c) && c.groups[o] == h.group ::
         h.slots[o].Some? && streams[h.id].slots[o] == h.slots[o]
  }

  ghost predicate HandoffsOk(c: Config, streams: seq<Stream>, handed: seq<Handoff>)
  {
    forall k | 0 <= k < |handed| :: HandoffOk(c, streams, handed[k])
  }

  ghost predicate NoneTwice(handed: seq<Handoff>)
  {
    forall j, k | 0 <= j < k < |handed| :: handed[j].id != handed[k].id || handed[j].group != handed[k].group
  }

  ghost predicate HandedWhenFilled(c: Config, streams: seq<Stream>, handed: seq<Handoff>)
  {
    forall id, o | 0 <= id < |streams| && 0 <= o < Outputs(c) ::
      GroupFilled(c, streams[id], c.groups[o]) <==> WasHanded(handed, id, c.groups[o])
  }

  /** Every frame is handed to a group at most once, and exactly when the group is full. */
  ghost predicate HandedOnce(c: Config, streams: seq<Stream>, handed: seq<Handoff>)
  {
    HandoffsOk(c, streams, handed) && NoneTwice(handed) && HandedWhenFilled(c, streams, handed)
  }

  ghost predicate QueueOk(queue: seq<nat>, depth: nat, handed: seq<Handoff>, g: nat)
  {
    && |queue| <= depth
    && (forall i | 0 <= i < |queue| :: WasPublished(handed, queue[i], g))
    && (forall i, j | 0 <= i < j < |queue| :: queue[i] != queue[j])
  }

  ghost predicate Queued(c: Config, queues: seq<seq<nat>>, handed: seq<Handoff>)
  {
    && |queues| == |c.cleaning|
    && forall g | 0 <= g < |queues| :: QueueOk(queues[g], c.cleaning[g].depth, handed, g)
  }

  /** A hand-over waits only while the graph runs, and for room in a blocking queue. */
  ghost predicate WaitOk(c: Config, started: bool, queues: seq<seq<nat>>, handed: seq<Handoff>, waiting: Option<nat>)
  {
    && (forall k | 0 <= k < |handed| :: handed[k].outcome.Waiting? <==> waiting == Some(k))
    && (waiting.Some? ==> started && waiting.value < |handed| && WaitsForRoom(c, queues, handed[waiting.value].group))
  }

  ghost predicate WaitsForRoom(c: Config, queues: seq<seq<nat>>, g: nat)
  {
    g < |queues| && g < |c.cleaning| && c.cleaning[g].policy.BlockWhenFull? && |queues[g]| >= c.cleaning[g].depth
  }

  ghost predicate Base(c: Config, s: State)
  {
    && WellFormed(c) && Fits(c, s)
    && Tracked(s.streams, s.fates, s.inflight)
    && Slotted(c, s.streams, s.fates)
  }

  /** Everything but the bound on frames in flight. */
  ghost predicate Core(c: Config, s: State)
  {
    && Base(c, s)
    && HandedOnce(c, s.streams, s.handed)
    && Queued(c, s.queues, s.handed)
    && WaitOk(c, s.started, s.queues, s.handed, s.waiting)
  }

  ghost predicate Inv(c: Config, s: State) { Core(c, s) && |s.inflight| < MAX_GLOBAL_DEPTH }

  lemma InitInv(c: Config)
    requires WellFormed(c)
    ensures Inv(c, Init(c))
  {
    forall o | 0 <= o < Outputs(c)
      ensures c.groups[o] < GroupCount(c)
    {
      MaxGroupBounds(c.groups, o);
    }
  }

  // ----- forgetting frames

  lemma ForgetTracked(s: State, stamp: int, fate: Fate)
    requires Tracked(s.streams, s.fates, s.inflight) && !fate.InFlight?
    ensures var t := Forget(s, stamp, fate); Tracked(t.streams, t.fates, t.inflight)
  {
  }

  lemma ForgetSlotted(c: Config, s: State, stamp: int, fate: Fate)
    requires Tracked(s.streams, s.fates, s.inflight) && Slotted(c, s.streams, s.fates)
    requires !fate.InFlight? && !fate.Finished?
    ensures var t := Forget(s, stamp, fate); Slotted(c, t.streams, t.fates)
  {
  }

  lemma ForgetCore(c: Config, s: State, stamp: int, fate: Fate)
    requires Core(c, s) && !fate.InFlight? && !fate.Finished?
    ensures Core(c, Forget(s, stamp, fate))
  {
    var t := Forget(s, stamp, fate);
    ForgetTracked(s, stamp, fate);
    ForgetSlotted(c, s, stamp, fate);
    assert t.streams == s.streams && t.handed == s.handed && t.queues == s.queues && t.latest == s.latest;
    assert t.waiting == s.waiting && t.started == s.started;
  }

  lemma ForgetShrinks(s: State, stamp: int, fate: Fate)
    ensures |Forget(s, stamp, fate).inflight| <= |s.inflight|
  {
    assert (s.inflight - {stamp}).Keys == s.inflight.Keys - {stamp};
    SubsetSize(s.inflight.Keys - {stamp}, s.inflight.Keys);
  }

  lemma {:induction false} EvictCore(c: Config, s: State)
    requires Core(c, s)
    ensures Core(c, Evict(s)) && |Evict(s).inflight| < MAX_GLOBAL_DEPTH
    decreases |s.inflight|
  {
    if |s.inflight| >= MAX_GLOBAL_DEPTH {
      var oldest := MinKey(s.inflight.Keys);
      ForgetCore(c, s, oldest, Evicted);
      EvictCore(c, Forget(s, oldest, Evicted));
    }
  }

  lemma {:induction false} FlowCleanCore(c: Config, s: State, stamp: int)
    requires Core(c, s)
    ensures Core(c, FlowClean(s, stamp))
    ensures |FlowClean(s, stamp).inflight| <= |s.inflight| && FlowClean(s, stamp).latest == s.latest
    decreases |s.inflight|
  {
    if s.inflight.Keys != {} && MinKey(s.inflight.Keys) < stamp {
      var oldest := MinKey(s.inflight.Keys);
      ForgetCore(c, s, oldest, FlowDropped);
      FlowCleanCore(c, Forget(s, oldest, FlowDropped), stamp);
    }
  }

  // ----- registration

  lemma RegisterInv(c: Config, s: State, raw: nat, stamp: int)
    requires Inv(c, s)
    ensures Inv(c, RegisterStep(c, s, raw, stamp))
  {
    if s.started && stamp !in s.inflight {
      AdmitCore(c, s, raw, stamp);
      EvictCore(c, Admit(c, s, raw, stamp));
    }
  }

  lemma AdmitCore(c: Config, s: State, raw: nat, stamp: int)
    requires Core(c, s) && stamp !in s.inflight
    ensures Core(c, Admit(c, s, raw, stamp))
  {
    AdmitTracked(c, s, raw, stamp);
    AddedHandedOnce(c, s.streams, Stream(raw, stamp, 0, {}, seq(Outputs(c), _ => None)), s.handed);
  }

  lemma AdmitTracked(c: Config, s: State, raw: nat, stamp: int)
    requires Tracked(s.streams, s.fates, s.inflight) && stamp !in s.inflight
    ensures var t := Admit(c, s, raw, stamp); Tracked(t.streams, t.fates, t.inflight)
  {
  }

  lemma AdmitSize(c: Config, s: State, raw: nat, stamp: int)
    requires stamp !in s.inflight
    ensures |Admit(c, s, raw, stamp).inflight| == |s.inflight| + 1
  {
    assert Admit(c, s, raw, stamp).inflight.Keys == s.inflight.Keys + {stamp};
  }

  lemma AddedHandedOnce(c: Config, streams: seq<Stream>, stream: Stream, handed: seq<Handoff>)
    requires HandedOnce(c, streams, handed) && stream.slots == seq(Outputs(c), _ => None)
    ensures HandedOnce(c, streams + [stream], handed)
  {
    var added := streams + [stream];
    forall id, o | 0 <= id < |added| && 0 <= o < Outputs(c)
      ensures GroupFilled(c, added[id], c.groups[o]) <==> WasHanded(handed, id, c.groups[o])
    {
      if id == |streams| {
        assert added[id].slots[o].None?;
        assert forall k | 0 <= k < |handed| :: HandoffOk(c, streams, handed[k]);
      }
    }
  }

  // ----- callbacks

  ghost function Below(n: nat): (r: set<nat>)
    ensures |r| == n && forall k: nat :: k in r <==> k < n
  {
    if n == 0 then {} else Below(n - 1) + {n - 1}
  }

  lemma CountFull(c: Config, stream: Stream)
    requires StreamOk(c, stream)
    ensures stream.count <= Outputs(c)
    ensures stream.count == Outputs(c) <==> forall o | 0 <= o < Outputs(c) :: stream.slots[o].Some?
  {
    SubsetSize(stream.bitmap, Below(Outputs(c)));
    if forall o | 0 <= o < Outputs(c) :: stream.slots[o].Some? {
      assert stream.bitmap == Below(Outputs(c));
    }
  }

  lemma FillOk(c: Config, stream: Stream, order: nat, packet: Packet)
    requires StreamOk(c, stream) && order < Outputs(c) && stream.slots[order].None?
    ensures StreamOk(c, Fill(stream, order, packet))
  {
  }

  /** The bitmap test, or the packet count when there is one group, decides exactly whether
      the group is full. */
  lemma PublishesIffFilled(c: Config, stream: Stream, order: nat)
    requires WellFormed(c) && StreamOk(c, stream) && order < Outputs(c)
    ensures Publishes(c, stream, order) <==> GroupFilled(c, stream, c.groups[order])
  {
    CountFull(c, stream);
    forall o | 0 <= o < Outputs(c)
      ensures c.groups[o] <= MaxGroup(c.groups)
    {
      MaxGroupBounds(c.groups, o);
    }
    var (target, filled) := (c.bitmaps[order], stream.bitmap);
    if GroupFilled(c, stream, c.groups[order]) {
      assert target <= filled;
    } else {
      var o :| 0 <= o < Outputs(c) && c.groups[o] == c.groups[order] && stream.slots[o].None?;
      assert o in target && o !in filled;
    }
  }

  lemma FilledHandedOnce(c: Config, streams: seq<Stream>, handed: seq<Handoff>, id: nat, order: nat, packet: Packet,
                         outcome: Outcome)
    requires WellFormed(c) && HandedOnce(c, streams, handed)
    requires id < |streams| && order < Outputs(c) && StreamOk(c, streams[id]) && streams[id].slots[order].None?
    ensures var stream := Fill(streams[id], order, packet);
            var g := c.groups[order];
            var filled := GroupFilled(c, stream, g);
            && HandedOnce(c, streams[id := stream],
                          if filled then handed + [Handoff(id, g, order, stream.slots, outcome)] else handed)
            && (filled ==> !WasHanded(handed, id, g))
  {
    var stream := Fill(streams[id], order, packet);
    var g := c.groups[order];
    var streams' := streams[id := stream];
    assert !GroupFilled(c, streams[id], g);
    assert !WasHanded(handed, id, g);
    forall k | 0 <= k < |handed|
      ensures HandoffOk(c, streams', handed[k])
    {
      assert HandoffOk(c, streams, handed[k]);
    }
    if GroupFilled(c, stream, g) {
      var h := Handoff(id, g, order, stream.slots, outcome);
      var handed' := handed + [h];
      assert HandoffOk(c, streams', h);
      assert NoneTwice(handed');
      FilledIffHanded(c, streams, handed, id, order, packet, outcome);
    } else {
      FilledIffHanded(c, streams, handed, id, order, packet, outcome);
    }
  }

  lemma FilledIffHanded(c: Config, streams: seq<Stream>, handed: seq<Handoff>, id: nat, order: nat, packet: Packet,
                         outcome: Outcome)
    requires HandedWhenFilled(c, streams, handed)
    requires id < |streams| && order < Outputs(c) && StreamOk(c, streams[id]) && streams[id].slots[order].None?
    ensures var stream := Fill(streams[id], order, packet);
            var g := c.groups[order];
            HandedWhenFilled(c, streams[id := stream],
              if GroupFilled(c, stream, g) then handed + [Handoff(id, g, order, stream.slots, outcome)] else handed)
  {
    var stream := Fill(streams[id], order, packet);
    var g := c.groups[order];
    var streams' := streams[id := stream];
    var filled := GroupFilled(c, stream, g);
    var handed' := if filled then handed + [Handoff(id, g, order, stream.slots, outcome)] else handed;
    forall j, o | 0 <= j < |streams'| && 0 <= o < Outputs(c)
      ensures GroupFilled(c, streams'[j], c.groups[o]) <==> WasHanded(handed', j, c.groups[o])
    {
      assert GroupFilled(c, streams[j], c.groups[o]) <==> WasHanded(handed, j, c.groups[o]);
      WasHandedGrows(handed, handed', j, c.groups[o]);
      if j == id && c.groups[o] == g {
        assert !GroupFilled(c, streams[id], g);
        if filled { assert handed'[|handed|].id == id; }
      } else if j == id {
        assert GroupFilled(c, stream, c.groups[o]) <==> GroupFilled(c, streams[id], c.groups[o]);
      }
    }
  }

  lemma WasHandedGrows(handed: seq<Handoff>, handed': seq<Handoff>, id: nat, g: nat)
    requires handed <= handed' && |handed'| <= |handed| + 1
    ensures WasHanded(handed, id, g) ==> WasHanded(handed', id, g)
    ensures WasHanded(handed', id, g) ==>
              || WasHanded(handed, id, g)
              || (|handed'| > |handed| && handed'[|handed|].id == id && handed'[|handed|].group == g)
  {
    if WasHanded(handed, id, g) {
      var k :| 0 <= k < |handed| && handed[k].id == id && handed[k].group == g;
      assert handed'[k].id == id;
    }
  }

  lemma WasPublishedGrows(handed: seq<Handoff>, handed': seq<Handoff>, id: nat, g: nat)
    requires handed <= handed'
    ensures WasPublished(handed, id, g) ==> WasPublished(handed', id, g)
  {
    if WasPublished(handed, id, g) {
      var k :| 0 <= k < |handed| && handed[k].id == id && handed[k].group == g && handed[k].outcome.Published?;
      assert handed'[k] == handed[k];
    }
  }

  lemma PublishedWasHanded(handed: seq<Handoff>, id: nat, g: nat)
    requires WasPublished(handed, id, g)
    ensures WasHanded(handed, id, g)
  {
  }

  lemma HandQueued(c: Config, s: State, id: nat, order: nat)
    requires WellFormed(c) && Queued(c, s.queues, s.handed)
    requires id < |s.streams| && order < Outputs(c) && c.groups[order] < |s.queues|
    requires !WasHanded(s.handed, id, c.groups[order])
    ensures Queued(c, Hand(c, s, id, order).queues, Hand(c, s, id, order).handed)
  {
    var s' := Hand(c, s, id, order);
    var g := c.groups[order];
    var last := s'.handed[|s.handed|];
    assert last.id == id && last.group == g;
    forall h | 0 <= h < |s'.queues|
      ensures QueueOk(s'.queues[h], c.cleaning[h].depth, s'.handed, h)
    {
      assert QueueOk(s.queues[h], c.cleaning[h].depth, s.handed, h);
      forall i | 0 <= i < |s.queues[h]|
        ensures WasPublished(s'.handed, s.queues[h][i], h) && (h == g ==> s.queues[h][i] != id)
      {
        WasPublishedGrows(s.handed, s'.handed, s.queues[h][i], h);
        PublishedWasHanded(s.handed, s.queues[h][i], h);
      }
    }
  }

  lemma HandWaits(c: Config, s: State, id: nat, order: nat)
    requires WellFormed(c) && Fits(c, s) && WaitOk(c, s.started, s.queues, s.handed, s.waiting) && s.waiting.None?
    requires id < |s.streams| && order < Outputs(c)
    ensures var t := Hand(c, s, id, order); WaitOk(c, t.started, t.queues, t.handed, t.waiting)
  {
  }

  lemma AbsorbTracked(c: Config, s: State, packet: Packet, order: nat)
    requires Fits(c, s) && order < Outputs(c) && packet.stamp in s.inflight
    requires Tracked(s.streams, s.fates, s.inflight)
    ensures var a := Absorb(c, s, packet, order); Fits(c, a) && Tracked(a.streams, a.fates, a.inflight)
  {
  }

  lemma AbsorbSlotted(c: Config, s: State, packet: Packet, order: nat)
    requires Fits(c, s) && order < Outputs(c) && packet.stamp in s.inflight
    requires Tracked(s.streams, s.fates, s.inflight) && Slotted(c, s.streams, s.fates)
    requires s.streams[s.inflight[packet.stamp]].slots[order].None?
    ensures var a := Absorb(c, s, packet, order); Slotted(c, a.streams, a.fates)
  {
    FillOk(c, s.streams[s.inflight[packet.stamp]], order, packet);
  }

  lemma AbsorbEffect(c: Config, s: State, packet: Packet, order: nat)
    requires Fits(c, s) && order < Outputs(c) && packet.stamp in s.inflight
    ensures var (a, id) := (Absorb(c, s, packet, order), s.inflight[packet.stamp]);
            && a.streams == s.streams[id := Fill(s.streams[id], order, packet)]
            && a.handed == s.handed && a.queues == s.queues && a.latest == s.latest
            && a.waiting == s.waiting && a.started == s.started && |a.inflight| <= |s.inflight|
  {
    ForgetShrinks(s, packet.stamp, Finished);
  }

  /** What the queue of this output's group does with a frame handed over now. */
  function HandOutcome(c: Config, s: State, order: nat): Outcome
    requires order < Outputs(c) && c.groups[order] < |s.queues| && c.groups[order] < |c.cleaning|
  {
    QueueOutcome(c.cleaning[c.groups[order]], s.started, |s.queues[c.groups[order]]|)
  }

  lemma HandEffect(c: Config, s: State, id: nat, order: nat)
    requires id < |s.streams| && order < Outputs(c) && c.groups[order] < |s.queues| && c.groups[order] < |c.cleaning|
    ensures var t := Hand(c, s, id, order);
            && t.streams == s.streams && t.fates == s.fates && t.inflight == s.inflight && t.latest == s.latest
            && t.handed == s.handed + [Handoff(id, c.groups[order], order, s.streams[id].slots,
                                               HandOutcome(c, s, order))]
            && |t.queues| == |s.queues| && t.started == s.started
  {
  }

  lemma AbsorbBase(c: Config, s: State, packet: Packet, order: nat)
    requires Base(c, s) && order < Outputs(c) && packet.stamp in s.inflight
    requires s.streams[s.inflight[packet.stamp]].slots[order].None?
    ensures Base(c, Absorb(c, s, packet, order))
  {
    AbsorbTracked(c, s, packet, order);
    AbsorbSlotted(c, s, packet, order);
  }

  lemma HandBase(c: Config, s: State, id: nat, order: nat)
    requires Base(c, s) && id < |s.streams| && order < Outputs(c)
    ensures Base(c, Hand(c, s, id, order))
  {
    HandEffect(c, s, id, order);
  }

  lemma MatchCore(c: Config, s: State, packet: Packet, order: nat)
    requires Core(c, s) && Enabled(c, s, Callback(packet, order)) && packet.stamp in s.inflight
    ensures Core(c, Match(c, s, packet, order))
    ensures |Match(c, s, packet, order).inflight| <= |s.inflight|
    ensures Match(c, s, packet, order).latest == s.latest
  {
    var id := s.inflight[packet.stamp];
    var stream := Fill(s.streams[id], order, packet);
    var a := Absorb(c, s, packet, order);
    AbsorbBase(c, s, packet, order);
    AbsorbEffect(c, s, packet, order);
    FillOk(c, s.streams[id], order, packet);
    PublishesIffFilled(c, stream, order);
    FilledHandedOnce(c, s.streams, s.handed, id, order, packet, HandOutcome(c, a, order));
    if Publishes(c, stream, order) {
      HandBase(c, a, id, order);
      HandEffect(c, a, id, order);
      HandQueued(c, a, id, order);
      HandWaits(c, a, id, order);
    }
  }

  lemma CallbackInv(c: Config, s: State, packet: Packet, order: nat)
    requires Inv(c, s) && Enabled(c, s, Callback(packet, order))
    ensures Inv(c, CallbackStep(c, s, packet, order))
  {
    var s1 := if packet.stamp in s.inflight then Match(c, s, packet, order) else s;
    if packet.stamp in s.inflight { MatchCore(c, s, packet, order); }
    CleanedInv(c, s1, packet.stamp);
    var s2 := if s1.waiting != s.waiting then s1 else Cleaned(c, s1, packet.stamp);
    LatestCore(c, s2, s.latest[order := Some(packet.stamp)]);
  }

  lemma CleanedInv(c: Config, s: State, stamp: int)
    requires Inv(c, s)
    ensures Inv(c, Cleaned(c, s, stamp)) && Cleaned(c, s, stamp).latest == s.latest
  {
    FlowCleanCore(c, s, stamp);
  }

  lemma LatestCore(c: Config, s: State, latest: seq<Option<int>>)
    requires Core(c, s) && |latest| == |s.latest|
    ensures Core(c, s.(latest := latest))
  {
  }

  /** Ending the wait changes one outcome and nothing about who was handed what. */
  lemma StopInv(c: Config, s: State)
    requires Inv(c, s)
    ensures Inv(c, StopStep(c, s))
  {
    if s.waiting.Some? {
      var k := s.waiting.value;
      SettledHanded(c, s.streams, s.handed, k, DroppedStopped);
      SettledQueued(c, s.queues, s.handed, k, DroppedStopped);
      CleanedInv(c, Release(s), s.streams[s.handed[k].id].stamp);
    }
  }

  lemma SettledHanded(c: Config, streams: seq<Stream>, handed: seq<Handoff>, k: nat, outcome: Outcome)
    requires HandedOnce(c, streams, handed) && k < |handed|
    ensures HandedOnce(c, streams, handed[k := handed[k].(outcome := outcome)])
  {
    var settled := handed[k := handed[k].(outcome := outcome)];
    forall j | 0 <= j < |settled|
      ensures HandoffOk(c, streams, settled[j])
    {
      assert HandoffOk(c, streams, handed[j]);
    }
    forall id, g
      ensures WasHanded(settled, id, g) <==> WasHanded(handed, id, g)
    {
      SettledWasHanded(handed, k, outcome, id, g);
    }
  }

  lemma SettledWasHanded(handed: seq<Handoff>, k: nat, outcome: Outcome, id: nat, g: nat)
    requires k < |handed|
    ensures WasHanded(handed[k := handed[k].(outcome := outcome)], id, g) <==> WasHanded(handed, id, g)
  {
    var settled := handed[k := handed[k].(outcome := outcome)];
    if WasHanded(handed, id, g) {
      var j :| 0 <= j < |handed| && handed[j].id == id && handed[j].group == g;
      assert settled[j].id == id;
    }
  }

  lemma SettledQueued(c: Config, queues: seq<seq<nat>>, handed: seq<Handoff>, k: nat, outcome: Outcome)
    requires Queued(c, queues, handed) && k < |handed| && handed[k].outcome.Waiting?
    ensures Queued(c, queues, handed[k := handed[k].(outcome := outcome)])
  {
    var settled := handed[k := handed[k].(outcome := outcome)];
    forall g | 0 <= g < |queues|
      ensures QueueOk(queues[g], c.cleaning[g].depth, settled, g)
    {
      assert QueueOk(queues[g], c.cleaning[g].depth, handed, g);
      forall i | 0 <= i < |queues[g]|
        ensures WasPublished(settled, queues[g][i], g)
      {
        assert WasPublished(handed, queues[g][i], g);
        var j :| 0 <= j < |handed| && handed[j].id == queues[g][i] && handed[j].group == g
          && handed[j].outcome.Published?;
        assert settled[j] == handed[j];
      }
    }
  }

  lemma GetInv(c: Config, s: State, group: nat, reuse: bool)
    requires Inv(c, s) && LockFree(c, s, Get(group, reuse))
    ensures Inv(c, GetStep(s, group, reuse))
  {
    var s' := GetStep(s, group, reuse);
    forall g | 0 <= g < |s'.queues|
      ensures QueueOk(s'.queues[g], c.cleaning[g].depth, s'.handed, g)
    {
      assert QueueOk(s.queues[g], c.cleaning[g].depth, s.handed, g);
    }
  }

  // ----- runs

  /** What the graph promises: a frame gets at most one packet from each output stream. */
  ghost predicate OncePerStream(c: Config, s: State, a: Action)
    requires Fits(c, s)
  {
    a.Callback? ==>
      && a.order < Outputs(c)
      && (a.packet.stamp in s.inflight ==> s.streams[s.inflight[a.packet.stamp]].slots[a.order].None?)
  }

  /** A call that needs the output lock cannot go on while a waiting hand-over holds it. */
  ghost predicate LockFree(c: Config, s: State, a: Action)
    requires Fits(c, s)
  {
    s.waiting.Some? ==>
      match a
      case Callback(packet, order) =>
        order < Outputs(c) && packet.stamp in s.inflight ==>
          !Publishes(c, Fill(s.streams[s.inflight[packet.stamp]], order, packet), order)
      case Get(group, _) => group >= |s.queues| || s.queues[group] == []
      case _ => true
  }

  ghost predicate Enabled(c: Config, s: State, a: Action)
    requires Fits(c, s)
  {
    OncePerStream(c, s, a) && LockFree(c, s, a)
  }

  lemma NextInv(c: Config, s: State, a: Action)
    requires Inv(c, s) && Enabled(c, s, a)
    ensures Inv(c, Next(c, s, a))
  {
    match a
    case Register(raw, stamp) => RegisterInv(c, s, raw, stamp);
    case Clear(stamp) =>
      ForgetCore(c, s, stamp, Cleared);
      ForgetShrinks(s, stamp, Cleared);
    case Callback(packet, order) => CallbackInv(c, s, packet, order);
    case Get(group, reuse) => GetInv(c, s, group, reuse);
    case Start =>
    case Stop => StopInv(c, s);
  }

  ghost predicate IsRun(c: Config, s: State, actions: seq<Action>, t: State)
    decreases |actions|
  {
    if actions == [] then t == s
    else Fits(c, s) && Enabled(c, s, actions[0]) && IsRun(c, Next(c, s, actions[0]), actions[1..], t)
  }

  lemma {:induction false} RunInv(c: Config, s: State, actions: seq<Action>, t: State)
    requires Inv(c, s) && IsRun(c, s, actions, t)
    ensures Inv(c, t)
    decreases |actions|
  {
    if actions != [] {
      NextInv(c, s, actions[0]);
      RunInv(c, Next(c, s, actions[0]), actions[1..], t);
    }
  }

  /** In every run, a frame is handed to the queue of a group exactly once if all streams of
      the group have reported it and never otherwise, and the packets handed over are the
      ones the frame holds from then on. */
  lemma ExactlyOncePerGroup(c: Config, actions: seq<Action>, t: State, id: nat, o: nat)
    requires WellFormed(c) && IsRun(c, Init(c), actions, t)
    requires id < |t.streams| && o < Outputs(c)
    ensures GroupFilled(c, t.streams[id], c.groups[o]) <==> WasHanded(t.handed, id, c.groups[o])
    ensures forall j, k | 0 <= j < |t.handed| && 0 <= k < |t.handed| ::
              t.handed[j].id == t.handed[k].id == id && t.handed[j].group == t.handed[k].group ==> j == k
    ensures forall k, p | 0 <= k < |t.handed| && t.handed[k].id == id &&
                          0 <= p < Outputs(c) && c.groups[p] == t.handed[k].group ::
              p < |t.handed[k].slots| && p < |t.streams[id].slots| &&
              t.handed[k].slots[p].Some? && t.streams[id].slots[p] == t.handed[k].slots[p]
  {
    InitInv(c);
    RunInv(c, Init(c), actions, t);
    assert HandedWhenFilled(c, t.streams, t.handed);
    forall k | 0 <= k < |t.handed|
      ensures HandoffOk(c, t.streams, t.handed[k])
    {
    }
  }

  /** In every run fewer than 900 frames are in flight, no queue exceeds its depth, and
      queues hold distinct frames that were handed to them. */
  lemma BoundsHold(c: Config, actions: seq<Action>, t: State, g: nat)
    requires WellFormed(c) && IsRun(c, Init(c), actions, t) && g < GroupCount(c)
    ensures |t.inflight| < MAX_GLOBAL_DEPTH
    ensures |t.queues| == GroupCount(c) && QueueOk(t.queues[g], c.cleaning[g].depth, t.handed, g)
  {
    InitInv(c);
    RunInv(c, Init(c), actions, t);
  }

  // ----- what one step hands over

  /** A queue has room if it covers its oldest frame or is below its depth. */
  predicate HasRoom(cleaning: Cleaning, length: nat) { cleaning.policy.LoopCover? || length < cleaning.depth }

  function Least(m: nat, n: nat): nat { if m < n then m else n }

  /** The queue of group g took frame id, or not.  A taken frame is in front, followed by the
      newest ones that fit. */
  ghost predicate QueueTook(c: Config, s: State, t: State, g: nat, id: nat, outcome: Outcome)
    requires g < |s.queues| && g < |c.cleaning| && c.cleaning[g].depth >= 1
  {
    var (queue, depth) := (s.queues[g], c.cleaning[g].depth);
    && (outcome.Published? <==> s.started && HasRoom(c.cleaning[g], |queue|))
    && (outcome.DroppedStopped? <==> !s.started)
    && (outcome.Waiting? ==> c.cleaning[g].policy.BlockWhenFull?)
    && (outcome.DroppedFull? ==> c.cleaning[g].policy.DropWhenFull?)
    && t.waiting == (if outcome.Waiting? then Some(|s.handed|) else s.waiting)
    && t.queues == if outcome.Published? then s.queues[g := [id] + queue[..Least(|queue|, depth - 1)]] else s.queues
  }

  lemma HandTakes(c: Config, s: State, id: nat, order: nat)
    requires Fits(c, s) && id < |s.streams| && order < Outputs(c)
    requires c.cleaning[c.groups[order]].depth >= 1 && |s.queues[c.groups[order]]| <= c.cleaning[c.groups[order]].depth
    ensures QueueTook(c, s, Hand(c, s, id, order), c.groups[order], id, HandOutcome(c, s, order))
  {
    var g := c.groups[order];
    var queue := s.queues[g];
    assert |queue| <= c.cleaning[g].depth - 1 ==> queue[..|queue|] == queue;
  }

  /** The graph hands nothing over in this step. */
  ghost predicate NothingHanded(s: State, t: State)
  {
    t.handed == s.handed && t.queues == s.queues && t.waiting == s.waiting
  }

  /** From s to t the packet of this output was put into frame id, which became `stream`; the
      frame was handed over if that filled its group. */
  ghost predicate CallbackEffect(c: Config, s: State, t: State, id: nat, order: nat, stream: Stream)
    requires Fits(c, s) && order < Outputs(c) && id < |s.streams| && c.cleaning[c.groups[order]].depth >= 1
  {
    var (g, outcome) := (c.groups[order], HandOutcome(c, s, order));
    && t.started == s.started && t.streams == s.streams[id := stream]
    && if GroupFilled(c, stream, g)
       then t.handed == s.handed + [Handoff(id, g, order, stream.slots, outcome)] && QueueTook(c, s, t, g, id, outcome)
       else NothingHanded(s, t)
  }

  /** A callback hands its frame over exactly when it is the last one of its group, and then
      the queue takes the frame exactly when the graph runs and there is room. */
  lemma LastCallbackHands(c: Config, s: State, packet: Packet, order: nat)
    requires Inv(c, s) && Enabled(c, s, Callback(packet, order))
    ensures var t := CallbackStep(c, s, packet, order);
            if packet.stamp !in s.inflight then NothingHanded(s, t) && t.streams == s.streams && t.started == s.started
            else
              var id := s.inflight[packet.stamp];
              CallbackEffect(c, s, t, id, order, Fill(s.streams[id], order, packet))
  {
    var s1 := if packet.stamp in s.inflight then Match(c, s, packet, order) else s;
    CleanedFrame(c, s1, packet.stamp);
    if packet.stamp in s.inflight {
      MatchHands(c, s, packet, order);
    }
  }

  lemma MatchHands(c: Config, s: State, packet: Packet, order: nat)
    requires Inv(c, s) && Enabled(c, s, Callback(packet, order)) && packet.stamp in s.inflight
    ensures var id := s.inflight[packet.stamp];
            CallbackEffect(c, s, Match(c, s, packet, order), id, order, Fill(s.streams[id], order, packet))
  {
    var id := s.inflight[packet.stamp];
    var stream := Fill(s.streams[id], order, packet);
    AbsorbTracked(c, s, packet, order);
    AbsorbEffect(c, s, packet, order);
    FillOk(c, s.streams[id], order, packet);
    PublishesIffFilled(c, stream, order);
    assert QueueOk(s.queues[c.groups[order]], c.cleaning[c.groups[order]].depth, s.handed, c.groups[order]);
    AbsorbedHands(c, s, Absorb(c, s, packet, order), id, order, stream);
  }

  lemma AbsorbedHands(c: Config, s: State, a: State, id: nat, order: nat, stream: Stream)
    requires Fits(c, s) && Fits(c, a) && order < Outputs(c) && id < |s.streams|
    requires a.streams == s.streams[id := stream] && a.handed == s.handed && a.queues == s.queues
    requires a.waiting == s.waiting && a.started == s.started
    requires c.cleaning[c.groups[order]].depth >= 1 && |s.queues[c.groups[order]]| <= c.cleaning[c.groups[order]].depth
    requires Publishes(c, stream, order) <==> GroupFilled(c, stream, c.groups[order])
    ensures CallbackEffect(c, s, if Publishes(c, stream, order) then Hand(c, a, id, order) else a, id, order, stream)
  {
    HandTakes(c, a, id, order);
  }

  /** Everything but the table of frames in flight and their fates. */
  ghost predicate SameButTable(s: State, t: State)
  {
    && t.streams == s.streams && t.handed == s.handed && t.queues == s.queues && t.waiting == s.waiting
    && t.started == s.started && t.latest == s.latest
  }

  lemma {:induction false} FlowCleanFrame(s: State, stamp: int)
    ensures SameButTable(s, FlowClean(s, stamp))
    decreases |s.inflight|
  {
    if s.inflight.Keys != {} && MinKey(s.inflight.Keys) < stamp {
      FlowCleanFrame(Forget(s, MinKey(s.inflight.Keys), FlowDropped), stamp);
    }
  }

  lemma {:induction false} FlowCleanFits(c: Config, s: State, stamp: int)
    requires Fits(c, s)
    ensures Fits(c, FlowClean(s, stamp))
    decreases |s.inflight|
  {
    if s.inflight.Keys != {} && MinKey(s.inflight.Keys) < stamp {
      FlowCleanFits(c, Forget(s, MinKey(s.inflight.Keys), FlowDropped), stamp);
    }
  }

  lemma CleanedFrame(c: Config, s: State, stamp: int)
    ensures SameButTable(s, Cleaned(c, s, stamp))
  {
    FlowCleanFrame(s, stamp);
  }

  lemma {:induction false} EvictFrame(s: State)
    ensures SameButTable(s, Evict(s))
    decreases |s.inflight|
  {
    if |s.inflight| >= MAX_GLOBAL_DEPTH {
      EvictFrame(Forget(s, MinKey(s.inflight.Keys), Evicted));
    }
  }

  // ----- which frames are forgotten

  /** Flow control drops all frames older than the stamp, and no others. */
  lemma {:induction false} FlowCleanDropsOlder(s: State, stamp: int)
    ensures FlowClean(s, stamp).inflight == map k | k in s.inflight && k >= stamp :: s.inflight[k]
    decreases |s.inflight|
  {
    if s.inflight.Keys != {} && MinKey(s.inflight.Keys) < stamp {
      FlowCleanDropsOlder(Forget(s, MinKey(s.inflight.Keys), FlowDropped), stamp);
    }
  }

  /** The table once a packet is in: its frame leaves with the last packet. */
  ghost function TableAfter(c: Config, s: State, packet: Packet): map<int, nat>
    requires Fits(c, s)
  {
    if packet.stamp in s.inflight && s.streams[s.inflight[packet.stamp]].count == Outputs(c) - 1
    then s.inflight - {packet.stamp} else s.inflight
  }

  lemma AbsorbTable(c: Config, s: State, packet: Packet, order: nat)
    requires Fits(c, s) && order < Outputs(c) && packet.stamp in s.inflight
    ensures Match(c, s, packet, order).inflight == TableAfter(c, s, packet)
    ensures Match(c, s, packet, order).waiting == s.waiting || Match(c, s, packet, order).waiting.Some?
  {
  }

  /** A callback drops frames exactly if there is one group and 30 frames or more stay in flight
      after its packet; then exactly the frames as new as its packet remain.  One that waits for
      room drops them when its wait ends. */
  lemma CallbackCleans(c: Config, s: State, packet: Packet, order: nat)
    requires Fits(c, s) && order < Outputs(c)
    ensures var (t, left) := (CallbackStep(c, s, packet, order), TableAfter(c, s, packet));
            t.inflight == if t.waiting == s.waiting && |s.queues| == 1 && |left| >= 30
                          then map k | k in left && k >= packet.stamp :: left[k] else left
  {
    var matched := if packet.stamp in s.inflight then Match(c, s, packet, order) else s;
    if packet.stamp in s.inflight { AbsorbTable(c, s, packet, order); }
    FlowCleanDropsOlder(matched, packet.stamp);
    FlowCleanFrame(matched, packet.stamp);
  }

  /** And a stop drops frames exactly if it ends a wait, by the stamp of the frame that waited. */
  lemma StopCleans(c: Config, s: State)
    requires Fits(c, s)
    ensures var t := StopStep(c, s);
            t.inflight == if s.waiting.Some? && |s.queues| == 1 && |s.inflight| >= 30
                          then map k | k in s.inflight && k >= s.streams[s.handed[s.waiting.value].id].stamp ::
                                 s.inflight[k]
                          else s.inflight
  {
    if s.waiting.Some? {
      FlowCleanDropsOlder(Release(s), s.streams[s.handed[s.waiting.value].id].stamp);
    }
  }

  /** The table t is s without some of its oldest frames. */
  ghost predicate OldestGone(s: map<int, nat>, t: map<int, nat>)
  {
    && (forall k | k in t :: k in s && t[k] == s[k])
    && (forall k, j | k in s && k !in t && j in t :: k < j)
  }

  /** Eviction takes the oldest frames, and exactly as many as the table has too many. */
  lemma {:induction false} EvictTakesOldest(s: State)
    ensures OldestGone(s.inflight, Evict(s).inflight)
    ensures |Evict(s).inflight| == Least(|s.inflight|, MAX_GLOBAL_DEPTH - 1)
    decreases |s.inflight|
  {
    if |s.inflight| >= MAX_GLOBAL_DEPTH {
      var oldest := MinKey(s.inflight.Keys);
      var rest := Forget(s, oldest, Evicted);
      assert rest.inflight.Keys == s.inflight.Keys - {oldest};
      EvictTakesOldest(rest);
    }
  }

  /** A frame newer than all frames in flight survives its own registration. */
  lemma NewestIsKept(c: Config, s: State, raw: nat, stamp: int)
    requires Inv(c, s) && s.started && forall k :: k in s.inflight ==> k < stamp
    ensures var t := RegisterStep(c, s, raw, stamp);
            stamp in t.inflight && t.inflight[stamp] == |s.streams| && |t.streams| == |s.streams| + 1
  {
    var added := Admit(c, s, raw, stamp);
    var t := Evict(added);
    AdmitSize(c, s, raw, stamp);
    EvictFrame(added);
    EvictTakesOldest(added);
    assert stamp !in t.inflight ==> t.inflight.Keys == {};
  }

  // ----- fates

  /** Why a frame leaves the in-flight table in the step from s to t, if it does. */
  ghost predicate FateChange(c: Config, s: State, a: Action, t: State, id: nat, fate: Fate)
    requires id < |s.streams|
  {
    var stamp := s.streams[id].stamp;
    match fate
    case InFlight => true
    case Finished => a.Callback? && a.packet.stamp == stamp
    case Evicted => a.Register? && |s.inflight| == MAX_GLOBAL_DEPTH - 1 && forall k | k in t.inflight :: k > stamp
    case FlowDropped => GroupCount(c) == 1 && stamp < CleanupStamp(s, a, stamp)
    case Cleared => a.Clear? && a.stamp == stamp
  }

  /** The stamp up to which a step drops frames: that of its packet, or of the frame whose wait
      a stop ends. */
  ghost function CleanupStamp(s: State, a: Action, none: int): int
  {
    if a.Callback? then a.packet.stamp
    else if a.Stop? && s.waiting.Some? && s.waiting.value < |s.handed| && s.handed[s.waiting.value].id < |s.streams|
    then s.streams[s.handed[s.waiting.value].id].stamp
    else none
  }

  /** The fate of frame id after a step that leads to t. */
  ghost predicate FateOk(c: Config, s: State, a: Action, id: nat, t: State)
  {
    && id < |s.streams| && id < |s.fates| && id < |t.fates|
    && (t.fates[id] == s.fates[id] || (s.fates[id].InFlight? && FateChange(c, s, a, t, id, t.fates[id])))
  }

  /** A cleared frame is in flight no more, and all others still are. */
  lemma ClearForgets(c: Config, s: State, stamp: int)
    requires Fits(c, s)
    ensures var t := Next(c, s, Clear(stamp));
            && stamp !in t.inflight && SameButTable(s, t)
            && (forall k | k in s.inflight && k != stamp :: k in t.inflight && t.inflight[k] == s.inflight[k])
            && (stamp in s.inflight ==> s.inflight[stamp] < |t.fates| && t.fates[s.inflight[stamp]] == Cleared)
  {
  }

  /** A frame has one fate: once it has left the table its fate never changes, and it leaves
      only for the reason its fate names. */
  lemma FateStep(c: Config, s: State, a: Action, id: nat)
    requires Inv(c, s) && Enabled(c, s, a) && id < |s.streams|
    ensures FateOk(c, s, a, id, Next(c, s, a))
  {
    TableStep(c, s, a, id);
  }

  lemma TableStep(c: Config, s: State, a: Action, id: nat)
    requires Fits(c, s) && Tracked(s.streams, s.fates, s.inflight) && |s.inflight| < MAX_GLOBAL_DEPTH
    requires (a.Callback? ==> a.order < Outputs(c)) && id < |s.streams|
    ensures FateOk(c, s, a, id, Next(c, s, a))
  {
    match a
    case Start =>
    case Stop => StopFates(c, s, id);
    case Clear(stamp) => ClearFates(c, s, stamp, id);
    case Get(_, _) =>
    case Register(raw, stamp) => RegisterFates(c, s, raw, stamp, id);
    case Callback(packet, order) => CallbackFates(c, s, packet, order, id);
  }

  /** Over a whole run: a frame that has left the in-flight table keeps its fate, and a frame
      is in flight exactly while the table holds it. */
  lemma {:induction false} FateIsFinal(c: Config, s: State, actions: seq<Action>, t: State, id: nat)
    requires Inv(c, s) && IsRun(c, s, actions, t) && id < |s.streams|
    ensures id < |t.fates| && (s.fates[id].InFlight? || t.fates[id] == s.fates[id])
    ensures id < |t.streams| && (t.fates[id].InFlight? <==>
              t.streams[id].stamp in t.inflight && t.inflight[t.streams[id].stamp] == id)
    decreases |actions|
  {
    if actions != [] {
      FateStep(c, s, actions[0], id);
      NextInv(c, s, actions[0]);
      FateIsFinal(c, Next(c, s, actions[0]), actions[1..], t, id);
    }
  }

  lemma ClearFates(c: Config, s: State, stamp: int, id: nat)
    requires Tracked(s.streams, s.fates, s.inflight) && id < |s.streams|
    ensures FateOk(c, s, Clear(stamp), id, Forget(s, stamp, Cleared))
  {
  }

  lemma RegisterFates(c: Config, s: State, raw: nat, stamp: int, id: nat)
    requires Tracked(s.streams, s.fates, s.inflight) && |s.inflight| < MAX_GLOBAL_DEPTH && id < |s.streams|
    ensures FateOk(c, s, Register(raw, stamp), id, RegisterStep(c, s, raw, stamp))
  {
    if s.started && stamp !in s.inflight {
      var added := Admit(c, s, raw, stamp);
      AdmitTracked(c, s, raw, stamp);
      AdmitSize(c, s, raw, stamp);
      EvictFates(added, id);
      EvictTakesOldest(added);
      if Evict(added).fates[id] != s.fates[id] {
        OldestStayAbove(added.inflight, Evict(added).inflight, s.streams[id].stamp);
      }
    }
  }

  lemma OldestStayAbove(s: map<int, nat>, t: map<int, nat>, gone: int)
    requires OldestGone(s, t) && gone in s && gone !in t
    ensures forall k | k in t :: k > gone
  {
  }

  lemma StopFates(c: Config, s: State, id: nat)
    requires Fits(c, s) && Tracked(s.streams, s.fates, s.inflight) && id < |s.streams|
    ensures FateOk(c, s, Stop, id, StopStep(c, s))
  {
    if s.waiting.Some? {
      CleanedFates(c, Release(s), s.streams[s.handed[s.waiting.value].id].stamp, id);
    }
  }

  lemma CallbackFates(c: Config, s: State, packet: Packet, order: nat, id: nat)
    requires Fits(c, s) && Tracked(s.streams, s.fates, s.inflight) && order < Outputs(c) && id < |s.streams|
    ensures FateOk(c, s, Callback(packet, order), id, CallbackStep(c, s, packet, order))
  {
    if packet.stamp in s.inflight {
      MatchFates(c, s, packet, order, id);
      CleanedFates(c, Match(c, s, packet, order), packet.stamp, id);
    } else {
      CleanedFates(c, s, packet.stamp, id);
    }
  }

  lemma CleanedFates(c: Config, s: State, stamp: int, id: nat)
    requires Tracked(s.streams, s.fates, s.inflight) && id < |s.streams|
    ensures var t := Cleaned(c, s, stamp);
            && |t.fates| == |s.fates|
            && (t.fates[id] == s.fates[id] ||
                (s.fates[id].InFlight? && t.fates[id].FlowDropped? && s.streams[id].stamp < stamp
                 && GroupCount(c) == 1))
  {
    FlowCleanFates(s, stamp, id);
  }

  lemma {:induction false} EvictFates(s: State, id: nat)
    requires Tracked(s.streams, s.fates, s.inflight) && id < |s.streams|
    ensures var t := Evict(s);
            && |t.fates| == |s.fates|
            && (t.fates[id] == s.fates[id] ||
                (s.fates[id].InFlight? && t.fates[id].Evicted? && |s.inflight| >= MAX_GLOBAL_DEPTH &&
                 s.streams[id].stamp in s.inflight && s.streams[id].stamp !in t.inflight))
    decreases |s.inflight|
  {
    if |s.inflight| >= MAX_GLOBAL_DEPTH {
      var oldest := MinKey(s.inflight.Keys);
      var rest := Forget(s, oldest, Evicted);
      ForgetTracked(s, oldest, Evicted);
      EvictFates(rest, id);
      EvictTakesOldest(rest);
    }
  }

  lemma {:induction false} FlowCleanFates(s: State, stamp: int, id: nat)
    requires Tracked(s.streams, s.fates, s.inflight) && id < |s.streams|
    ensures var t := FlowClean(s, stamp);
            && |t.fates| == |s.fates|
            && (t.fates[id] == s.fates[id] || (s.fates[id].InFlight? && t.fates[id].FlowDropped?
                                               && s.streams[id].stamp < stamp))
    decreases |s.inflight|
  {
    if s.inflight.Keys != {} && MinKey(s.inflight.Keys) < stamp {
      var oldest := MinKey(s.inflight.Keys);
      ForgetTracked(s, oldest, FlowDropped);
      FlowCleanFates(Forget(s, oldest, FlowDropped), stamp, id);
    }
  }

  lemma MatchFates(c: Config, s: State, packet: Packet, order: nat, id: nat)
    requires Fits(c, s) && Tracked(s.streams, s.fates, s.inflight)
    requires order < Outputs(c) && packet.stamp in s.inflight && id < |s.streams|
    ensures var t := Match(c, s, packet, order);
            && Tracked(t.streams, t.fates, t.inflight) && |t.streams| == |s.streams| == |t.fates|
            && t.streams[id].stamp == s.streams[id].stamp
            && (t.fates[id] == s.fates[id] ||
                (s.fates[id].InFlight? && t.fates[id].Finished? && packet.stamp == s.streams[id].stamp))
  {
    var a := Absorb(c, s, packet, order);
    var i := s.inflight[packet.stamp];
    AbsorbTracked(c, s, packet, order);
    AbsorbEffect(c, s, packet, order);
    if Publishes(c, a.streams[i], order) {
      HandEffect(c, a, i, order);
    }
  }

  // ----- what becomes of a frame in a group

  /** For one group a frame is in progress, or was handed to the queue with some outcome, or
      left the table before. */
  datatype Ending = InProgress | AtQueue(outcome: Outcome) | LeftTable(fate: Fate)

  ghost predicate Ends(s: State, id: nat, g: nat, e: Ending)
  {
    && id < |s.fates|
    && match e
       case InProgress => s.fates[id].InFlight? && !WasHanded(s.handed, id, g)
       case LeftTable(fate) => s.fates[id] == fate && !fate.InFlight? && !WasHanded(s.handed, id, g)
       case AtQueue(outcome) =>
         exists k :: 0 <= k < |s.handed| && s.handed[k].id == id && s.handed[k].group == g
           && s.handed[k].outcome == outcome
  }

  lemma OneOutcome(s: State, id: nat, g: nat, x: Outcome, y: Outcome)
    requires NoneTwice(s.handed) && Ends(s, id, g, AtQueue(x)) && Ends(s, id, g, AtQueue(y))
    ensures x == y
  {
    var j :| 0 <= j < |s.handed| && s.handed[j].id == id && s.handed[j].group == g && s.handed[j].outcome == x;
    var k :| 0 <= k < |s.handed| && s.handed[k].id == id && s.handed[k].group == g && s.handed[k].outcome == y;
    assert j == k;
  }

  lemma SomeEnding(s: State, id: nat, g: nat)
    requires id < |s.fates|
    ensures exists e :: Ends(s, id, g, e)
  {
    if WasHanded(s.handed, id, g) {
      var k :| 0 <= k < |s.handed| && s.handed[k].id == id && s.handed[k].group == g;
      assert Ends(s, id, g, AtQueue(s.handed[k].outcome));
    } else if s.fates[id].InFlight? {
      assert Ends(s, id, g, InProgress);
    } else {
      assert Ends(s, id, g, LeftTable(s.fates[id]));
    }
  }

  lemma FinishedWasHanded(c: Config, s: State, id: nat, o: nat)
    requires Inv(c, s) && id < |s.streams| && o < Outputs(c) && s.fates[id].Finished?
    ensures WasHanded(s.handed, id, c.groups[o])
  {
    assert StreamOk(c, s.streams[id]) && s.streams[id].count == Outputs(c);
    CountFull(c, s.streams[id]);
    assert GroupFilled(c, s.streams[id], c.groups[o]);
  }

  /** Every frame has exactly one ending in every group, and a frame that got all its packets
      has been at the queue: published, dropped or waiting. */
  lemma OneEnding(c: Config, s: State, id: nat, o: nat)
    requires Inv(c, s) && id < |s.streams| && o < Outputs(c)
    ensures exists e :: Ends(s, id, c.groups[o], e)
    ensures forall e, e' | Ends(s, id, c.groups[o], e) && Ends(s, id, c.groups[o], e') :: e == e'
    ensures s.fates[id].Finished? ==> forall e | Ends(s, id, c.groups[o], e) :: e.AtQueue?
  {
    SomeEnding(s, id, c.groups[o]);
    forall e, e' | Ends(s, id, c.groups[o], e) && Ends(s, id, c.groups[o], e')
      ensures e == e'
    {
      if e.AtQueue? && e'.AtQueue? { OneOutcome(s, id, c.groups[o], e.outcome, e'.outcome); }
    }
    if s.fates[id].Finished? {
      FinishedWasHanded(c, s, id, o);
    }
  }

  /** How the ending of a frame in group g may change in a step. */
  ghost predicate EndingChange(c: Config, s: State, a: Action, t: State, id: nat, g: nat, e: Ending, e': Ending)
    requires id < |s.streams| && g < |s.queues| && g < |c.cleaning|
  {
    match e
    case InProgress =>
      (match e'
       case InProgress => true
       case AtQueue(outcome) =>
         && a.Callback? && a.packet.stamp == s.streams[id].stamp && a.order < Outputs(c) && c.groups[a.order] == g
         && outcome == QueueOutcome(c.cleaning[g], s.started, |s.queues[g]|)
       case LeftTable(fate) => FateChange(c, s, a, t, id, fate))
    case AtQueue(outcome) => outcome.Waiting? && a.Stop? && e' == AtQueue(DroppedStopped)
    case LeftTable(_) => false
  }

  lemma EndingStep(c: Config, s: State, a: Action, id: nat, o: nat, e: Ending, e': Ending)
    requires Inv(c, s) && Enabled(c, s, a) && id < |s.streams| && o < Outputs(c)
    requires Ends(s, id, c.groups[o], e) && Ends(Next(c, s, a), id, c.groups[o], e')
    ensures e' == e || EndingChange(c, s, a, Next(c, s, a), id, c.groups[o], e, e')
  {
    FateStep(c, s, a, id);
    NextInv(c, s, a);
    HandedStep(c, s, a);
    if e.AtQueue? {
      HandedEnding(c, s, a, Next(c, s, a), id, c.groups[o], e, e');
    } else if e'.AtQueue? {
      NewEnding(c, s, a, Next(c, s, a), id, c.groups[o], e, e');
    }
  }

  /** A frame that was published or dropped, or left the table before, has its last ending. */
  predicate IsFinal(e: Ending) { e.LeftTable? || (e.AtQueue? && !e.outcome.Waiting?) }

  lemma FinalStep(c: Config, s: State, a: Action, id: nat, o: nat, e: Ending)
    requires Inv(c, s) && Enabled(c, s, a) && id < |s.streams| && o < Outputs(c)
    requires Ends(s, id, c.groups[o], e) && IsFinal(e)
    ensures Ends(Next(c, s, a), id, c.groups[o], e)
  {
    NextInv(c, s, a);
    FateStep(c, s, a, id);
    SomeEnding(Next(c, s, a), id, c.groups[o]);
    var e' :| Ends(Next(c, s, a), id, c.groups[o], e');
    EndingStep(c, s, a, id, o, e, e');
  }

  /** Over a whole run such an ending stays. */
  lemma {:induction false} EndingIsFinal(c: Config, s: State, actions: seq<Action>, t: State, id: nat, o: nat,
                                         e: Ending)
    requires Inv(c, s) && IsRun(c, s, actions, t) && id < |s.streams| && o < Outputs(c)
    requires Ends(s, id, c.groups[o], e) && IsFinal(e)
    ensures Ends(t, id, c.groups[o], e)
    decreases |actions|
  {
    if actions != [] {
      FinalStep(c, s, actions[0], id, o, e);
      NextInv(c, s, actions[0]);
      FateIsFinal(c, s, [actions[0]], Next(c, s, actions[0]), id);
      EndingIsFinal(c, Next(c, s, actions[0]), actions[1..], t, id, o, e);
    }
  }

  /** Once at the queue, a frame keeps its outcome, unless it waits and the graph is stopped. */
  lemma HandedEnding(c: Config, s: State, a: Action, t: State, id: nat, g: nat, e: Ending, e': Ending)
    requires Fits(c, s) && NoneTwice(t.handed) && id < |t.fates| && HandedChange(c, s, a, t)
    requires forall k | 0 <= k < |s.handed| :: s.handed[k].outcome.Waiting? <==> s.waiting == Some(k)
    requires e.AtQueue? && Ends(s, id, g, e) && Ends(t, id, g, e')
    ensures e' == e || (e.outcome.Waiting? && a.Stop? && e' == AtQueue(DroppedStopped))
  {
    var k :| 0 <= k < |s.handed| && s.handed[k].id == id && s.handed[k].group == g && s.handed[k].outcome == e.outcome;
    assert t.handed[k].id == id && t.handed[k].group == g;
    assert Ends(t, id, g, AtQueue(t.handed[k].outcome));
    if e'.AtQueue? { OneOutcome(t, id, g, t.handed[k].outcome, e'.outcome); }
  }

  /** A frame comes to the queue only by the last packet of its group. */
  lemma NewEnding(c: Config, s: State, a: Action, t: State, id: nat, g: nat, e: Ending, e': Ending)
    requires Fits(c, s) && Tracked(s.streams, s.fates, s.inflight) && id < |s.streams| && g < |s.queues|
    requires HandedChange(c, s, a, t) && !e.AtQueue? && e'.AtQueue?
    requires Ends(s, id, g, e) && Ends(t, id, g, e')
    ensures e.InProgress? && EndingChange(c, s, a, t, id, g, e, e')
  {
    var k :| 0 <= k < |t.handed| && t.handed[k].id == id && t.handed[k].group == g && t.handed[k].outcome == e'.outcome;
  }

  /** What a step may do to the hand-overs: add the frame of a callback, or end the wait. */
  ghost predicate HandedChange(c: Config, s: State, a: Action, t: State)
  {
    || t.handed == s.handed
    || (a.Stop? && s.waiting.Some? && s.waiting.value < |s.handed| &&
        t.handed == s.handed[s.waiting.value := s.handed[s.waiting.value].(outcome := DroppedStopped)])
    || (a.Callback? && a.packet.stamp in s.inflight && a.order < Outputs(c)
        && NewHandoff(c, s, a.packet.stamp, a.order, t))
  }

  ghost predicate NewHandoff(c: Config, s: State, stamp: int, order: nat, t: State)
    requires stamp in s.inflight && order < Outputs(c)
  {
    && c.groups[order] < |s.queues| && c.groups[order] < |c.cleaning|
    && |t.handed| == |s.handed| + 1 && s.handed <= t.handed
    && var h := t.handed[|s.handed|];
       h.id == s.inflight[stamp] && h.group == c.groups[order] && h.outcome == HandOutcome(c, s, order)
  }

  lemma CallbackHanded(c: Config, s: State, packet: Packet, order: nat)
    requires Inv(c, s) && Enabled(c, s, Callback(packet, order))
    ensures HandedChange(c, s, Callback(packet, order), CallbackStep(c, s, packet, order))
  {
    LastCallbackHands(c, s, packet, order);
    if packet.stamp in s.inflight {
      var id := s.inflight[packet.stamp];
      EffectHanded(c, s, packet, order, CallbackStep(c, s, packet, order), Fill(s.streams[id], order, packet));
    }
  }

  lemma EffectHanded(c: Config, s: State, packet: Packet, order: nat, t: State, stream: Stream)
    requires Fits(c, s) && order < Outputs(c) && c.cleaning[c.groups[order]].depth >= 1 && packet.stamp in s.inflight
    requires CallbackEffect(c, s, t, s.inflight[packet.stamp], order, stream)
    ensures HandedChange(c, s, Callback(packet, order), t)
  {
  }

  lemma HandedStep(c: Config, s: State, a: Action)
    requires Inv(c, s) && Enabled(c, s, a)
    ensures HandedChange(c, s, a, Next(c, s, a))
  {
    match a
    case Register(raw, stamp) => EvictFrame(Admit(c, s, raw, stamp));
    case Callback(packet, order) => CallbackHanded(c, s, packet, order);
    case Stop => if s.waiting.Some? { CleanedFrame(c, Release(s), s.streams[s.handed[s.waiting.value].id].stamp); }
    case Start =>
    case Clear(_) =>
    case Get(_, _) =>
  }
}
