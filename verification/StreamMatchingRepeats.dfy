/** What the matcher does if a stream reports a frame more than once: the graph must not let it.
    A repeated packet is counted like any other, so the harm may come later, when the count
    takes the frame for complete. */
module StreamMatchingRepeats {
  import opened Collections
  import opened StreamMatching
  import opened StreamMatchingSafety
  import opened StreamMatchingFreeRuns

  // ----- hand-overs in free runs

  /** With one group a frame is handed over once, when it leaves the table by its count. */
  ghost predicate HandedByCount(c: Config, streams: seq<Stream>, handed: seq<Handoff>)
  {
    && NoneTwice(handed)
    && (forall k | 0 <= k < |handed| ::
          && handed[k].order < Outputs(c) && handed[k].group == c.groups[handed[k].order] && handed[k].id < |streams|
          && streams[handed[k].id].count == Outputs(c) && handed[k].slots == streams[handed[k].id].slots)
    && (forall id, o | 0 <= id < |streams| && 0 <= o < Outputs(c) && streams[id].count == Outputs(c) ::
          WasHanded(handed, id, c.groups[o]))
  }

  ghost predicate Ranged(c: Config, streams: seq<Stream>, handed: seq<Handoff>)
  {
    forall k | 0 <= k < |handed| :: handed[k].id < |streams|
  }

  /** With several groups a frame has been handed to a group exactly if the group is full;
      while no packet was repeated for a full group, once and with the packets it still has. */
  ghost predicate HandedByMark(c: Config, streams: seq<Stream>, handed: seq<Handoff>, once: bool)
  {
    && Ranged(c, streams, handed) && HandedWhenFilled(c, streams, handed)
    && if once then HandoffsOk(c, streams, handed) && NoneTwice(handed) else !NoneTwice(handed)
  }

  ghost predicate HandedFree(c: Config, s: State, once: bool)
  {
    if GroupCount(c) == 1 then HandedByCount(c, s.streams, s.handed) else HandedByMark(c, s.streams, s.handed, once)
  }

  lemma SameWasHanded(before: seq<Handoff>, after: seq<Handoff>, id: nat, g: nat)
    requires SameHandoffs(before, after)
    ensures WasHanded(after, id, g) <==> WasHanded(before, id, g)
  {
    if WasHanded(before, id, g) {
      var k :| 0 <= k < |before| && before[k].id == id && before[k].group == g;
      assert after[k].id == id && after[k].group == g;
    }
    if WasHanded(after, id, g) {
      var k :| 0 <= k < |after| && after[k].id == id && after[k].group == g;
      assert before[k].id == id && before[k].group == g;
    }
  }

  lemma MoreWasHanded(before: seq<Handoff>, after: seq<Handoff>, id: nat, order: nat, group: nat,
                      slots: seq<Option<Packet>>, j: nat, g: nat)
    requires OneMore(before, after, id, order, group, slots)
    ensures WasHanded(after, j, g) <==> WasHanded(before, j, g) || (j == id && g == group)
  {
    SameWasHanded(before, after[..|before|], j, g);
    if WasHanded(after[..|before|], j, g) {
      var k :| 0 <= k < |before| && after[..|before|][k].id == j && after[..|before|][k].group == g;
      assert after[k].id == j && after[k].group == g;
    }
    if j == id && g == group { assert after[|before|].id == id; }
    if WasHanded(after, j, g) && !(j == id && g == group) {
      var k :| 0 <= k < |after| && after[k].id == j && after[k].group == g;
      assert k < |before| && after[..|before|][k] == after[k];
    }
  }

  lemma SameTwice(before: seq<Handoff>, after: seq<Handoff>)
    requires SameHandoffs(before, after)
    ensures NoneTwice(after) <==> NoneTwice(before)
  {
    if !NoneTwice(before) {
      var j, k :| 0 <= j < k < |before| && before[j].id == before[k].id && before[j].group == before[k].group;
      assert after[j].id == after[k].id && after[j].group == after[k].group;
    }
  }

  lemma MoreTwice(before: seq<Handoff>, after: seq<Handoff>, id: nat, order: nat, group: nat,
                  slots: seq<Option<Packet>>)
    requires OneMore(before, after, id, order, group, slots)
    ensures NoneTwice(after) <==> NoneTwice(before) && !WasHanded(before, id, group)
  {
    SameTwice(before, after[..|before|]);
    SameWasHanded(before, after[..|before|], id, group);
    if !NoneTwice(after[..|before|]) {
      var j, k :| 0 <= j < k < |before| && after[..|before|][j].id == after[..|before|][k].id &&
                  after[..|before|][j].group == after[..|before|][k].group;
      assert after[j].id == after[k].id && after[j].group == after[k].group;
    }
    if WasHanded(after[..|before|], id, group) {
      var k :| 0 <= k < |before| && after[..|before|][k].id == id && after[..|before|][k].group == group;
      assert after[k].id == after[|before|].id && after[k].group == after[|before|].group;
    }
    if NoneTwice(after[..|before|]) && !WasHanded(after[..|before|], id, group) {
      forall j, k | 0 <= j < k < |after|
        ensures after[j].id != after[k].id || after[j].group != after[k].group
      {
        assert after[..|before|][j] == after[j];
        if k < |before| { assert after[..|before|][k] == after[k]; }
      }
    }
  }

  // ----- what one step keeps

  /** A stream reports a frame again although its group is complete. */
  ghost predicate RepeatsFullGroup(c: Config, s: State, a: Action)
  {
    && a.Callback? && a.packet.stamp in s.inflight && a.order < Outputs(c)
    && RepeatsFrame(s, a, s.inflight[a.packet.stamp])
    && GroupFilled(c, s.streams[s.inflight[a.packet.stamp]], c.groups[a.order])
  }

  lemma OneGroupOnly(c: Config, o: nat)
    requires GroupCount(c) == 1 && o < Outputs(c)
    ensures c.groups[o] == 0
  {
    MaxGroupBounds(c.groups, o);
  }

  lemma NoneByCount(c: Config, s: State, t: State)
    requires FreeBase(c, s) && HandedByCount(c, s.streams, s.handed) && GotNone(c, s, t)
    ensures HandedByCount(c, t.streams, t.handed)
  {
    SameTwice(s.handed, t.handed);
    forall id, o | 0 <= id < |t.streams| && 0 <= o < Outputs(c) && t.streams[id].count == Outputs(c)
      ensures WasHanded(t.handed, id, c.groups[o])
    {
      SameWasHanded(s.handed, t.handed, id, c.groups[o]);
    }
  }

  lemma NoneByMark(c: Config, s: State, t: State, once: bool)
    requires FreeBase(c, s) && HandedByMark(c, s.streams, s.handed, once) && GotNone(c, s, t)
    ensures HandedByMark(c, t.streams, t.handed, once)
  {
    SameTwice(s.handed, t.handed);
    forall id, o | 0 <= id < |t.streams| && 0 <= o < Outputs(c)
      ensures GroupFilled(c, t.streams[id], c.groups[o]) <==> WasHanded(t.handed, id, c.groups[o])
    {
      SameWasHanded(s.handed, t.handed, id, c.groups[o]);
      if id == |s.streams| { assert t.streams[id].slots[o].None?; }
    }
    forall k | 0 <= k < |t.handed| && once
      ensures HandoffOk(c, t.streams, t.handed[k])
    {
      assert HandoffOk(c, s.streams, s.handed[k]);
    }
  }

  /** One group: the count, whatever it counted, hands the frame over. */
  lemma PacketByCount(c: Config, s: State, t: State, id: nat, order: nat, packet: Packet)
    requires FreeBase(c, s) && HandedByCount(c, s.streams, s.handed) && GroupCount(c) == 1
    requires id < |s.streams| && order < Outputs(c) && s.streams[id].count < Outputs(c)
    requires GotPacket(c, s, t, id, order, Fill(s.streams[id], order, packet))
    ensures HandedByCount(c, t.streams, t.handed)
  {
    var stream := Fill(s.streams[id], order, packet);
    assert Counted(c, s.streams[id]);
    OneGroupOnly(c, order);
    if Publishes(c, stream, order) {
      MoreTwice(s.handed, t.handed, id, order, c.groups[order], stream.slots);
    } else {
      SameTwice(s.handed, t.handed);
    }
    forall k | 0 <= k < |t.handed|
      ensures && t.handed[k].order < Outputs(c) && t.handed[k].group == c.groups[t.handed[k].order]
              && t.handed[k].id < |t.streams| && t.streams[t.handed[k].id].count == Outputs(c)
              && t.handed[k].slots == t.streams[t.handed[k].id].slots
    {
      if k < |s.handed| { assert s.handed[k].id != id && t.handed[..|s.handed|][k] == t.handed[k]; }
    }
    forall j, o | 0 <= j < |t.streams| && 0 <= o < Outputs(c) && t.streams[j].count == Outputs(c)
      ensures WasHanded(t.handed, j, c.groups[o])
    {
      OneGroupOnly(c, o);
      if Publishes(c, stream, order) {
        MoreWasHanded(s.handed, t.handed, id, order, c.groups[order], stream.slots, j, 0);
      } else {
        SameWasHanded(s.handed, t.handed, j, 0);
      }
    }
  }

  /** Several groups: the bitmap test means a full group, with repeats as well. */
  lemma MarkedIffFilled(c: Config, stream: Stream, order: nat)
    requires WellFormed(c) && Counted(c, stream) && order < Outputs(c) && GroupCount(c) > 1
    ensures Publishes(c, stream, order) <==> GroupFilled(c, stream, c.groups[order])
  {
    if !GroupFilled(c, stream, c.groups[order]) {
      var o :| 0 <= o < Outputs(c) && c.groups[o] == c.groups[order] && stream.slots[o].None?;
      assert o in c.bitmaps[order] && o !in stream.bitmap;
    }
  }

  /** A packet can complete the group of its own stream only, and only in an empty slot. */
  lemma FillGroups(c: Config, stream: Stream, order: nat, packet: Packet, g: nat)
    requires |stream.slots| == Outputs(c) && order < Outputs(c)
    ensures GroupFilled(c, stream, g) ==> GroupFilled(c, Fill(stream, order, packet), g)
    ensures GroupFilled(c, Fill(stream, order, packet), g) && !GroupFilled(c, stream, g) ==>
              g == c.groups[order] && stream.slots[order].None?
  {
    var filled := Fill(stream, order, packet);
    assert forall o | 0 <= o < Outputs(c) && o != order :: filled.slots[o] == stream.slots[o];
  }

  lemma PacketByMark(c: Config, s: State, t: State, id: nat, order: nat, packet: Packet, once: bool)
    requires WellFormed(c) && HandedByMark(c, s.streams, s.handed, once) && GroupCount(c) > 1
    requires id < |s.streams| && order < Outputs(c) && Counted(c, s.streams[id]) && s.streams[id].count < Outputs(c)
    requires GotPacket(c, s, t, id, order, Fill(s.streams[id], order, packet))
    ensures var again := s.streams[id].slots[order].Some? && GroupFilled(c, s.streams[id], c.groups[order]);
            HandedByMark(c, t.streams, t.handed, once && !again)
  {
    FillCounted(c, s.streams[id], order, packet);
    MarkedIffFilled(c, Fill(s.streams[id], order, packet), order);
    PacketRanged(c, s, t, id, order, Fill(s.streams[id], order, packet));
    PacketWhenFilled(c, s, t, id, order, packet);
    PacketTwice(c, s, t, id, order, packet);
    FullHasSlot(c, s.streams[id], order);
    if once && !GroupFilled(c, s.streams[id], c.groups[order]) { PacketHandsOk(c, s, t, id, order, packet); }
  }

  lemma PacketRanged(c: Config, s: State, t: State, id: nat, order: nat, stream: Stream)
    requires Ranged(c, s.streams, s.handed) && order < Outputs(c) == |c.bitmaps|
    requires GotPacket(c, s, t, id, order, stream)
    ensures Ranged(c, t.streams, t.handed)
  {
    forall k | 0 <= k < |t.handed|
      ensures t.handed[k].id < |t.streams|
    {
      if Publishes(c, stream, order) && k < |s.handed| { assert t.handed[..|s.handed|][k] == t.handed[k]; }
    }
  }

  lemma FullHasSlot(c: Config, stream: Stream, order: nat)
    requires order < Outputs(c) == |stream.slots|
    ensures GroupFilled(c, stream, c.groups[order]) ==> stream.slots[order].Some?
  {
  }

  /** The packet hands the frame over a second time exactly if the group was full before. */
  lemma PacketTwice(c: Config, s: State, t: State, id: nat, order: nat, packet: Packet)
    requires HandedWhenFilled(c, s.streams, s.handed)
    requires id < |s.streams| && order < Outputs(c) == |c.bitmaps| && |s.streams[id].slots| == Outputs(c)
    requires GotPacket(c, s, t, id, order, Fill(s.streams[id], order, packet))
    requires var stream := Fill(s.streams[id], order, packet);
             Publishes(c, stream, order) <==> GroupFilled(c, stream, c.groups[order])
    ensures NoneTwice(t.handed) <==> NoneTwice(s.handed) && !GroupFilled(c, s.streams[id], c.groups[order])
  {
    var (stream, g) := (Fill(s.streams[id], order, packet), c.groups[order]);
    FillGroups(c, s.streams[id], order, packet, g);
    assert GroupFilled(c, s.streams[id], g) <==> WasHanded(s.handed, id, g);
    if GroupFilled(c, stream, g) {
      MoreTwice(s.handed, t.handed, id, order, g, stream.slots);
    } else {
      SameTwice(s.handed, t.handed);
    }
  }

  lemma PacketWhenFilled(c: Config, s: State, t: State, id: nat, order: nat, packet: Packet)
    requires WellFormed(c) && HandedWhenFilled(c, s.streams, s.handed)
    requires id < |s.streams| && order < Outputs(c) && |s.streams[id].slots| == Outputs(c)
    requires GotPacket(c, s, t, id, order, Fill(s.streams[id], order, packet))
    requires var stream := Fill(s.streams[id], order, packet);
             Publishes(c, stream, order) <==> GroupFilled(c, stream, c.groups[order])
    ensures HandedWhenFilled(c, t.streams, t.handed)
  {
    var (stream, g) := (Fill(s.streams[id], order, packet), c.groups[order]);
    forall j, o | 0 <= j < |t.streams| && 0 <= o < Outputs(c)
      ensures GroupFilled(c, t.streams[j], c.groups[o]) <==> WasHanded(t.handed, j, c.groups[o])
    {
      FillGroups(c, s.streams[id], order, packet, c.groups[o]);
      assert GroupFilled(c, s.streams[j], c.groups[o]) <==> WasHanded(s.handed, j, c.groups[o]);
      if GroupFilled(c, stream, g) {
        MoreWasHanded(s.handed, t.handed, id, order, g, stream.slots, j, c.groups[o]);
      } else {
        SameWasHanded(s.handed, t.handed, j, c.groups[o]);
      }
    }
  }

  /** A hand-over of another frame or group is not touched by the packet. */
  lemma HandoffStays(c: Config, streams: seq<Stream>, id: nat, order: nat, packet: Packet, before: Handoff,
                     after: Handoff)
    requires HandoffOk(c, streams, before) && after == before.(outcome := after.outcome)
    requires id < |streams| && order < Outputs(c) && |streams[id].slots| == Outputs(c)
    requires before.id != id || before.group != c.groups[order]
    ensures HandoffOk(c, streams[id := Fill(streams[id], order, packet)], after)
  {
  }

  lemma NewHandoffOk(c: Config, streams: seq<Stream>, h: Handoff)
    requires h.id < |streams| && h.order < Outputs(c) && h.group == c.groups[h.order] && h.slots == streams[h.id].slots
    requires |h.slots| == Outputs(c) && GroupFilled(c, streams[h.id], h.group)
    ensures HandoffOk(c, streams, h)
  {
  }

  lemma PacketHandsOk(c: Config, s: State, t: State, id: nat, order: nat, packet: Packet)
    requires HandoffsOk(c, s.streams, s.handed) && HandedWhenFilled(c, s.streams, s.handed)
    requires id < |s.streams| && order < Outputs(c) == |c.bitmaps| && |s.streams[id].slots| == Outputs(c)
    requires GotPacket(c, s, t, id, order, Fill(s.streams[id], order, packet))
    requires var stream := Fill(s.streams[id], order, packet);
             Publishes(c, stream, order) <==> GroupFilled(c, stream, c.groups[order])
    requires !GroupFilled(c, s.streams[id], c.groups[order])
    ensures HandoffsOk(c, t.streams, t.handed)
  {
    forall k | 0 <= k < |t.handed|
      ensures HandoffOk(c, t.streams, t.handed[k])
    {
      if k < |s.handed| {
        var before := s.handed[k];
        assert HandoffOk(c, s.streams, before);
        assert WasHanded(s.handed, before.id, before.group);
        if Publishes(c, Fill(s.streams[id], order, packet), order) { assert t.handed[..|s.handed|][k] == t.handed[k]; }
        HandoffStays(c, s.streams, id, order, packet, before, t.handed[k]);
      } else {
        NewHandoffOk(c, t.streams, t.handed[k]);
      }
    }
  }

  lemma StepHands(c: Config, s: State, a: Action, t: State, once: bool)
    requires FreeBase(c, s) && IsFreeStep(c, s, a, t) && HandedFree(c, s, once)
    ensures HandedFree(c, t, once && !RepeatsFullGroup(c, s, a))
  {
    StepEffect(c, s, a, t);
    if a.Callback? && a.packet.stamp in s.inflight {
      InFlightNotFull(c, s, a.packet.stamp);
      if GroupCount(c) == 1 {
        PacketByCount(c, s, t, s.inflight[a.packet.stamp], a.order, a.packet);
      } else {
        PacketByMark(c, s, t, s.inflight[a.packet.stamp], a.order, a.packet, once);
      }
    } else if GroupCount(c) == 1 {
      NoneByCount(c, s, t);
    } else {
      NoneByMark(c, s, t, once);
    }
  }

  // ----- runs

  /** How many of the first n steps repeat a packet of frame id. */
  ghost function RepeatSteps(states: seq<State>, actions: seq<Action>, n: nat, id: nat): nat
    requires n <= |actions| <= |states|
  {
    if n == 0 then 0
    else RepeatSteps(states, actions, n - 1, id) + if RepeatsFrame(states[n - 1], actions[n - 1], id) then 1 else 0
  }

  /** No packet among the first n steps is repeated for a full group. */
  ghost predicate NoFullRepeat(c: Config, states: seq<State>, actions: seq<Action>, n: nat)
    requires n <= |actions| <= |states|
  {
    n == 0 || (NoFullRepeat(c, states, actions, n - 1) && !RepeatsFullGroup(c, states[n - 1], actions[n - 1]))
  }

  lemma {:induction false} FreeRunHands(c: Config, states: seq<State>, actions: seq<Action>, n: nat)
    requires WellFormed(c) && IsFreeRun(c, states, actions) && n <= |actions|
    ensures HandedFree(c, states[n], NoFullRepeat(c, states, actions, n))
    decreases n
  {
    if n > 0 {
      FreeRunHands(c, states, actions, n - 1);
      LastStep(c, states, actions, n);
      StepHands(c, states[n - 1], actions[n - 1], states[n], NoFullRepeat(c, states, actions, n - 1));
    }
  }

  lemma StepRepeats(c: Config, s: State, a: Action, t: State, id: nat)
    requires FreeBase(c, s) && IsFreeStep(c, s, a, t)
    ensures |s.streams| <= |t.streams|
    ensures id < |s.streams| ==>
              Repeats(t.streams[id]) == Repeats(s.streams[id]) + if RepeatsFrame(s, a, id) then 1 else 0
    ensures |s.streams| <= id < |t.streams| ==> Repeats(t.streams[id]) == 0
  {
    StepEffect(c, s, a, t);
    if a.Callback? && a.packet.stamp in s.inflight {
      InFlightNotFull(c, s, a.packet.stamp);
      FillCounted(c, s.streams[s.inflight[a.packet.stamp]], a.order, a.packet);
    }
  }

  ghost predicate CountsRepeats(s: State, id: nat, n: nat)
  {
    if id < |s.streams| then Repeats(s.streams[id]) == n else n == 0
  }

  lemma StepCountsRepeats(c: Config, s: State, a: Action, t: State, id: nat, n: nat)
    requires FreeBase(c, s) && IsFreeStep(c, s, a, t) && CountsRepeats(s, id, n)
    ensures CountsRepeats(t, id, n + if RepeatsFrame(s, a, id) then 1 else 0)
  {
    StepRepeats(c, s, a, t, id);
  }

  /** The count of a frame exceeds its filled slots by the repeats there were. */
  lemma {:induction false} RepeatsCounted(c: Config, states: seq<State>, actions: seq<Action>, n: nat, id: nat)
    requires WellFormed(c) && IsFreeRun(c, states, actions) && n <= |actions|
    ensures CountsRepeats(states[n], id, RepeatSteps(states, actions, n, id))
    decreases n
  {
    if n > 0 {
      RepeatsCounted(c, states, actions, n - 1, id);
      LastStep(c, states, actions, n);
      StepCountsRepeats(c, states[n - 1], actions[n - 1], states[n], id, RepeatSteps(states, actions, n - 1, id));
    }
  }

  ghost predicate AllFilled(c: Config, stream: Stream)
  {
    |stream.slots| == Outputs(c) && forall o | 0 <= o < Outputs(c) :: stream.slots[o].Some?
  }

  lemma CompleteFilled(c: Config, stream: Stream)
    requires Counted(c, stream)
    ensures AllFilled(c, stream) <==> |stream.bitmap| == Outputs(c)
  {
    SubsetSize(stream.bitmap, Below(Outputs(c)));
    if AllFilled(c, stream) { assert stream.bitmap == Below(Outputs(c)); }
  }

  /** In every run, a frame that its last packet removed has all its packets exactly if none
      was a repeat.  With one group it was then handed over once, with all of them exactly in
      that case; with several groups, some group never got the frame in the other case. */
  lemma FinishedCompleteIffNoRepeat(c: Config, states: seq<State>, actions: seq<Action>, id: nat)
    requires WellFormed(c) && IsFreeRun(c, states, actions)
    requires id < |states[|actions|].streams| && id < |states[|actions|].fates| && states[|actions|].fates[id].Finished?
    ensures var (t, again) := (states[|actions|], RepeatSteps(states, actions, |actions|, id));
            && (AllFilled(c, t.streams[id]) <==> again == 0)
            && (GroupCount(c) == 1 ==> HandedAsIs(c, t, id, again == 0))
            && (GroupCount(c) > 1 ==>
                  && ((forall o | 0 <= o < Outputs(c) :: WasHanded(t.handed, id, c.groups[o])) <==> again == 0)
                  && forall o | 0 <= o < |t.streams[id].slots| && o < Outputs(c) && t.streams[id].slots[o].None? ::
                       !WasHanded(t.handed, id, c.groups[o]))
  {
    var t := states[|actions|];
    FreeRunBase(c, states, actions, |actions|);
    FreeRunHands(c, states, actions, |actions|);
    RepeatsCounted(c, states, actions, |actions|, id);
    CompleteFilled(c, t.streams[id]);
    if GroupCount(c) == 1 {
      FinishedOneGroup(c, t, id);
    } else {
      FinishedGroups(c, t, id);
    }
  }

  /** Frame id was handed over exactly once, and with all packets or not. */
  ghost predicate HandedAsIs(c: Config, t: State, id: nat, whole: bool)
  {
    exists k :: 0 <= k < |t.handed| && t.handed[k].id == id && (HandoffOk(c, t.streams, t.handed[k]) <==> whole)
                && forall j | 0 <= j < |t.handed| && t.handed[j].id == id :: j == k
  }

  lemma FinishedOneGroup(c: Config, t: State, id: nat)
    requires WellFormed(c) && GroupCount(c) == 1 && HandedByCount(c, t.streams, t.handed)
    requires id < |t.streams| && t.streams[id].count == Outputs(c) && |t.streams[id].slots| == Outputs(c)
    ensures HandedAsIs(c, t, id, AllFilled(c, t.streams[id]))
  {
    OneGroupOnly(c, 0);
    assert WasHanded(t.handed, id, c.groups[0]);
    var k :| 0 <= k < |t.handed| && t.handed[k].id == id && t.handed[k].group == c.groups[0];
    forall j | 0 <= j < |t.handed| && t.handed[j].id == id
      ensures j == k
    {
      OneGroupOnly(c, t.handed[j].order);
    }
    WholeIffOk(c, t.streams, t.handed[k]);
  }

  lemma WholeIffOk(c: Config, streams: seq<Stream>, h: Handoff)
    requires GroupCount(c) == 1 && h.id < |streams| && h.order < Outputs(c) && h.group == c.groups[h.order]
    requires h.slots == streams[h.id].slots && |h.slots| == Outputs(c)
    ensures HandoffOk(c, streams, h) <==> AllFilled(c, streams[h.id])
  {
    forall o | 0 <= o < Outputs(c)
      ensures c.groups[o] == h.group
    {
      OneGroupOnly(c, o);
      OneGroupOnly(c, h.order);
    }
  }

  lemma FinishedGroups(c: Config, t: State, id: nat)
    requires HandedWhenFilled(c, t.streams, t.handed) && id < |t.streams| && |t.streams[id].slots| == Outputs(c)
    ensures (forall o | 0 <= o < Outputs(c) :: WasHanded(t.handed, id, c.groups[o])) <==> AllFilled(c, t.streams[id])
    ensures forall o | 0 <= o < Outputs(c) && t.streams[id].slots[o].None? :: !WasHanded(t.handed, id, c.groups[o])
  {
    forall o | 0 <= o < Outputs(c)
      ensures GroupFilled(c, t.streams[id], c.groups[o]) <==> WasHanded(t.handed, id, c.groups[o])
      ensures GroupFilled(c, t.streams[id], c.groups[o]) ==> t.streams[id].slots[o].Some?
      ensures AllFilled(c, t.streams[id]) ==> GroupFilled(c, t.streams[id], c.groups[o])
    {
    }
  }

  ghost predicate FinishedAs(s: State, id: nat, stream: Stream)
  {
    id < |s.streams| && id < |s.fates| && s.fates[id].Finished? && s.streams[id] == stream
  }

  lemma StepFinishedAs(c: Config, s: State, a: Action, t: State, id: nat, stream: Stream)
    requires FreeBase(c, s) && IsFreeStep(c, s, a, t) && FreeBase(c, t) && FinishedAs(s, id, stream)
    ensures FinishedAs(t, id, stream)
  {
    StepEffect(c, s, a, t);
    if a.Callback? && a.packet.stamp in s.inflight { InFlightNotFull(c, s, a.packet.stamp); }
  }

  /** Nothing is added to such a frame later. */
  lemma {:induction false} FinishedStays(c: Config, states: seq<State>, actions: seq<Action>, m: nat, n: nat, id: nat,
                                         stream: Stream)
    requires WellFormed(c) && IsFreeRun(c, states, actions) && m <= n <= |actions| && FinishedAs(states[m], id, stream)
    ensures FinishedAs(states[n], id, stream)
    decreases n
  {
    if m < n {
      FinishedStays(c, states, actions, m, n - 1, id, stream);
      LastStep(c, states, actions, n);
      StepFinishedAs(c, states[n - 1], actions[n - 1], states[n], id, stream);
    }
  }

  // ----- when a run keeps the promise

  /** Exactly-once holds, and every frame that left with its last packet is with every group. */
  ghost predicate Served(c: Config, t: State)
  {
    && HandedOnce(c, t.streams, t.handed)
    && forall id, o | 0 <= id < |t.fates| && t.fates[id].Finished? && 0 <= o < Outputs(c) ::
         WasHanded(t.handed, id, c.groups[o])
  }

  ghost predicate FinishedWhole(c: Config, t: State)
  {
    forall id | 0 <= id < |t.streams| && t.streams[id].count == Outputs(c) :: AllFilled(c, t.streams[id])
  }

  lemma ServedByCount(c: Config, t: State)
    requires FreeBase(c, t) && HandedByCount(c, t.streams, t.handed) && GroupCount(c) == 1
    ensures Served(c, t) <==> FinishedWhole(c, t)
  {
    forall k | 0 <= k < |t.handed|
      ensures t.handed[k].id < |t.streams| && t.streams[t.handed[k].id].count == Outputs(c)
      ensures HandoffOk(c, t.streams, t.handed[k]) <==> AllFilled(c, t.streams[t.handed[k].id])
    {
      WholeIffOk(c, t.streams, t.handed[k]);
    }
    forall id, o | 0 <= id < |t.streams| && 0 <= o < Outputs(c)
      ensures WasHanded(t.handed, id, c.groups[o]) <==> t.streams[id].count == Outputs(c)
      ensures GroupFilled(c, t.streams[id], c.groups[o]) <==> AllFilled(c, t.streams[id])
      ensures AllFilled(c, t.streams[id]) ==> t.streams[id].count == Outputs(c)
    {
      GroupIsAll(c, t.streams[id], o);
      CompleteFilled(c, t.streams[id]);
    }
    if Served(c, t) {
      forall id | 0 <= id < |t.streams| && t.streams[id].count == Outputs(c)
        ensures AllFilled(c, t.streams[id])
      {
        assert GroupFilled(c, t.streams[id], c.groups[0]) <==> WasHanded(t.handed, id, c.groups[0]);
      }
    }
  }

  lemma GroupIsAll(c: Config, stream: Stream, o: nat)
    requires GroupCount(c) == 1 && o < Outputs(c) && |stream.slots| == Outputs(c)
    ensures GroupFilled(c, stream, c.groups[o]) <==> AllFilled(c, stream)
  {
    forall p | 0 <= p < Outputs(c)
      ensures c.groups[p] == c.groups[o]
    {
      OneGroupOnly(c, o);
      OneGroupOnly(c, p);
    }
  }

  lemma ServedByMark(c: Config, t: State, once: bool)
    requires FreeBase(c, t) && HandedByMark(c, t.streams, t.handed, once)
    ensures Served(c, t) <==> FinishedWhole(c, t) && once
  {
    forall id | 0 <= id < |t.streams|
      ensures (forall o | 0 <= o < Outputs(c) :: WasHanded(t.handed, id, c.groups[o])) <==> AllFilled(c, t.streams[id])
    {
      FinishedGroups(c, t, id);
    }
  }

  /** Over all runs: the promise is kept exactly if no frame that left with its last packet had
      a repeated one and, with several groups, none was repeated for a full group. */
  lemma ServedIffNoHarmfulRepeat(c: Config, states: seq<State>, actions: seq<Action>)
    requires WellFormed(c) && IsFreeRun(c, states, actions)
    ensures var t := states[|actions|];
            Served(c, t) <==>
              && (forall id | 0 <= id < |t.fates| && t.fates[id].Finished? ::
                    RepeatSteps(states, actions, |actions|, id) == 0)
              && (GroupCount(c) > 1 ==> NoFullRepeat(c, states, actions, |actions|))
  {
    var t := states[|actions|];
    FreeRunBase(c, states, actions, |actions|);
    FreeRunHands(c, states, actions, |actions|);
    if GroupCount(c) == 1 {
      ServedByCount(c, t);
    } else {
      ServedByMark(c, t, NoFullRepeat(c, states, actions, |actions|));
    }
    forall id | 0 <= id < |t.streams|
      ensures t.fates[id].Finished? <==> t.streams[id].count == Outputs(c)
      ensures t.fates[id].Finished? ==>
                (AllFilled(c, t.streams[id]) <==> RepeatSteps(states, actions, |actions|, id) == 0)
    {
      RepeatsCounted(c, states, actions, |actions|, id);
      CompleteFilled(c, t.streams[id]);
    }
  }

  // ----- runs with repeated packets

  const PACKET := Packet(7, 0)

  /** All queues cover old frames, so that nothing waits. */
  ghost predicate Covering(c: Config)
  {
    WellFormed(c) && forall g | 0 <= g < |c.cleaning| :: c.cleaning[g].policy.LoopCover?
  }

  /** One frame, reported by these streams one after the other. */
  function Reports(orders: seq<nat>): (actions: seq<Action>)
    ensures |actions| == 2 + |orders|
  {
    if orders == [] then [Start, Register(0, 7)]
    else Reports(orders[..|orders| - 1]) + [Callback(PACKET, orders[|orders| - 1])]
  }

  /** The frame after these reports; once the count is full there is none to fill. */
  function Reported(outputs: nat, orders: seq<nat>): (stream: Stream)
    requires forall k | 0 <= k < |orders| :: orders[k] < outputs
    ensures |stream.slots| == outputs
  {
    if orders == [] then Stream(0, 7, 0, {}, seq(outputs, _ => None))
    else
      var before := Reported(outputs, orders[..|orders| - 1]);
      if before.count == outputs then before else Fill(before, orders[|orders| - 1], PACKET)
  }

  /** Only this frame, in flight until its count is full. */
  ghost predicate HoldsOne(c: Config, s: State, stream: Stream)
  {
    && s.started && s.waiting.None? && s.streams == [stream] && stream.stamp == 7
    && s.inflight == if stream.count == Outputs(c) then map[] else map[7 := 0]
  }

  lemma OneRegistered(c: Config)
    requires WellFormed(c)
    ensures var s := Init(c).(started := true);
            IsFreeStep(c, Init(c), Start, s) && IsFreeStep(c, s, Register(0, 7), Admit(c, s, 0, 7))
    ensures HoldsOne(c, Admit(c, Init(c).(started := true), 0, 7), Reported(Outputs(c), []))
  {
    InitInv(c);
    NextInv(c, Init(c), Start);
    var s := Init(c).(started := true);
    AdmitSize(c, s, 0, 7);
  }

  lemma FewStay(c: Config, s: State, stamp: int)
    requires |s.inflight| <= 1
    ensures Cleaned(c, s, stamp) == s
  {
  }

  /** The packet is put into the only frame, which leaves if its count is full. */
  lemma OneAbsorbed(c: Config, s: State, stream: Stream, order: nat)
    requires Fits(c, s) && HoldsOne(c, s, stream) && order < Outputs(c) == |stream.slots| && stream.count != Outputs(c)
    ensures HoldsOne(c, Absorb(c, s, PACKET, order), Fill(stream, order, PACKET))
    ensures Fits(c, Absorb(c, s, PACKET, order))
  {
  }

  lemma OneHanded(c: Config, s: State, stream: Stream, order: nat)
    requires Covering(c) && Fits(c, s) && HoldsOne(c, s, stream) && order < Outputs(c)
    ensures HoldsOne(c, Hand(c, s, 0, order), stream)
  {
  }

  lemma OneReport(c: Config, s: State, stream: Stream, order: nat, t: State)
    requires Covering(c) && Fits(c, s) && HoldsOne(c, s, stream) && order < Outputs(c)
    requires t == Next(c, s, Callback(PACKET, order))
    ensures IsFreeStep(c, s, Callback(PACKET, order), t)
    ensures HoldsOne(c, t, if stream.count == Outputs(c) then stream else Fill(stream, order, PACKET))
  {
    assert |s.streams[0].slots| == Outputs(c);
    if stream.count != Outputs(c) {
      OneAbsorbed(c, s, stream, order);
      OneHanded(c, Absorb(c, s, PACKET, order), Fill(stream, order, PACKET), order);
      FewStay(c, Match(c, s, PACKET, order), PACKET.stamp);
    } else {
      FewStay(c, s, PACKET.stamp);
    }
  }

  lemma {:induction false} ReportRun(c: Config, orders: seq<nat>) returns (states: seq<State>)
    requires Covering(c) && forall k | 0 <= k < |orders| :: orders[k] < Outputs(c)
    ensures IsFreeRun(c, states, Reports(orders))
    ensures HoldsOne(c, states[2 + |orders|], Reported(Outputs(c), orders))
    ensures FreeBase(c, states[2 + |orders|])
    decreases |orders|
  {
    if orders == [] {
      OneRegistered(c);
      var s := Init(c).(started := true);
      states := [Init(c), s, Admit(c, s, 0, 7)];
      RunOfTwo(c, states);
    } else {
      var rest := orders[..|orders| - 1];
      var before := ReportRun(c, rest);
      var (s, order) := (before[2 + |rest|], orders[|orders| - 1]);
      OneReport(c, s, Reported(Outputs(c), rest), order, Next(c, s, Callback(PACKET, order)));
      states := before + [Next(c, s, Callback(PACKET, order))];
      RunGrows(c, before, Reports(rest), Callback(PACKET, order), Next(c, s, Callback(PACKET, order)));
    }
    FreeRunBase(c, states, Reports(orders), 2 + |orders|);
  }

  lemma RunOfTwo(c: Config, states: seq<State>)
    requires |states| == 3 && states[0] == Init(c)
    requires IsFreeStep(c, states[0], Start, states[1]) && IsFreeStep(c, states[1], Register(0, 7), states[2])
    ensures IsFreeRun(c, states, [Start, Register(0, 7)])
  {
  }

  lemma RunGrows(c: Config, states: seq<State>, actions: seq<Action>, a: Action, t: State)
    requires IsFreeRun(c, states, actions) && IsFreeStep(c, states[|actions|], a, t)
    ensures IsFreeRun(c, states + [t], actions + [a])
  {
    forall k: nat | k < |actions| + 1
      ensures StepAt(c, states + [t], actions + [a], k)
    {
      if k < |actions| { assert StepAt(c, states, actions, k); }
    }
  }

  /** One group of three: stream 0 repeats its packet, stream 1 makes the count full, and the
      frame is handed over without a packet of stream 2. */
  lemma ShortFrameHanded(c: Config) returns (states: seq<State>)
    requires Covering(c) && Outputs(c) == 3 && GroupCount(c) == 1
    ensures IsFreeRun(c, states, Reports([0, 0, 1]))
    ensures exists k :: 0 <= k < |states[5].handed| &&
              |states[5].handed[k].slots| == 3 && states[5].handed[k].slots[2].None?
  {
    states := ReportRun(c, [0, 0, 1]);
    var t := states[5];
    assert [0, 0, 1][..2] == [0, 0] && [0, 0][..1] == [0] && [0][..0] == [];
    assert t.streams[0] == Reported(3, [0, 0, 1]) && t.streams[0].count == 3 && t.streams[0].slots[2].None?;
    FreeRunHands(c, states, Reports([0, 0, 1]), 5);
    assert WasHanded(t.handed, 0, c.groups[0]);
  }

  /** Streams 1 and 2 in one group, stream 0 in another: stream 1 repeats its packet, the frame
      leaves with the packet of stream 0, and the group never gets it although stream 2 reports. */
  lemma FullGroupMissed(c: Config) returns (states: seq<State>)
    requires Covering(c) && c.groups == [0, 1, 1]
    ensures IsFreeRun(c, states, Reports([1, 1, 0, 2]))
    ensures |states[6].fates| == 1 && states[6].fates[0].Finished? && !WasHanded(states[6].handed, 0, 1)
  {
    states := ReportRun(c, [1, 1, 0, 2]);
    ReportedShort();
    FreeRunHands(c, states, Reports([1, 1, 0, 2]), 6);
    MaxGroupBounds(c.groups, 1);
    MissedByGroup(c, states[6], 2);
  }

  lemma ReportedShort()
    ensures Reported(3, [1, 1, 0, 2]).count == 3 && Reported(3, [1, 1, 0, 2]).slots[2].None?
  {
    assert [1, 1, 0, 2][..3] == [1, 1, 0] && [1, 1, 0][..2] == [1, 1] && [1, 1][..1] == [1] && [1][..0] == [];
  }

  lemma MissedByGroup(c: Config, t: State, o: nat)
    requires HandedWhenFilled(c, t.streams, t.handed) && |t.streams| == 1
    requires o < Outputs(c) == |t.streams[0].slots| && t.streams[0].slots[o].None?
    ensures !WasHanded(t.handed, 0, c.groups[o])
  {
    assert !GroupFilled(c, t.streams[0], c.groups[o]);
  }

  /** Two streams in groups of their own: stream 0 repeats its packet, and its group gets the
      frame a second time. */
  lemma FullGroupTwice(c: Config) returns (states: seq<State>)
    requires Covering(c) && c.groups == [0, 1]
    ensures IsFreeRun(c, states, Reports([0, 0]))
    ensures !NoneTwice(states[4].handed)
  {
    var before := ReportRun(c, [0]);
    var s := before[3];
    assert [0][..0] == [] && [0, 0][..1] == [0];
    FreeRunHands(c, before, Reports([0]), 3);
    MaxGroupBounds(c.groups, 1);
    var t := Next(c, s, Callback(PACKET, 0));
    OneReport(c, s, Reported(2, [0]), 0, t);
    assert RepeatsFullGroup(c, s, Callback(PACKET, 0));
    StepHands(c, s, Callback(PACKET, 0), t, NoFullRepeat(c, before, Reports([0]), 3));
    states := before + [t];
    RunGrows(c, before, Reports([0]), Callback(PACKET, 0), t);
  }
}
