/** The order of the queues when callbacks take their two locks one after the other. */
module StreamMatchingTurns {
  import opened Collections
  import opened StreamMatching
  import opened StreamMatchingSafety
  import opened StreamMatchingQueues
  import opened StreamMatchingSplit

  // ----- the order of a queue

  ghost predicate Earlier(streams: seq<Stream>, h: Handoff, d: Handoff)
  {
    h.id < |streams| && d.id < |streams| && (h.group == d.group ==> streams[h.id].stamp < streams[d.id].stamp)
  }

  /** Frames that are due are newer than those published, and than those that are due before. */
  ghost predicate DueNewer(streams: seq<Stream>, handed: seq<Handoff>, due: seq<Handoff>)
  {
    && (forall k, i | 0 <= k < |handed| && handed[k].outcome.Published? && 0 <= i < |due| ::
          Earlier(streams, handed[k], due[i]))
    && (forall j, i | 0 <= j < i < |due| :: Earlier(streams, due[j], due[i]))
  }

  ghost predicate InOrderSoFar(c: Config, x: Split)
  {
    && LatestOk(c, x.s.streams, x.s.latest) && AllNewestFirst(x.s.streams, x.s.queues)
    && DueNewer(x.s.streams, x.s.handed, x.due)
  }

  /** Streams deliver in the order of their stamps, and no callback overtakes another of its group
      between the locks. */
  ghost predicate InTurn(c: Config, x: Split, step: Step)
    requires Allowed(c, x, step)
  {
    match step
    case Receive(packet, order) => InOrder(c, x.s, Callback(packet, order))
    case Deliver(i) => forall j | 0 <= j < i :: x.due[j].group != x.due[i].group
    case _ => true
  }

  lemma RegisterOrder(c: Config, x: Split, raw: nat, stamp: int)
    requires InOrderSoFar(c, x)
    ensures InOrderSoFar(c, x.(s := RegisterStep(c, x.s, raw, stamp)))
  {
    if x.s.started && stamp !in x.s.inflight { EvictFrame(Admit(c, x.s, raw, stamp)); }
  }

  lemma CallOrder(c: Config, x: Split, a: Action)
    requires InOrderSoFar(c, x) && Allowed(c, x, Call(a))
    ensures InOrderSoFar(c, After(c, x, Call(a)))
  {
    match a
    case Register(raw, stamp) => RegisterOrder(c, x, raw, stamp);
    case Get(group, reuse) =>
    case Clear(_) =>
    case Start =>
    case Stop =>
  }

  /** A frame with a filled slot of this stream is older than the stream's next packet. */
  lemma ReceivedIsNewer(c: Config, streams: seq<Stream>, latest: seq<Option<int>>, handed: seq<Handoff>, k: nat,
                        packet: Packet, order: nat)
    requires HandoffsOk(c, streams, handed) && LatestOk(c, streams, latest) && k < |handed| && order < Outputs(c)
    requires handed[k].group == c.groups[order] && (latest[order].Some? ==> latest[order].value < packet.stamp)
    ensures handed[k].id < |streams| && streams[handed[k].id].stamp < packet.stamp
  {
    assert HandoffOk(c, streams, handed[k]);
    assert streams[handed[k].id].slots[order].Some?;
  }

  /** A frame that becomes due is newer than all of its group. */
  lemma DueAdded(streams: seq<Stream>, handed: seq<Handoff>, due: seq<Handoff>, h: Handoff)
    requires DueNewer(streams, handed, due) && h.id < |streams|
    requires forall k | 0 <= k < |handed + due| :: Earlier(streams, (handed + due)[k], h)
    ensures DueNewer(streams, handed, due + [h])
  {
    forall k | 0 <= k < |handed|
      ensures Earlier(streams, handed[k], h)
    {
      assert (handed + due)[k] == handed[k];
    }
    forall j | 0 <= j < |due|
      ensures Earlier(streams, due[j], h)
    {
      assert (handed + due)[|handed| + j] == due[j];
    }
  }

  lemma DueKept(streams: seq<Stream>, after: seq<Stream>, handed: seq<Handoff>, due: seq<Handoff>)
    requires DueNewer(streams, handed, due) && SameStamps(streams, after)
    ensures DueNewer(after, handed, due)
  {
  }

  lemma LatestAdvancesHere(c: Config, streams: seq<Stream>, latest: seq<Option<int>>, id: nat, order: nat,
                           packet: Packet)
    requires LatestOk(c, streams, latest) && id < |streams| && order < Outputs(c) && |streams[id].slots| == Outputs(c)
    requires streams[id].stamp == packet.stamp && (latest[order].Some? ==> latest[order].value < packet.stamp)
    ensures LatestOk(c, streams[id := Fill(streams[id], order, packet)], latest[order := Some(packet.stamp)])
  {
  }

  lemma LatestAdvancesElsewhere(c: Config, streams: seq<Stream>, latest: seq<Option<int>>, order: nat, stamp: int)
    requires LatestOk(c, streams, latest) && order < Outputs(c) && (latest[order].Some? ==> latest[order].value < stamp)
    ensures LatestOk(c, streams, latest[order := Some(stamp)])
  {
  }

  lemma ReceiveOrder(c: Config, x: Split, packet: Packet, order: nat)
    requires SplitInv(c, x) && InOrderSoFar(c, x)
    requires Allowed(c, x, Receive(packet, order)) && InTurn(c, x, Receive(packet, order))
    ensures InOrderSoFar(c, ReceiveStep(c, x, packet, order))
  {
    if packet.stamp in x.s.inflight {
      ReceivedInOrder(c, x, packet, order, x.s.inflight[packet.stamp]);
    } else {
      LatestAdvancesElsewhere(c, x.s.streams, x.s.latest, order, packet.stamp);
    }
  }

  lemma ReceivedInOrder(c: Config, x: Split, packet: Packet, order: nat, id: nat)
    requires Fits(c, x.s) && order < Outputs(c) && packet.stamp in x.s.inflight && id == x.s.inflight[packet.stamp]
    requires x.s.streams[id].stamp == packet.stamp && HandoffsOk(c, x.s.streams, x.s.handed + x.due)
    requires InOrderSoFar(c, x) && InOrder(c, x.s, Callback(packet, order))
    ensures InOrderSoFar(c, ReceiveStep(c, x, packet, order))
  {
    var stream := Fill(x.s.streams[id], order, packet);
    var after := x.s.streams[id := stream];
    var h := Handoff(id, c.groups[order], order, stream.slots, Waiting);
    AbsorbEffect(c, x.s, packet, order);
    LatestAdvancesHere(c, x.s.streams, x.s.latest, id, order, packet);
    StampsKept(x.s.streams, after, x.s.queues);
    DueKept(x.s.streams, after, x.s.handed, x.due);
    forall k | 0 <= k < |x.s.handed + x.due|
      ensures Earlier(after, (x.s.handed + x.due)[k], h)
    {
      assert HandoffOk(c, x.s.streams, (x.s.handed + x.due)[k]);
      if (x.s.handed + x.due)[k].group == h.group {
        ReceivedIsNewer(c, x.s.streams, x.s.latest, x.s.handed + x.due, k, packet, order);
      }
    }
    DueAdded(after, x.s.handed, x.due, h);
  }

  lemma DueTaken(streams: seq<Stream>, handed: seq<Handoff>, due: seq<Handoff>, i: nat, h: Handoff)
    requires DueNewer(streams, handed, due) && i < |due| && h.id == due[i].id && h.group == due[i].group
    requires h.outcome.Published? ==> forall j | 0 <= j < i :: due[j].group != due[i].group
    requires forall j | 0 <= j < |due| :: due[j].id < |streams|
    ensures DueNewer(streams, handed + [h], Without(due, i))
  {
    var rest := Without(due, i);
    forall j | 0 <= j < |rest|
      ensures rest[j] == due[if j < i then j else j + 1]
    {
    }
  }

  lemma PushNewest(streams: seq<Stream>, queue: seq<nat>, cleaning: Cleaning, id: nat)
    requires NewestFirst(streams, queue) && id < |streams|
    requires forall i | 0 <= i < |queue| :: streams[queue[i]].stamp < streams[id].stamp
    ensures NewestFirst(streams, Push(cleaning, queue, id))
  {
  }

  lemma DeliverOrder(c: Config, x: Split, i: nat)
    requires SplitInv(c, x) && InOrderSoFar(c, x) && Allowed(c, x, Deliver(i)) && InTurn(c, x, Deliver(i))
    ensures InOrderSoFar(c, DeliverStep(c, x, i))
  {
    var (s, g) := (x.s, x.due[i].group);
    var h := Made(s, x.due[i], LockedOutcome(c.cleaning[g], s.started, |s.queues[g]|));
    DeliverEffect(c, x, i);
    DueTaken(s.streams, s.handed, x.due, i, h);
    QueuedAreOlder(c, s, x.due[i]);
    PushNewest(s.streams, s.queues[g], c.cleaning[g], h.id);
  }

  lemma QueuedAreOlder(c: Config, s: State, d: Handoff)
    requires Queued(c, s.queues, s.handed) && d.group < |s.queues|
    requires forall k | 0 <= k < |s.handed| && s.handed[k].outcome.Published? :: Earlier(s.streams, s.handed[k], d)
    requires forall j | 0 <= j < |s.queues[d.group]| :: s.queues[d.group][j] < |s.streams|
    requires d.id < |s.streams|
    ensures forall j | 0 <= j < |s.queues[d.group]| ::
              s.streams[s.queues[d.group][j]].stamp < s.streams[d.id].stamp
  {
    forall j | 0 <= j < |s.queues[d.group]|
      ensures s.streams[s.queues[d.group][j]].stamp < s.streams[d.id].stamp
    {
      assert QueueOk(s.queues[d.group], c.cleaning[d.group].depth, s.handed, d.group);
      assert WasPublished(s.handed, s.queues[d.group][j], d.group);
      var k :| 0 <= k < |s.handed| && s.handed[k].id == s.queues[d.group][j] && s.handed[k].group == d.group
               && s.handed[k].outcome.Published?;
      assert Earlier(s.streams, s.handed[k], d);
    }
  }

  lemma LookOrder(x: Split, c: Config, i: nat)
    requires InOrderSoFar(c, x) && Allowed(c, x, Look(i))
    ensures InOrderSoFar(c, LookStep(x, i))
  {
    if !x.s.started { DueTaken(x.s.streams, x.s.handed, x.due, i, Made(x.s, x.due[i], DroppedStopped)); }
  }

  lemma StepOrder(c: Config, x: Split, step: Step)
    requires SplitInv(c, x) && InOrderSoFar(c, x) && Allowed(c, x, step) && InTurn(c, x, step)
    ensures InOrderSoFar(c, After(c, x, step))
  {
    match step
    case Call(a) => CallOrder(c, x, a);
    case Receive(packet, order) => ReceiveOrder(c, x, packet, order);
    case Look(i) => LookOrder(x, c, i);
    case Deliver(i) => DeliverOrder(c, x, i);
    case Wake =>
    case Clean(stamp) => CleanedFrame(c, x.s, stamp);
  }

  ghost predicate TurnAt(c: Config, states: seq<Split>, steps: seq<Step>, k: nat)
    requires |states| == |steps| + 1 && k < |steps|
  {
    Allowed(c, states[k], steps[k]) && InTurn(c, states[k], steps[k])
  }

  lemma FollowsOrder(c: Config, x: Split, step: Step, y: Split)
    requires SplitInv(c, x) && InOrderSoFar(c, x) && Follows(c, x, step, y) && InTurn(c, x, step)
    ensures InOrderSoFar(c, y)
  {
    StepOrder(c, x, step);
  }

  lemma OrderAt(c: Config, states: seq<Split>, steps: seq<Step>, j: nat)
    requires WellFormed(c) && IsInterleaving(c, states, steps) && j < |steps|
    requires TurnAt(c, states, steps, j) && InOrderSoFar(c, states[j])
    ensures InOrderSoFar(c, states[j + 1])
  {
    InterleavingInv(c, states, steps, j);
    assert StepAt(c, states, steps, j);
    FollowsOrder(c, states[j], steps[j], states[j + 1]);
  }

  lemma InitOrder(c: Config)
    ensures InOrderSoFar(c, Split(Init(c), [], []))
  {
  }

  /** In every interleaving in which callbacks of a group take the output lock in the order of
      their packets, and streams deliver in stamp order, all queues stay newest first. */
  lemma InTurnNewestFirst(c: Config, states: seq<Split>, steps: seq<Step>, k: nat)
    requires WellFormed(c) && IsInterleaving(c, states, steps) && k <= |steps|
    requires forall j: nat | j < |steps| :: TurnAt(c, states, steps, j)
    ensures AllNewestFirst(states[k].s.streams, states[k].s.queues)
  {
    InitOrder(c);
    forall j | 0 < j < |states| && InOrderSoFar(c, states[j - 1])
      ensures InOrderSoFar(c, states[j])
    {
      assert TurnAt(c, states, steps, j - 1);
      OrderAt(c, states, steps, j - 1);
    }
    KeptAlong(states, x => InOrderSoFar(c, x), k);
  }

  // ----- callbacks that overtake

  const OLDER := Packet(1, 0)
  const NEWER := Packet(2, 0)
  const OVERTAKING := [Call(Start), Call(Register(0, 1)), Call(Register(0, 2)), Receive(OLDER, 0), Receive(NEWER, 0),
                       Look(0), Look(1), Deliver(1), Deliver(0)]

  /** Two frames of one output in flight, none reported. */
  ghost predicate TwoInFlight(c: Config, x: Split)
  {
    && x.s.started && x.s.inflight == map[1 := 0, 2 := 1] && x.due == [] && x.ready == [] && x.s.handed == []
    && x.s.streams == [Stream(0, 1, 0, {}, [None]), Stream(0, 2, 0, {}, [None])]
    && x.s.queues == [[]] && x.s.waiting.None? && x.s.latest == [None] && Fits(c, x.s)
  }

  ghost predicate OneCovering(c: Config)
  {
    WellFormed(c) && c.groups == [0] && |c.cleaning| == 1 && c.cleaning[0].policy.LoopCover? && c.cleaning[0].depth >= 2
  }

  lemma TwoRegistered(c: Config)
    requires OneCovering(c)
    ensures var s1 := Init(c).(started := true);
            var s2 := Admit(c, s1, 0, 1);
            && Follows(c, Idle(Init(c)), Call(Start), Idle(s1)) && Follows(c, Idle(s1), Call(Register(0, 1)), Idle(s2))
            && Follows(c, Idle(s2), Call(Register(0, 2)), Idle(Admit(c, s2, 0, 2)))
            && TwoInFlight(c, Idle(Admit(c, s2, 0, 2)))
  {
    var s1 := Init(c).(started := true);
    var s2 := Admit(c, s1, 0, 1);
    var s3 := Admit(c, s2, 0, 2);
    IdleInv(c);
    AdmitSize(c, s1, 0, 1);
    AdmitSize(c, s2, 0, 2);
    assert s3.streams[0].slots == [None] && s3.streams[1].slots == [None];
  }

  /** Both packets received: both frames are due, the older one first. */
  ghost predicate TwoDue(c: Config, x: Split, ready: seq<bool>)
  {
    && x.s.started && x.s.inflight == map[] && |x.due| == 2 && x.ready == ready && |ready| == 2 && x.s.handed == []
    && x.due[0].id == 0 && x.due[1].id == 1 && x.due[0].group == 0 && x.due[1].group == 0
    && |x.s.streams| == 2 && x.s.streams[0].stamp == 1 && x.s.streams[1].stamp == 2
    && x.s.queues == [[]] && x.s.waiting.None? && Fits(c, x.s)
  }

  lemma BothReceived(c: Config, x: Split)
    requires OneCovering(c) && TwoInFlight(c, x)
    ensures Allowed(c, x, Receive(OLDER, 0)) && InTurn(c, x, Receive(OLDER, 0))
    ensures var y := ReceiveStep(c, x, OLDER, 0);
            && Allowed(c, y, Receive(NEWER, 0)) && InTurn(c, y, Receive(NEWER, 0))
            && TwoDue(c, ReceiveStep(c, y, NEWER, 0), [false, false])
  {
    var y := ReceiveStep(c, x, OLDER, 0);
    assert y.s.inflight == map[2 := 1];
    assert y.s.streams == [Fill(x.s.streams[0], 0, OLDER), x.s.streams[1]];
    var z := ReceiveStep(c, y, NEWER, 0);
    assert z.s.inflight == map[];
    assert z.s.streams == [Fill(x.s.streams[0], 0, OLDER), Fill(x.s.streams[1], 0, NEWER)];
  }

  lemma BothLooked(c: Config, x: Split)
    requires OneCovering(c) && TwoDue(c, x, [false, false])
    ensures Follows(c, x, Look(0), LookStep(x, 0)) && Follows(c, LookStep(x, 0), Look(1), LookStep(LookStep(x, 0), 1))
    ensures TwoDue(c, LookStep(LookStep(x, 0), 1), [true, true])
  {
  }

  /** The newer frame is delivered first. */
  ghost predicate NewerDelivered(c: Config, x: Split)
  {
    && x.s.queues == [[1]] && |x.due| == 1 && x.ready == [true] && x.due[0].id == 0 && x.due[0].group == 0
    && |x.s.streams| == 2 && x.s.streams[0].stamp == 1 && x.s.streams[1].stamp == 2
    && x.s.waiting.None? && Fits(c, x.s)
  }

  lemma NewerInFront(c: Config, x: Split)
    requires OneCovering(c) && TwoDue(c, x, [true, true])
    ensures Follows(c, x, Deliver(1), DeliverStep(c, x, 1)) && NewerDelivered(c, DeliverStep(c, x, 1))
  {
    assert Push(c.cleaning[0], [], 1) == [1];
  }

  lemma OlderInFront(c: Config, x: Split)
    requires OneCovering(c) && NewerDelivered(c, x)
    ensures Follows(c, x, Deliver(0), DeliverStep(c, x, 0)) && OutOfOrder(DeliverStep(c, x, 0).s)
  {
    assert Push(c.cleaning[0], [1], 0) == [0, 1];
  }

  /** The older of two frames is in front. */
  ghost predicate OutOfOrder(s: State)
  {
    s.queues == [[0, 1]] && |s.streams| == 2 && s.streams[0].stamp < s.streams[1].stamp
  }

  lemma PathOfTwo(c: Config, x: Split, a: Step, y: Split, b: Step, z: Split)
    requires Follows(c, x, a, y) && Follows(c, y, b, z)
    ensures IsPath(c, [x, y, z], [a, b])
  {
    forall k: nat | k < 2
      ensures StepAt(c, [x, y, z], [a, b], k)
    {
      if k == 0 { assert Follows(c, x, a, y); } else { assert Follows(c, y, b, z); }
    }
  }

  lemma JoinTwo(c: Config, states: seq<Split>, steps: seq<Step>, x: Split, a: Step, y: Split, b: Step, z: Split)
    requires IsPath(c, states, steps) && states[|steps|] == x && IsPath(c, [x, y, z], [a, b])
    ensures IsPath(c, states + [y, z], steps + [a, b])
  {
    PathsJoin(c, states, steps, [x, y, z], [a, b]);
    assert [x, y, z][1..] == [y, z];
  }

  /** Two packets in stamp order and two callbacks of which the second takes the output lock
      first: the older frame is in front of the newer one. */
  lemma Overtaken(c: Config) returns (states: seq<Split>)
    requires OneCovering(c)
    ensures IsInterleaving(c, states, OVERTAKING) && OutOfOrder(states[9].s)
    ensures Allowed(c, states[3], OVERTAKING[3]) && InTurn(c, states[3], OVERTAKING[3])
    ensures Allowed(c, states[4], OVERTAKING[4]) && InTurn(c, states[4], OVERTAKING[4])
  {
    var registered := RegisteredPath(c);
    var x3 := registered[3];
    var x4 := ReceiveStep(c, x3, OLDER, 0);
    var x5 := ReceiveStep(c, x4, NEWER, 0);
    var received := [x3, x4, x5];
    BothReceived(c, x3);
    PathOfTwo(c, x3, Receive(OLDER, 0), x4, Receive(NEWER, 0), x5);
    var delivered := DeliveredPath(c, x5);
    assert OVERTAKING[..3] == [Call(Start), Call(Register(0, 1)), Call(Register(0, 2))];
    assert OVERTAKING[3..5] == [Receive(OLDER, 0), Receive(NEWER, 0)];
    assert OVERTAKING[5..] == [Look(0), Look(1), Deliver(1), Deliver(0)];
    states := OvertakingPath(c, registered, received, delivered);
  }

  lemma RegisteredPath(c: Config) returns (states: seq<Split>)
    requires OneCovering(c)
    ensures IsPath(c, states, [Call(Start), Call(Register(0, 1)), Call(Register(0, 2))])
    ensures states[0] == Idle(Init(c)) && TwoInFlight(c, states[3])
  {
    var s1 := Init(c).(started := true);
    var s2 := Admit(c, s1, 0, 1);
    TwoRegistered(c);
    PathOfTwo(c, Idle(Init(c)), Call(Start), Idle(s1), Call(Register(0, 1)), Idle(s2));
    states := [Idle(Init(c)), Idle(s1), Idle(s2), Idle(Admit(c, s2, 0, 2))];
    PathGrows(c, [Idle(Init(c)), Idle(s1), Idle(s2)], [Call(Start), Call(Register(0, 1))], Call(Register(0, 2)),
              states[3]);
    assert states == [Idle(Init(c)), Idle(s1), Idle(s2)] + [states[3]];
    assert [Call(Start), Call(Register(0, 1))] + [Call(Register(0, 2))]
        == [Call(Start), Call(Register(0, 1)), Call(Register(0, 2))];
  }

  lemma DeliveredPath(c: Config, x: Split) returns (states: seq<Split>)
    requires OneCovering(c) && TwoDue(c, x, [false, false])
    ensures IsPath(c, states, [Look(0), Look(1), Deliver(1), Deliver(0)]) && states[0] == x && OutOfOrder(states[4].s)
  {
    var y := LookStep(x, 0);
    var z := LookStep(y, 1);
    BothLooked(c, x);
    PathOfTwo(c, x, Look(0), y, Look(1), z);
    NewerInFront(c, z);
    var d := DeliverStep(c, z, 1);
    OlderInFront(c, d);
    PathOfTwo(c, z, Deliver(1), d, Deliver(0), DeliverStep(c, d, 0));
    JoinTwo(c, [x, y, z], [Look(0), Look(1)], z, Deliver(1), d, Deliver(0), DeliverStep(c, d, 0));
    states := [x, y, z] + [d, DeliverStep(c, d, 0)];
    assert [Look(0), Look(1)] + [Deliver(1), Deliver(0)] == [Look(0), Look(1), Deliver(1), Deliver(0)];
  }

  lemma OvertakingPath(c: Config, registered: seq<Split>, received: seq<Split>, delivered: seq<Split>)
    returns (states: seq<Split>)
    requires IsPath(c, registered, OVERTAKING[..3]) && IsPath(c, received, OVERTAKING[3..5])
    requires IsPath(c, delivered, OVERTAKING[5..]) && registered[3] == received[0] && received[2] == delivered[0]
    ensures IsPath(c, states, OVERTAKING) && states == registered + received[1..] + delivered[1..]
  {
    PathsJoin(c, registered, OVERTAKING[..3], received, OVERTAKING[3..5]);
    assert OVERTAKING[..3] + OVERTAKING[3..5] == OVERTAKING[..5];
    PathsJoin(c, registered + received[1..], OVERTAKING[..5], delivered, OVERTAKING[5..]);
    assert OVERTAKING[..5] + OVERTAKING[5..] == OVERTAKING;
    states := registered + received[1..] + delivered[1..];
  }
}
