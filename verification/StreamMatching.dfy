/** Matching the packets of several output streams back to the frame they came from.

    A frame is registered under its graph stamp.  Every output stream reports it with one
    callback; a bitmap tells when all streams of an output group have reported, and the
    frame is then handed to that group's bounded queue.

    Stream caches are shared objects: a frame handed to one group is still filled by the
    callbacks of the other groups.  They are therefore kept in a store and named by their
    position there.  A callback is one atomic step, unless its hand-over has to wait for room
    in a blocking queue; the wait then ends with a later step. */
module StreamMatching {
  import opened Collections

  const MAX_GLOBAL_DEPTH := 900
  const MIN_GLOBAL_DEPTH := 30

  datatype Packet = Packet(stamp: int, payload: int)

  datatype Policy = LoopCover | DropWhenFull | BlockWhenFull

  datatype Cleaning = Cleaning(policy: Policy, depth: nat)

  /** Per output stream its synchronisation bitmap and its group; per group its clean-up
      policy.  A bitmap is the set of its bits. */
  datatype Config = Config(bitmaps: seq<set<nat>>, groups: seq<nat>, cleaning: seq<Cleaning>)

  datatype Stream = Stream(raw: nat, stamp: int, count: nat, bitmap: set<nat>, slots: seq<Option<Packet>>)

  datatype Fate = InFlight | Finished | Evicted | FlowDropped | Cleared

  /** What the queue step did with a frame. */
  datatype Outcome = Published | DroppedFull | DroppedStopped | Waiting

  /** A frame passed to the queue step of a group, with the slots it had then. */
  datatype Handoff = Handoff(id: nat, group: nat, order: nat, slots: seq<Option<Packet>>, outcome: Outcome)

  /** `waiting` names the hand-over that waits for room, by its place in `handed`; it holds the
      output lock.  `fates`, `handed` and `latest` record history; the program state is the
      rest. */
  datatype State = State(
    started: bool,
    streams: seq<Stream>,
    inflight: map<int, nat>,
    queues: seq<seq<nat>>,
    waiting: Option<nat>,
    fates: seq<Fate>,
    handed: seq<Handoff>,
    latest: seq<Option<int>>)

  datatype Action =
    | Start
    | Stop
    | Register(raw: nat, stamp: int)
    | Clear(stamp: int)
    | Callback(packet: Packet, order: nat)
    | Get(group: nat, reuse: bool)

  // ----- configuration

  function Outputs(c: Config): nat { |c.groups| }

  function MaxGroup(groups: seq<nat>): nat
  {
    if groups == [] then 0
    else var m := MaxGroup(groups[..|groups| - 1]); if groups[|groups| - 1] > m then groups[|groups| - 1] else m
  }

  function GroupCount(c: Config): nat { MaxGroup(c.groups) + 1 }

  lemma {:induction false} MaxGroupBounds(groups: seq<nat>, o: nat)
    requires o < |groups|
    ensures groups[o] <= MaxGroup(groups)
  {
    if o < |groups| - 1 { MaxGroupBounds(groups[..|groups| - 1], o); }
  }

  /** Each stream's bitmap is the set of streams of its own group, and queues can hold a frame. */
  ghost predicate WellFormed(c: Config)
  {
    && 0 < Outputs(c) == |c.bitmaps|
    && |c.cleaning| == GroupCount(c)
    && (forall o, p | 0 <= o < Outputs(c) && 0 <= p < Outputs(c) :: p in c.bitmaps[o] <==> c.groups[p] == c.groups[o])
    && (forall o, p | 0 <= o < Outputs(c) && p in c.bitmaps[o] :: p < Outputs(c))
    && (forall g | 0 <= g < |c.cleaning| :: c.cleaning[g].depth >= 1)
  }

  // ----- steps

  function Init(c: Config): State
  {
    State(false, [], map[], seq(GroupCount(c), _ => []), None, [], [], seq(Outputs(c), _ => None))
  }

  lemma {:induction false} HasMinKey(keys: set<int>)
    requires keys != {}
    ensures exists k :: k in keys && forall j :: j in keys ==> k <= j
  {
    var k := Pick(keys);
    var rest := keys - {k};
    assert keys == rest + {k};
    if rest != {} {
      HasMinKey(rest);
      var m :| m in rest && forall j :: j in rest ==> m <= j;
      var least := if m < k then m else k;
      assert least in keys && forall j :: j in keys ==> least <= j;
    }
  }

  ghost function MinKey(keys: set<int>): (k: int)
    requires keys != {}
    ensures k in keys && forall j :: j in keys ==> k <= j
  {
    HasMinKey(keys);
    var k :| k in keys && forall j :: j in keys ==> k <= j;
    k
  }

  /** Forget the frame registered under `stamp`. */
  function Forget(s: State, stamp: int, fate: Fate): State
  {
    if stamp in s.inflight && s.inflight[stamp] < |s.fates|
    then s.(inflight := s.inflight - {stamp}, fates := s.fates[s.inflight[stamp] := fate])
    else s.(inflight := s.inflight - {stamp})
  }

  /** Frames that never get a result: the oldest go once the cache is full. */
  ghost function Evict(s: State): State
    decreases |s.inflight|
  {
    if |s.inflight| < MAX_GLOBAL_DEPTH then s
    else Evict(Forget(s, MinKey(s.inflight.Keys), Evicted))
  }

  /** Frames dropped by flow control: everything older than a frame that got a result. */
  ghost function FlowClean(s: State, stamp: int): State
    decreases |s.inflight|
  {
    if s.inflight.Keys == {} || MinKey(s.inflight.Keys) >= stamp then s
    else FlowClean(Forget(s, MinKey(s.inflight.Keys), FlowDropped), stamp)
  }

  /** The new frame, in flight with empty slots. */
  function Admit(c: Config, s: State, raw: nat, stamp: int): State
  {
    s.(streams := s.streams + [Stream(raw, stamp, 0, {}, seq(Outputs(c), _ => None))],
       fates := s.fates + [InFlight],
       inflight := s.inflight[stamp := |s.streams|])
  }

  ghost function RegisterStep(c: Config, s: State, raw: nat, stamp: int): State
  {
    if !s.started || stamp in s.inflight then s else Evict(Admit(c, s, raw, stamp))
  }

  /** What a queue of this length does with a frame. */
  function QueueOutcome(cleaning: Cleaning, started: bool, length: nat): Outcome
  {
    if !started then DroppedStopped
    else match cleaning.policy
      case LoopCover => Published
      case BlockWhenFull => if length >= cleaning.depth then Waiting else Published
      case DropWhenFull => if length < cleaning.depth then Published else DroppedFull
  }

  /** The queue with a frame in front; one that covers makes room at the back. */
  function Push(cleaning: Cleaning, queue: seq<nat>, id: nat): seq<nat>
  {
    var full := |queue| >= cleaning.depth && |queue| > 0;
    [id] + if cleaning.policy.LoopCover? && full then queue[..|queue| - 1] else queue
  }

  /** The queue step.  A frame that finds a blocking queue full waits. */
  function Hand(c: Config, s: State, id: nat, order: nat): State
    requires id < |s.streams| && order < Outputs(c) && c.groups[order] < |s.queues| && c.groups[order] < |c.cleaning|
  {
    var g := c.groups[order];
    var outcome := QueueOutcome(c.cleaning[g], s.started, |s.queues[g]|);
    s.(handed := s.handed + [Handoff(id, g, order, s.streams[id].slots, outcome)],
       queues := if outcome.Published? then s.queues[g := Push(c.cleaning[g], s.queues[g], id)] else s.queues,
       waiting := if outcome.Waiting? then Some(|s.handed|) else s.waiting)
  }

  function Fill(stream: Stream, order: nat, packet: Packet): Stream
    requires order < |stream.slots|
  {
    stream.(count := stream.count + 1, bitmap := stream.bitmap + {order}, slots := stream.slots[order := Some(packet)])
  }

  /** All bits of the target are set. */
  predicate SyncOrderBitmap(target: set<nat>, current: set<nat>) { target <= current }

  /** Whether a filled frame goes to the queue of the group of `order`. */
  predicate Publishes(c: Config, stream: Stream, order: nat)
    requires order < |c.bitmaps|
  {
    if GroupCount(c) == 1 then stream.count == |stream.slots|
    else SyncOrderBitmap(c.bitmaps[order], stream.bitmap)
  }

  /** Fill the slot, and forget the frame once every stream has reported. */
  function Absorb(c: Config, s: State, packet: Packet, order: nat): State
    requires Fits(c, s) && order < Outputs(c) && packet.stamp in s.inflight
  {
    var id := s.inflight[packet.stamp];
    var stream := Fill(s.streams[id], order, packet);
    var filled := s.(streams := s.streams[id := stream]);
    if stream.count == |stream.slots| then Forget(filled, packet.stamp, Finished) else filled
  }

  /** A packet of a registered frame: absorb it and hand the frame on if its group is complete. */
  function Match(c: Config, s: State, packet: Packet, order: nat): State
    requires Fits(c, s) && order < Outputs(c) && packet.stamp in s.inflight
  {
    var id := s.inflight[packet.stamp];
    var absorbed := Absorb(c, s, packet, order);
    if Publishes(c, absorbed.streams[id], order) then Hand(c, absorbed, id, order) else absorbed
  }

  /** With one group, old frames are dropped once many are in flight. */
  ghost function Cleaned(c: Config, s: State, stamp: int): State
  {
    if GroupCount(c) == 1 && |s.inflight| >= MIN_GLOBAL_DEPTH then FlowClean(s, stamp) else s
  }

  /** A callback whose hand-over waits cleans up only after the wait. */
  ghost function MatchedAndCleaned(c: Config, s: State, packet: Packet, order: nat): State
    requires Fits(c, s) && order < Outputs(c)
  {
    var s1 := if packet.stamp in s.inflight then Match(c, s, packet, order) else s;
    if s1.waiting != s.waiting then s1 else Cleaned(c, s1, packet.stamp)
  }

  ghost function CallbackStep(c: Config, s: State, packet: Packet, order: nat): State
    requires Fits(c, s) && order < Outputs(c)
  {
    MatchedAndCleaned(c, s, packet, order).(latest := s.latest[order := Some(packet.stamp)])
  }

  /** The frame that waits is not queued once the graph is stopped. */
  function Release(s: State): State
    requires s.waiting.Some? && s.waiting.value < |s.handed|
  {
    s.(started := false, waiting := None,
       handed := s.handed[s.waiting.value := s.handed[s.waiting.value].(outcome := DroppedStopped)])
  }

  /** Stopping ends the wait, and the callback that waited then cleans up. */
  ghost function StopStep(c: Config, s: State): State
    requires Fits(c, s)
  {
    if s.waiting.None? then s.(started := false)
    else Cleaned(c, Release(s), s.streams[s.handed[s.waiting.value].id].stamp)
  }

  function GetStep(s: State, group: nat, reuse: bool): State
  {
    if group < |s.queues| && |s.queues[group]| > 0 && !reuse
    then s.(queues := s.queues[group := s.queues[group][1..]])
    else s
  }

  ghost function Next(c: Config, s: State, a: Action): State
    requires Fits(c, s) && (a.Callback? ==> a.order < Outputs(c))
  {
    match a
    case Start => s.(started := true)
    case Stop => StopStep(c, s)
    case Register(raw, stamp) => RegisterStep(c, s, raw, stamp)
    case Clear(stamp) => Forget(s, stamp, Cleared)
    case Callback(packet, order) => CallbackStep(c, s, packet, order)
    case Get(group, reuse) => GetStep(s, group, reuse)
  }

  /** The shapes every step needs. */
  ghost predicate Fits(c: Config, s: State)
  {
    && |c.bitmaps| == Outputs(c) == |s.latest|
    && |c.cleaning| == |s.queues| == GroupCount(c)
    && (forall o | 0 <= o < Outputs(c) :: c.groups[o] < |s.queues|)
    && |s.fates| == |s.streams|
    && (forall id | 0 <= id < |s.streams| :: |s.streams[id].slots| == Outputs(c))
    && (forall k | k in s.inflight :: s.inflight[k] < |s.streams|)
    && (s.waiting.Some? ==> s.waiting.value < |s.handed| && s.handed[s.waiting.value].id < |s.streams|)
  }
}
