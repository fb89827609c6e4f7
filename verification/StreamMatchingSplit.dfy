/** The matcher with its two locks apart: a callback fills its slot under the inference lock and
    hands the frame over later, under the output lock.  Between the two, and around the look at
    the started flag, other callbacks and calls may go on. */
module StreamMatchingSplit {
  import opened Collections
  import opened StreamMatching
  import opened StreamMatchingSafety

  /** `due` are the frames that callbacks are about to hand over, in the order in which they
      completed a group; `ready` says which callbacks have found the graph started. */
  datatype Split = Split(s: State, due: seq<Handoff>, ready: seq<bool>)

  datatype Step =
    | Call(a: Action)
    | Receive(packet: Packet, order: nat)
    | Look(i: nat)
    | Deliver(i: nat)
    | Wake
    | Clean(stamp: int)

  // ----- steps

  function Without<T>(list: seq<T>, i: nat): seq<T>
    requires i < |list|
  {
    list[..i] + list[i + 1..]
  }

  /** What the queue does with a frame under its lock: only a blocking queue looks again at the
      started flag. */
  function LockedOutcome(cleaning: Cleaning, started: bool, length: nat): Outcome
  {
    match cleaning.policy
    case LoopCover => Published
    case DropWhenFull => if length < cleaning.depth then Published else DroppedFull
    case BlockWhenFull => if !started then DroppedStopped else if length >= cleaning.depth then Waiting else Published
  }

  /** The hand-over as it is made: with the slots the frame has by then. */
  function Made(s: State, h: Handoff, outcome: Outcome): Handoff
    requires h.id < |s.streams|
  {
    h.(slots := s.streams[h.id].slots, outcome := outcome)
  }

  /** The part of a callback under the inference lock. */
  function ReceiveStep(c: Config, x: Split, packet: Packet, order: nat): Split
    requires Fits(c, x.s) && order < Outputs(c)
  {
    var latest := x.s.latest[order := Some(packet.stamp)];
    if packet.stamp !in x.s.inflight then x.(s := x.s.(latest := latest))
    else
      var id := x.s.inflight[packet.stamp];
      var s' := Absorb(c, x.s, packet, order).(latest := latest);
      if Publishes(c, s'.streams[id], order)
      then Split(s', x.due + [Handoff(id, c.groups[order], order, s'.streams[id].slots, Waiting)], x.ready + [false])
      else x.(s := s')
  }

  /** The look at the started flag before the output lock is taken. */
  function LookStep(x: Split, i: nat): Split
    requires i < |x.due| == |x.ready| && x.due[i].id < |x.s.streams|
  {
    if x.s.started then x.(ready := x.ready[i := true])
    else
      var s' := x.s.(handed := x.s.handed + [Made(x.s, x.due[i], DroppedStopped)]);
      Split(s', Without(x.due, i), Without(x.ready, i))
  }

  /** The part under the output lock. */
  function DeliverStep(c: Config, x: Split, i: nat): Split
    requires i < |x.due| == |x.ready| && x.due[i].id < |x.s.streams|
    requires x.due[i].group < |x.s.queues| && x.due[i].group < |c.cleaning|
  {
    var (s, g) := (x.s, x.due[i].group);
    var h := Made(s, x.due[i], LockedOutcome(c.cleaning[g], s.started, |s.queues[g]|));
    var s' := s.(handed := s.handed + [h],
                 queues := if h.outcome.Published? then s.queues[g := Push(c.cleaning[g], s.queues[g], h.id)]
                           else s.queues,
                 waiting := if h.outcome.Waiting? then Some(|s.handed|) else s.waiting);
    Split(s', Without(x.due, i), Without(x.ready, i))
  }

  /** The callback that waits finds the graph stopped. */
  function WakeStep(s: State): State
    requires s.waiting.Some? && s.waiting.value < |s.handed|
  {
    s.(waiting := None, handed := s.handed[s.waiting.value := s.handed[s.waiting.value].(outcome := DroppedStopped)])
  }

  ghost predicate Allowed(c: Config, x: Split, step: Step)
  {
    && Fits(c, x.s) && |x.ready| == |x.due| && (forall i | 0 <= i < |x.due| :: DueOk(c, x.s, x.due[i]))
    && match step
       case Call(a) =>
         !a.Callback? && (a.Get? && x.s.waiting.Some? ==> a.group >= |x.s.queues| || x.s.queues[a.group] == [])
       case Receive(packet, order) => OncePerStream(c, x.s, Callback(packet, order))
       case Look(i) => i < |x.due| && !x.ready[i]
       case Deliver(i) => i < |x.due| && x.ready[i] && x.s.waiting.None?
       case Wake => x.s.waiting.Some? && !x.s.started
       case Clean(_) => true
  }

  ghost predicate DueOk(c: Config, s: State, h: Handoff)
  {
    h.id < |s.streams| && h.group < |s.queues| && h.group < |c.cleaning|
  }

  ghost function After(c: Config, x: Split, step: Step): Split
    requires Allowed(c, x, step)
  {
    match step
    case Call(a) => if a.Stop? then x.(s := x.s.(started := false)) else x.(s := Next(c, x.s, a))
    case Receive(packet, order) => ReceiveStep(c, x, packet, order)
    case Look(i) => LookStep(x, i)
    case Deliver(i) => DeliverStep(c, x, i)
    case Wake => x.(s := WakeStep(x.s))
    case Clean(stamp) => x.(s := Cleaned(c, x.s, stamp))
  }

  // ----- the invariant

  /** Hand-overs made and due together are what atomic callbacks would have handed over. */
  ghost predicate SplitInv(c: Config, x: Split)
  {
    && Base(c, x.s) && |x.s.inflight| < MAX_GLOBAL_DEPTH && |x.ready| == |x.due|
    && HandedOnce(c, x.s.streams, x.s.handed + x.due)
    && Queued(c, x.s.queues, x.s.handed)
    && WaitHeld(c, x.s)
  }

  ghost predicate WaitHeld(c: Config, s: State)
  {
    && (forall k | 0 <= k < |s.handed| :: s.handed[k].outcome.Waiting? <==> s.waiting == Some(k))
    && (s.waiting.Some? ==> s.waiting.value < |s.handed| && WaitsForRoom(c, s.queues, s.handed[s.waiting.value].group))
  }

  lemma IdleInv(c: Config)
    requires WellFormed(c)
    ensures SplitInv(c, Split(Init(c), [], []))
  {
    InitInv(c);
  }

  // ----- frames forgotten

  lemma ForgetBase(c: Config, s: State, stamp: int, fate: Fate)
    requires Base(c, s) && !fate.InFlight? && !fate.Finished?
    ensures Base(c, Forget(s, stamp, fate)) && |Forget(s, stamp, fate).inflight| <= |s.inflight|
  {
    ForgetTracked(s, stamp, fate);
    ForgetSlotted(c, s, stamp, fate);
    ForgetShrinks(s, stamp, fate);
  }

  lemma {:induction false} EvictBase(c: Config, s: State)
    requires Base(c, s)
    ensures Base(c, Evict(s)) && |Evict(s).inflight| < MAX_GLOBAL_DEPTH
    decreases |s.inflight|
  {
    if |s.inflight| >= MAX_GLOBAL_DEPTH {
      var oldest := MinKey(s.inflight.Keys);
      ForgetBase(c, s, oldest, Evicted);
      EvictBase(c, Forget(s, oldest, Evicted));
    }
  }

  lemma {:induction false} FlowCleanBase(c: Config, s: State, stamp: int)
    requires Base(c, s)
    ensures Base(c, FlowClean(s, stamp)) && |FlowClean(s, stamp).inflight| <= |s.inflight|
    decreases |s.inflight|
  {
    if s.inflight.Keys != {} && MinKey(s.inflight.Keys) < stamp {
      var oldest := MinKey(s.inflight.Keys);
      ForgetBase(c, s, oldest, FlowDropped);
      FlowCleanBase(c, Forget(s, oldest, FlowDropped), stamp);
    }
  }

  /** The table of frames in flight has no part in the rest of the invariant. */
  lemma TableInv(c: Config, x: Split, t: State)
    requires SplitInv(c, x) && Base(c, t) && |t.inflight| < MAX_GLOBAL_DEPTH && SameButTable(x.s, t)
    ensures SplitInv(c, x.(s := t))
  {
  }

  lemma AdmitBase(c: Config, s: State, raw: nat, stamp: int)
    requires Base(c, s) && stamp !in s.inflight
    ensures Base(c, Admit(c, s, raw, stamp))
  {
    AdmitTracked(c, s, raw, stamp);
  }

  lemma AdmitInv(c: Config, x: Split, raw: nat, stamp: int)
    requires SplitInv(c, x) && stamp !in x.s.inflight
    ensures var t := Admit(c, x.s, raw, stamp);
            Base(c, t) && HandedOnce(c, t.streams, t.handed + x.due) && Queued(c, t.queues, t.handed) && WaitHeld(c, t)
  {
    AdmitBase(c, x.s, raw, stamp);
    AddedHandedOnce(c, x.s.streams, Stream(raw, stamp, 0, {}, seq(Outputs(c), _ => None)), x.s.handed + x.due);
  }

  lemma RegisterInv(c: Config, x: Split, raw: nat, stamp: int)
    requires SplitInv(c, x)
    ensures SplitInv(c, x.(s := RegisterStep(c, x.s, raw, stamp)))
  {
    if x.s.started && stamp !in x.s.inflight {
      var admitted := Admit(c, x.s, raw, stamp);
      AdmitInv(c, x, raw, stamp);
      EvictBase(c, admitted);
      EvictFrame(admitted);
    }
  }

  lemma CallInv(c: Config, x: Split, a: Action)
    requires SplitInv(c, x) && Allowed(c, x, Call(a))
    ensures SplitInv(c, After(c, x, Call(a)))
  {
    match a
    case Register(raw, stamp) => RegisterInv(c, x, raw, stamp);
    case Clear(stamp) =>
      ForgetBase(c, x.s, stamp, Cleared);
      TableInv(c, x, Forget(x.s, stamp, Cleared));
    case Get(group, reuse) => GetQueued(c, x.s, group, reuse);
    case Start =>
    case Stop =>
  }

  lemma GetQueued(c: Config, s: State, group: nat, reuse: bool)
    requires Queued(c, s.queues, s.handed)
    ensures Queued(c, GetStep(s, group, reuse).queues, s.handed)
  {
    var s' := GetStep(s, group, reuse);
    forall g | 0 <= g < |s'.queues|
      ensures QueueOk(s'.queues[g], c.cleaning[g].depth, s.handed, g)
    {
      assert QueueOk(s.queues[g], c.cleaning[g].depth, s.handed, g);
    }
  }

  // ----- callbacks

  lemma ReceiveAdds(c: Config, x: Split, packet: Packet, order: nat, id: nat)
    requires Fits(c, x.s) && order < Outputs(c) && packet.stamp in x.s.inflight && id == x.s.inflight[packet.stamp]
    ensures var (x', stream) := (ReceiveStep(c, x, packet, order), Fill(x.s.streams[id], order, packet));
            && x'.s.streams == x.s.streams[id := stream] && x'.s.handed == x.s.handed && x'.s.queues == x.s.queues
            && x'.s.waiting == x.s.waiting && |x'.s.inflight| <= |x.s.inflight|
            && (|x.ready| == |x.due| ==> |x'.ready| == |x'.due|)
            && x'.s.handed + x'.due ==
                 if Publishes(c, stream, order)
                 then x.s.handed + x.due + [Handoff(id, c.groups[order], order, stream.slots, Waiting)]
                 else x.s.handed + x.due
  {
    AbsorbEffect(c, x.s, packet, order);
  }

  lemma ReceiveBase(c: Config, x: Split, packet: Packet, order: nat)
    requires Base(c, x.s) && OncePerStream(c, x.s, Callback(packet, order))
    ensures Base(c, ReceiveStep(c, x, packet, order).s)
  {
    if packet.stamp in x.s.inflight { AbsorbBase(c, x.s, packet, order); }
  }

  /** Filling a slot makes exactly the frames due that an atomic callback hands over. */
  lemma ReceiveInv(c: Config, x: Split, packet: Packet, order: nat)
    requires SplitInv(c, x) && Allowed(c, x, Receive(packet, order))
    ensures SplitInv(c, ReceiveStep(c, x, packet, order))
  {
    ReceiveBase(c, x, packet, order);
    if packet.stamp in x.s.inflight {
      var id := x.s.inflight[packet.stamp];
      ReceiveHanded(c, x.s.streams, x.s.fates, x.s.handed + x.due, id, order, packet);
      ReceiveAdds(c, x, packet, order, id);
    }
  }

  lemma ReceiveHanded(c: Config, streams: seq<Stream>, fates: seq<Fate>, handed: seq<Handoff>, id: nat, order: nat,
                      packet: Packet)
    requires WellFormed(c) && Slotted(c, streams, fates) && HandedOnce(c, streams, handed)
    requires id < |streams| && order < Outputs(c) && |streams[id].slots| == Outputs(c) && streams[id].slots[order].None?
    ensures var stream := Fill(streams[id], order, packet);
            HandedOnce(c, streams[id := stream],
                       if Publishes(c, stream, order)
                       then handed + [Handoff(id, c.groups[order], order, stream.slots, Waiting)] else handed)
  {
    FillOk(c, streams[id], order, packet);
    PublishesIffFilled(c, Fill(streams[id], order, packet), order);
    FilledHandedOnce(c, streams, handed, id, order, packet, Waiting);
  }

  // ----- hand-overs

  /** Where entry k of handed + [h] + Without(due, i) comes from in handed + due. */
  function Source(n: nat, i: nat, k: nat): nat
  {
    if k < n then k else if k == n then n + i else if k - n <= i then k - 1 else k
  }

  lemma SourceOf(handed: seq<Handoff>, due: seq<Handoff>, i: nat, h: Handoff, k: nat)
    requires i < |due| && k < |handed| + |due|
    ensures var (all, after) := (handed + due, handed + [h] + Without(due, i));
            && |after| == |all| && Source(|handed|, i, k) < |all|
            && (if k == |handed| then after[k] == h && all[Source(|handed|, i, k)] == due[i]
                else after[k] == all[Source(|handed|, i, k)])
  {
  }

  /** Making a hand-over that was due keeps exactly-once. */
  lemma MakeHandedOnce(c: Config, streams: seq<Stream>, handed: seq<Handoff>, due: seq<Handoff>, i: nat, h: Handoff)
    requires HandedOnce(c, streams, handed + due) && i < |due|
    requires due[i].id < |streams| && h == due[i].(slots := streams[due[i].id].slots, outcome := h.outcome)
    ensures HandedOnce(c, streams, handed + [h] + Without(due, i))
    ensures !WasHanded(handed, h.id, h.group)
  {
    var (all, after) := (handed + due, handed + [h] + Without(due, i));
    forall k | 0 <= k < |after|
      ensures HandoffOk(c, streams, after[k])
    {
      SourceOf(handed, due, i, h, k);
      assert HandoffOk(c, streams, all[Source(|handed|, i, k)]);
    }
    forall j, k | 0 <= j < k < |after|
      ensures after[j].id != after[k].id || after[j].group != after[k].group
    {
      SourceOf(handed, due, i, h, j);
      SourceOf(handed, due, i, h, k);
      assert Source(|handed|, i, j) != Source(|handed|, i, k);
    }
    forall id, g
      ensures WasHanded(after, id, g) <==> WasHanded(all, id, g)
    {
      MadeWasHanded(handed, due, i, h, id, g);
    }
    forall k | 0 <= k < |handed|
      ensures handed[k].id != h.id || handed[k].group != h.group
    {
      assert all[k] == handed[k] && all[|handed| + i] == due[i];
    }
  }

  lemma MadeWasHanded(handed: seq<Handoff>, due: seq<Handoff>, i: nat, h: Handoff, id: nat, g: nat)
    requires i < |due| && h.id == due[i].id && h.group == due[i].group
    ensures WasHanded(handed + [h] + Without(due, i), id, g) <==> WasHanded(handed + due, id, g)
  {
    var (all, after) := (handed + due, handed + [h] + Without(due, i));
    if WasHanded(after, id, g) {
      var k :| 0 <= k < |after| && after[k].id == id && after[k].group == g;
      SourceOf(handed, due, i, h, k);
      assert all[Source(|handed|, i, k)].id == id;
    }
    if WasHanded(all, id, g) {
      var k :| 0 <= k < |all| && all[k].id == id && all[k].group == g;
      var n := |handed|;
      var j := if k < n then k else if k == n + i then n else if k < n + i then k + 1 else k;
      assert after[j].id == id && after[j].group == g;
    }
  }

  lemma LookInv(c: Config, x: Split, i: nat)
    requires SplitInv(c, x) && Allowed(c, x, Look(i))
    ensures SplitInv(c, LookStep(x, i))
  {
    if !x.s.started {
      var h := Made(x.s, x.due[i], DroppedStopped);
      MakeHandedOnce(c, x.s.streams, x.s.handed, x.due, i, h);
      MadeQueued(c, x.s.queues, x.s.handed, h);
    }
  }

  /** A queue that takes a frame for the first time, and has room if it does. */
  lemma MadeQueued(c: Config, queues: seq<seq<nat>>, handed: seq<Handoff>, h: Handoff)
    requires WellFormed(c) && Queued(c, queues, handed) && h.group < |queues| && !WasHanded(handed, h.id, h.group)
    requires h.outcome.Published? ==> HasRoom(c.cleaning[h.group], |queues[h.group]|)
    ensures Queued(c, if h.outcome.Published? then queues[h.group := Push(c.cleaning[h.group], queues[h.group], h.id)]
                      else queues, handed + [h])
  {
    forall g | 0 <= g < |queues|
      ensures QueueOk(if h.outcome.Published? && g == h.group then Push(c.cleaning[g], queues[g], h.id) else queues[g],
                      c.cleaning[g].depth, handed + [h], g)
    {
      MadeQueue(c.cleaning[g], queues[g], handed, h, g);
    }
  }

  lemma MadeQueue(cleaning: Cleaning, queue: seq<nat>, handed: seq<Handoff>, h: Handoff, g: nat)
    requires cleaning.depth >= 1 && QueueOk(queue, cleaning.depth, handed, g) && !WasHanded(handed, h.id, h.group)
    requires h.outcome.Published? && g == h.group ==> HasRoom(cleaning, |queue|)
    ensures QueueOk(if h.outcome.Published? && g == h.group then Push(cleaning, queue, h.id) else queue, cleaning.depth,
                    handed + [h], g)
  {
    var more := handed + [h];
    assert more[|handed|] == h;
    forall i | 0 <= i < |queue|
      ensures WasPublished(more, queue[i], g) && (g == h.group ==> queue[i] != h.id)
    {
      WasPublishedGrows(handed, more, queue[i], g);
      PublishedWasHanded(handed, queue[i], g);
    }
  }

  lemma MadeWaitHeld(c: Config, s: State, t: State, h: Handoff)
    requires WaitHeld(c, s) && s.waiting.None? && t.handed == s.handed + [h]
    requires t.waiting == if h.outcome.Waiting? then Some(|s.handed|) else None
    requires h.outcome.Waiting? ==> WaitsForRoom(c, t.queues, h.group)
    ensures WaitHeld(c, t)
  {
    forall k | 0 <= k < |t.handed|
      ensures t.handed[k].outcome.Waiting? <==> t.waiting == Some(k)
    {
      if k < |s.handed| { assert t.handed[k] == s.handed[k]; }
    }
  }

  /** What a hand-over changes. */
  lemma DeliverEffect(c: Config, x: Split, i: nat)
    requires Allowed(c, x, Deliver(i))
    ensures var (s, g, t) := (x.s, x.due[i].group, DeliverStep(c, x, i).s);
            var h := Made(s, x.due[i], LockedOutcome(c.cleaning[g], s.started, |s.queues[g]|));
            && t.handed == s.handed + [h] && t.streams == s.streams && t.fates == s.fates && t.inflight == s.inflight
            && t.latest == s.latest
            && t.queues == (if h.outcome.Published? then s.queues[g := Push(c.cleaning[g], s.queues[g], h.id)]
                            else s.queues)
            && t.waiting == (if h.outcome.Waiting? then Some(|s.handed|) else None)
            && (h.outcome.Published? ==> HasRoom(c.cleaning[g], |s.queues[g]|))
            && (h.outcome.Waiting? ==> WaitsForRoom(c, t.queues, g))
  {
  }

  lemma DeliverBase(c: Config, s: State, t: State)
    requires Base(c, s) && t.streams == s.streams && t.fates == s.fates && t.inflight == s.inflight
    requires t.latest == s.latest && |t.queues| == |s.queues|
    requires t.waiting.Some? ==> t.waiting.value < |t.handed| && t.handed[t.waiting.value].id < |s.streams|
    ensures Base(c, t)
  {
  }

  lemma DeliverInv(c: Config, x: Split, i: nat)
    requires SplitInv(c, x) && Allowed(c, x, Deliver(i))
    ensures SplitInv(c, DeliverStep(c, x, i))
  {
    var (s, g, t) := (x.s, x.due[i].group, DeliverStep(c, x, i).s);
    var h := Made(s, x.due[i], LockedOutcome(c.cleaning[g], s.started, |s.queues[g]|));
    DeliverEffect(c, x, i);
    DeliverBase(c, s, t);
    MakeHandedOnce(c, s.streams, s.handed, x.due, i, h);
    MadeQueued(c, s.queues, s.handed, h);
    MadeWaitHeld(c, s, t, h);
  }

  lemma WakeBase(c: Config, s: State)
    requires Base(c, s) && WaitHeld(c, s) && s.waiting.Some?
    ensures Base(c, WakeStep(s)) && WaitHeld(c, WakeStep(s))
  {
  }

  lemma UpdateInFront(handed: seq<Handoff>, due: seq<Handoff>, k: nat, h: Handoff)
    requires k < |handed|
    ensures (handed + due)[k := h] == handed[k := h] + due
  {
  }

  lemma WakeInv(c: Config, x: Split)
    requires SplitInv(c, x) && Allowed(c, x, Wake)
    ensures SplitInv(c, x.(s := WakeStep(x.s)))
  {
    var k := x.s.waiting.value;
    WakeBase(c, x.s);
    SettledHanded(c, x.s.streams, x.s.handed + x.due, k, DroppedStopped);
    UpdateInFront(x.s.handed, x.due, k, x.s.handed[k].(outcome := DroppedStopped));
    SettledQueued(c, x.s.queues, x.s.handed, k, DroppedStopped);
  }

  lemma CleanInv(c: Config, x: Split, stamp: int)
    requires SplitInv(c, x)
    ensures SplitInv(c, x.(s := Cleaned(c, x.s, stamp)))
  {
    FlowCleanBase(c, x.s, stamp);
    CleanedFrame(c, x.s, stamp);
    TableInv(c, x, Cleaned(c, x.s, stamp));
  }

  /** Every step keeps the invariant, in whatever order the callbacks take their locks. */
  lemma AfterInv(c: Config, x: Split, step: Step)
    requires SplitInv(c, x) && Allowed(c, x, step)
    ensures SplitInv(c, After(c, x, step))
  {
    match step
    case Call(a) => CallInv(c, x, a);
    case Receive(packet, order) => ReceiveInv(c, x, packet, order);
    case Look(i) => LookInv(c, x, i);
    case Deliver(i) => DeliverInv(c, x, i);
    case Wake => WakeInv(c, x);
    case Clean(stamp) => CleanInv(c, x, stamp);
  }

  // ----- runs

  ghost predicate Follows(c: Config, x: Split, step: Step, y: Split) { Allowed(c, x, step) && y == After(c, x, step) }

  ghost predicate StepAt(c: Config, states: seq<Split>, steps: seq<Step>, k: nat)
    requires |states| == |steps| + 1 && k < |steps|
  {
    Follows(c, states[k], steps[k], states[k + 1])
  }

  ghost predicate IsPath(c: Config, states: seq<Split>, steps: seq<Step>)
  {
    |states| == |steps| + 1 && forall k: nat | k < |steps| :: StepAt(c, states, steps, k)
  }

  ghost predicate IsInterleaving(c: Config, states: seq<Split>, steps: seq<Step>)
  {
    IsPath(c, states, steps) && states[0] == Split(Init(c), [], [])
  }

  lemma FollowsInv(c: Config, x: Split, step: Step, y: Split)
    requires SplitInv(c, x) && Follows(c, x, step, y)
    ensures SplitInv(c, y)
  {
    AfterInv(c, x, step);
  }

  /** What a state has and every step keeps holds from there on. */
  lemma {:induction false} KeptAlong(states: seq<Split>, holds: Split -> bool, k: nat)
    requires k < |states| && holds(states[0])
    requires forall j | 0 < j < |states| && holds(states[j - 1]) :: holds(states[j])
    ensures holds(states[k])
  {
    if k > 0 { KeptAlong(states, holds, k - 1); }
  }

  lemma InterleavingInv(c: Config, states: seq<Split>, steps: seq<Step>, k: nat)
    requires WellFormed(c) && IsInterleaving(c, states, steps) && k <= |steps|
    ensures SplitInv(c, states[k])
  {
    IdleInv(c);
    forall j | 0 < j < |states| && SplitInv(c, states[j - 1])
      ensures SplitInv(c, states[j])
    {
      assert StepAt(c, states, steps, j - 1);
      FollowsInv(c, states[j - 1], steps[j - 1], states[j]);
    }
    KeptAlong(states, x => SplitInv(c, x), k);
  }

  /** In every interleaving of the two locks: a frame whose group is full has been handed to the
      group once or is due once, no other frame is, and what is handed over are the packets that
      the frame holds from then on; queues hold distinct frames, at most their depth. */
  lemma ExactlyOnceInterleaved(c: Config, states: seq<Split>, steps: seq<Step>, id: nat, o: nat)
    requires WellFormed(c) && IsInterleaving(c, states, steps) && o < Outputs(c)
    requires id < |states[|steps|].s.streams|
    ensures var t := states[|steps|];
            && (GroupFilled(c, t.s.streams[id], c.groups[o]) <==> WasHanded(t.s.handed + t.due, id, c.groups[o]))
            && NoneTwice(t.s.handed + t.due)
            && (forall k | 0 <= k < |t.s.handed| :: HandoffOk(c, t.s.streams, t.s.handed[k]))
            && |t.s.inflight| < MAX_GLOBAL_DEPTH && c.groups[o] < |t.s.queues| && c.groups[o] < |c.cleaning|
            && QueueOk(t.s.queues[c.groups[o]], c.cleaning[c.groups[o]].depth, t.s.handed, c.groups[o])
  {
    var t := states[|steps|];
    InterleavingInv(c, states, steps, |steps|);
    forall k | 0 <= k < |t.s.handed|
      ensures HandoffOk(c, t.s.streams, t.s.handed[k])
    {
      assert HandoffOk(c, t.s.streams, (t.s.handed + t.due)[k]);
    }
  }

  // ----- atomic callbacks are a special case

  ghost predicate Reaches(c: Config, x: Split, y: Split)
  {
    exists states, steps :: IsPath(c, states, steps) && states[0] == x && states[|steps|] == y
  }

  lemma ReachesSelf(c: Config, x: Split)
    ensures Reaches(c, x, x)
  {
    assert IsPath(c, [x], []) && [x][0] == x;
  }

  lemma ReachesNext(c: Config, x: Split, y: Split, step: Step, z: Split)
    requires Reaches(c, x, y) && Follows(c, y, step, z)
    ensures Reaches(c, x, z)
  {
    var states, steps :| IsPath(c, states, steps) && states[0] == x && states[|steps|] == y;
    PathGrows(c, states, steps, step, z);
    assert (states + [z])[|steps + [step]|] == z;
  }

  lemma PathGrows(c: Config, states: seq<Split>, steps: seq<Step>, step: Step, z: Split)
    requires IsPath(c, states, steps) && Follows(c, states[|steps|], step, z)
    ensures IsPath(c, states + [z], steps + [step])
  {
    forall k: nat | k < |steps| + 1
      ensures StepAt(c, states + [z], steps + [step], k)
    {
      if k < |steps| { assert StepAt(c, states, steps, k); }
    }
  }

  /** A state between calls. */
  function Idle(s: State): Split { Split(s, [], []) }

  lemma {:induction false} FlowCleanLatest(s: State, stamp: int, latest: seq<Option<int>>)
    ensures FlowClean(s.(latest := latest), stamp) == FlowClean(s, stamp).(latest := latest)
    decreases |s.inflight|
  {
    if s.inflight.Keys != {} && MinKey(s.inflight.Keys) < stamp {
      var oldest := MinKey(s.inflight.Keys);
      assert Forget(s.(latest := latest), oldest, FlowDropped) == Forget(s, oldest, FlowDropped).(latest := latest);
      FlowCleanLatest(Forget(s, oldest, FlowDropped), stamp, latest);
    }
  }

  /** The state after the callback's part under the output lock. */
  ghost function Matched(c: Config, s: State, packet: Packet, order: nat): State
    requires Fits(c, s) && order < Outputs(c)
  {
    var s1 := if packet.stamp in s.inflight then Match(c, s, packet, order) else s;
    s1.(latest := s.latest[order := Some(packet.stamp)])
  }

  /** One callback has made a frame due, and nothing else is. */
  ghost predicate OneDue(c: Config, x: Split)
  {
    Fits(c, x.s) && |x.due| == |x.ready| == 1 && !x.ready[0] && DueOk(c, x.s, x.due[0])
  }

  lemma LookFollows(c: Config, x: Split)
    requires OneDue(c, x)
    ensures Follows(c, x, Look(0), LookStep(x, 0))
    ensures x.s.started ==> LookStep(x, 0) == x.(ready := [true])
  {
  }

  lemma DeliverFollows(c: Config, x: Split)
    requires OneDue(c, x) && x.s.waiting.None?
    ensures Follows(c, x.(ready := [true]), Deliver(0), DeliverStep(c, x.(ready := [true]), 0))
  {
  }

  lemma StoppedMatches(c: Config, s: State, packet: Packet, order: nat)
    requires Fits(c, s) && order < Outputs(c) && packet.stamp in s.inflight && !s.started
    requires Publishes(c, Fill(s.streams[s.inflight[packet.stamp]], order, packet), order)
    requires OneDue(c, ReceiveStep(c, Idle(s), packet, order))
    ensures LookStep(ReceiveStep(c, Idle(s), packet, order), 0) == Idle(Matched(c, s, packet, order))
  {
    AbsorbEffect(c, s, packet, order);
  }

  lemma StartedMatches(c: Config, s: State, packet: Packet, order: nat)
    requires Fits(c, s) && order < Outputs(c) && packet.stamp in s.inflight && s.started && s.waiting.None?
    requires Publishes(c, Fill(s.streams[s.inflight[packet.stamp]], order, packet), order)
    requires OneDue(c, ReceiveStep(c, Idle(s), packet, order))
    ensures var x := ReceiveStep(c, Idle(s), packet, order);
            && x.s.started && x.s.waiting.None?
            && DeliverStep(c, x.(ready := [true]), 0) == Idle(Matched(c, s, packet, order))
  {
    AbsorbEffect(c, s, packet, order);
  }

  lemma ReceiveOneDue(c: Config, s: State, packet: Packet, order: nat)
    requires Fits(c, s) && order < Outputs(c) && packet.stamp in s.inflight
    requires Publishes(c, Fill(s.streams[s.inflight[packet.stamp]], order, packet), order)
    requires Fits(c, ReceiveStep(c, Idle(s), packet, order).s)
    ensures OneDue(c, ReceiveStep(c, Idle(s), packet, order))
  {
    AbsorbEffect(c, s, packet, order);
  }

  lemma MatchedReached(c: Config, s: State, packet: Packet, order: nat)
    requires Base(c, s) && Enabled(c, s, Callback(packet, order))
    ensures Reaches(c, Idle(s), Idle(Matched(c, s, packet, order)))
  {
    var x := ReceiveStep(c, Idle(s), packet, order);
    ReachesSelf(c, Idle(s));
    ReceiveBase(c, Idle(s), packet, order);
    ReachesNext(c, Idle(s), Idle(s), Receive(packet, order), x);
    if packet.stamp in s.inflight && Publishes(c, Fill(s.streams[s.inflight[packet.stamp]], order, packet), order) {
      ReceiveOneDue(c, s, packet, order);
      LookFollows(c, x);
      if s.started {
        StartedMatches(c, s, packet, order);
        DeliverFollows(c, x);
        ReachesNext(c, Idle(s), x, Look(0), x.(ready := [true]));
        ReachesNext(c, Idle(s), x.(ready := [true]), Deliver(0), Idle(Matched(c, s, packet, order)));
      } else {
        StoppedMatches(c, s, packet, order);
        ReachesNext(c, Idle(s), x, Look(0), Idle(Matched(c, s, packet, order)));
      }
    }
  }

  lemma CallbackReached(c: Config, s: State, packet: Packet, order: nat)
    requires Inv(c, s) && Enabled(c, s, Callback(packet, order))
    ensures Reaches(c, Idle(s), Idle(CallbackStep(c, s, packet, order)))
  {
    var s1 := if packet.stamp in s.inflight then Match(c, s, packet, order) else s;
    var latest := s.latest[order := Some(packet.stamp)];
    MatchedReached(c, s, packet, order);
    if s1.waiting == s.waiting {
      if packet.stamp in s.inflight { MatchCore(c, s, packet, order); }
      FlowCleanLatest(s1, packet.stamp, latest);
      CleanReached(c, Idle(s), s1.(latest := latest), packet.stamp);
    }
  }

  lemma CleanReached(c: Config, x: Split, s: State, stamp: int)
    requires Reaches(c, x, Idle(s)) && Fits(c, s)
    ensures Reaches(c, x, Idle(Cleaned(c, s, stamp)))
  {
    ReachesNext(c, x, Idle(s), Clean(stamp), Idle(Cleaned(c, s, stamp)));
  }

  lemma StopReached(c: Config, s: State)
    requires Fits(c, s)
    ensures Reaches(c, Idle(s), Idle(StopStep(c, s)))
  {
    var stopped := s.(started := false);
    ReachesSelf(c, Idle(s));
    ReachesNext(c, Idle(s), Idle(s), Call(Stop), Idle(stopped));
    if s.waiting.Some? {
      ReachesNext(c, Idle(s), Idle(stopped), Wake, Idle(Release(s)));
      CleanReached(c, Idle(s), Release(s), s.streams[s.handed[s.waiting.value].id].stamp);
    }
  }

  lemma ActionReached(c: Config, s: State, a: Action)
    requires Inv(c, s) && Enabled(c, s, a)
    ensures Reaches(c, Idle(s), Idle(Next(c, s, a)))
  {
    if a.Callback? {
      CallbackReached(c, s, a.packet, a.order);
    } else if a.Stop? {
      StopReached(c, s);
    } else {
      ReachesSelf(c, Idle(s));
      ReachesNext(c, Idle(s), Idle(s), Call(a), Idle(Next(c, s, a)));
    }
  }

  lemma PathsJoin(c: Config, states: seq<Split>, steps: seq<Step>, more: seq<Split>, moreSteps: seq<Step>)
    requires IsPath(c, states, steps) && IsPath(c, more, moreSteps) && more[0] == states[|steps|]
    ensures IsPath(c, states + more[1..], steps + moreSteps)
  {
    forall k: nat | k < |steps| + |moreSteps|
      ensures StepAt(c, states + more[1..], steps + moreSteps, k)
    {
      if k < |steps| { assert StepAt(c, states, steps, k); } else { assert StepAt(c, more, moreSteps, k - |steps|); }
    }
  }

  lemma ReachesTrans(c: Config, x: Split, y: Split, z: Split)
    requires Reaches(c, x, y) && Reaches(c, y, z)
    ensures Reaches(c, x, z)
  {
    var states, steps :| IsPath(c, states, steps) && states[0] == x && states[|steps|] == y;
    var more, moreSteps :| IsPath(c, more, moreSteps) && more[0] == y && more[|moreSteps|] == z;
    PathsJoin(c, states, steps, more, moreSteps);
    assert (states + more[1..])[|steps + moreSteps|] == z;
  }

  /** Every run of atomic callbacks is an interleaving, in which each callback goes on alone. */
  lemma {:induction false} AtomicRunReached(c: Config, s: State, actions: seq<Action>, t: State)
    requires Inv(c, s) && IsRun(c, s, actions, t)
    ensures Reaches(c, Idle(s), Idle(t))
    decreases |actions|
  {
    if actions == [] {
      ReachesSelf(c, Idle(s));
    } else {
      var next := Next(c, s, actions[0]);
      ActionReached(c, s, actions[0]);
      NextInv(c, s, actions[0]);
      AtomicRunReached(c, next, actions[1..], t);
      ReachesTrans(c, Idle(s), Idle(next), Idle(t));
    }
  }
}
