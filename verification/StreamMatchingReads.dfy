/** What reads give: the frames of a queue, newest first, and each removed one only once. */
module StreamMatchingReads {
  import opened Collections
  import opened StreamMatching
  import opened StreamMatchingSafety

  /** The frames that the queue of a group took, in order. */
  ghost function Published(handed: seq<Handoff>, g: nat): seq<nat>
  {
    if handed == [] then []
    else
      var (rest, last) := (handed[..|handed| - 1], handed[|handed| - 1]);
      Published(rest, g) + if last.group == g && last.outcome.Published? then [last.id] else []
  }

  lemma PublishedGrows(handed: seq<Handoff>, h: Handoff, g: nat)
    ensures Published(handed + [h], g)
         == Published(handed, g) + if h.group == g && h.outcome.Published? then [h.id] else []
  {
    assert (handed + [h])[..|handed|] == handed;
  }

  lemma {:induction false} PublishedWere(handed: seq<Handoff>, g: nat, id: nat)
    requires id in Published(handed, g)
    ensures WasHanded(handed, id, g)
    decreases |handed|
  {
    var (rest, last) := (handed[..|handed| - 1], handed[|handed| - 1]);
    if last.group == g && last.id == id {
      assert handed[|handed| - 1].id == id;
    } else {
      PublishedWere(rest, g, id);
      WasHandedGrows(rest, handed, id, g);
    }
  }

  /** An outcome that turns from waiting to dropped publishes nothing. */
  lemma {:induction false} SettledPublished(handed: seq<Handoff>, k: nat, g: nat)
    requires k < |handed| && handed[k].outcome.Waiting?
    ensures Published(handed[k := handed[k].(outcome := DroppedStopped)], g) == Published(handed, g)
    decreases |handed|
  {
    var n := |handed| - 1;
    var settled := handed[k := handed[k].(outcome := DroppedStopped)];
    if k == n {
      assert settled[..n] == handed[..n];
    } else {
      SettledPublished(handed[..n], k, g);
      assert settled[..n] == handed[..n][k := handed[k].(outcome := DroppedStopped)];
    }
  }

  /** The frame that a removing read of the group gives in this step, if it is one. */
  function GivenBy(s: State, a: Action, g: nat): seq<nat>
  {
    if a.Get? && a.group == g && !a.reuse && g < |s.queues| && s.queues[g] != [] then [s.queues[g][0]] else []
  }

  /** All frames given by removing reads of the group, in order. */
  ghost function Given(c: Config, s: State, actions: seq<Action>, g: nat): seq<nat>
    decreases |actions|
  {
    if actions == [] || !Fits(c, s) || (actions[0].Callback? && actions[0].order >= Outputs(c)) then []
    else GivenBy(s, actions[0], g) + Given(c, Next(c, s, actions[0]), actions[1..], g)
  }

  // ----- one step

  /** What a step does to the queue of g: a frame is published, one is given, or neither. */
  datatype Effect = Took(id: nat) | Gave | Kept

  ghost predicate Acts(c: Config, s: State, a: Action, t: State, g: nat, e: Effect)
    requires g < |s.queues| && g < |t.queues| && g < |c.cleaning| && c.cleaning[g].depth >= 1
  {
    var (q, taken) := (s.queues[g], Published(s.handed, g));
    match e
    case Took(id) =>
      && id !in taken && Published(t.handed, g) == taken + [id] && GivenBy(s, a, g) == []
      && (!c.cleaning[g].policy.LoopCover? ==> |q| < c.cleaning[g].depth)
      && t.queues[g] == [id] + q[..Least(|q|, c.cleaning[g].depth - 1)]
    case Gave => q != [] && GivenBy(s, a, g) == [q[0]] && t.queues[g] == q[1..] && Published(t.handed, g) == taken
    case Kept => GivenBy(s, a, g) == [] && t.queues[g] == q && Published(t.handed, g) == taken
  }

  lemma CallbackActs(c: Config, s: State, packet: Packet, order: nat, g: nat) returns (e: Effect)
    requires Inv(c, s) && Enabled(c, s, Callback(packet, order)) && g < |s.queues| && g < |c.cleaning|
    ensures var t := CallbackStep(c, s, packet, order); g < |t.queues| && Acts(c, s, Callback(packet, order), t, g, e)
  {
    LastCallbackHands(c, s, packet, order);
    if packet.stamp in s.inflight {
      var id := s.inflight[packet.stamp];
      var stream := Fill(s.streams[id], order, packet);
      CallbackNew(c, s, packet, order);
      e := EffectActs(c, s, packet, order, CallbackStep(c, s, packet, order), id, stream, g);
    } else {
      e := Kept;
    }
  }

  /** A frame in flight whose group lacks this packet has not been handed to it. */
  lemma CallbackNew(c: Config, s: State, packet: Packet, order: nat)
    requires Inv(c, s) && Enabled(c, s, Callback(packet, order)) && packet.stamp in s.inflight
    ensures !WasHanded(s.handed, s.inflight[packet.stamp], c.groups[order])
  {
    var id := s.inflight[packet.stamp];
    assert !GroupFilled(c, s.streams[id], c.groups[order]);
  }

  lemma EffectActs(c: Config, s: State, packet: Packet, order: nat, t: State, id: nat, stream: Stream, g: nat)
    returns (e: Effect)
    requires Fits(c, s) && order < Outputs(c) && id < |s.streams| && c.cleaning[c.groups[order]].depth >= 1
    requires CallbackEffect(c, s, t, id, order, stream) && g < |s.queues| && g < |c.cleaning|
    requires c.cleaning[g].depth >= 1
    requires !WasHanded(s.handed, id, c.groups[order])
    ensures g < |t.queues| && Acts(c, s, Callback(packet, order), t, g, e)
  {
    e := Kept;
    if GroupFilled(c, stream, c.groups[order]) {
      var h := Handoff(id, c.groups[order], order, stream.slots, HandOutcome(c, s, order));
      PublishedGrows(s.handed, h, g);
      if h.group == g && h.outcome.Published? {
        if id in Published(s.handed, g) { PublishedWere(s.handed, g, id); }
        e := Took(id);
      }
    }
  }

  lemma StopActs(c: Config, s: State, g: nat)
    requires Fits(c, s) && g < |s.queues| && g < |c.cleaning| && c.cleaning[g].depth >= 1
    requires s.waiting.Some? ==> s.handed[s.waiting.value].outcome.Waiting?
    ensures g < |StopStep(c, s).queues| && Acts(c, s, Stop, StopStep(c, s), g, Kept)
  {
    if s.waiting.Some? {
      CleanedFrame(c, Release(s), s.streams[s.handed[s.waiting.value].id].stamp);
      SettledPublished(s.handed, s.waiting.value, g);
    }
  }

  lemma GetActs(c: Config, s: State, group: nat, reuse: bool, g: nat) returns (e: Effect)
    requires g < |s.queues| && g < |c.cleaning| && c.cleaning[g].depth >= 1
    ensures var t := GetStep(s, group, reuse); g < |t.queues| && Acts(c, s, Get(group, reuse), t, g, e)
  {
    e := if GivenBy(s, Get(group, reuse), g) != [] then Gave else Kept;
  }

  lemma RegisterActs(c: Config, s: State, raw: nat, stamp: int, g: nat)
    requires g < |s.queues| && g < |c.cleaning| && c.cleaning[g].depth >= 1
    ensures var t := RegisterStep(c, s, raw, stamp); g < |t.queues| && Acts(c, s, Register(raw, stamp), t, g, Kept)
  {
    EvictFrame(Admit(c, s, raw, stamp));
  }

  lemma StepActs(c: Config, s: State, a: Action, g: nat) returns (e: Effect)
    requires Inv(c, s) && Enabled(c, s, a) && g < |s.queues| && g < |c.cleaning|
    ensures c.cleaning[g].depth >= 1 && g < |Next(c, s, a).queues| && Acts(c, s, a, Next(c, s, a), g, e)
  {
    e := Kept;
    match a
    case Register(raw, stamp) => RegisterActs(c, s, raw, stamp, g);
    case Callback(packet, order) => e := CallbackActs(c, s, packet, order, g);
    case Stop => StopActs(c, s, g);
    case Get(group, reuse) => e := GetActs(c, s, group, reuse, g);
    case Start =>
    case Clear(_) =>
  }

  // ----- reads in a run

  /** The frames taken and not given, newest first. */
  function Unread(taken: seq<nat>, given: set<nat>): seq<nat>
  {
    if taken == [] then []
    else
      var (rest, last) := (taken[..|taken| - 1], taken[|taken| - 1]);
      (if last in given then [] else [last]) + Unread(rest, given)
  }

  ghost predicate Distinct(list: seq<nat>) { forall i, j | 0 <= i < j < |list| :: list[i] != list[j] }

  lemma {:induction false} UnreadIgnores(taken: seq<nat>, given: set<nat>, id: nat)
    requires id !in taken
    ensures Unread(taken, given + {id}) == Unread(taken, given)
  {
    if taken != [] { UnreadIgnores(taken[..|taken| - 1], given, id); }
  }

  lemma UnreadGrows(taken: seq<nat>, given: set<nat>, id: nat)
    requires id !in given
    ensures Unread(taken + [id], given) == [id] + Unread(taken, given)
  {
    assert (taken + [id])[..|taken|] == taken;
  }

  /** Giving the newest unread frame leaves the others. */
  lemma {:induction false} UnreadShrinks(taken: seq<nat>, given: set<nat>)
    requires Distinct(taken) && Unread(taken, given) != []
    ensures var unread := Unread(taken, given);
            && unread[0] in taken && unread[0] !in given && Unread(taken, given + {unread[0]}) == unread[1..]
  {
    if taken != [] {
      var (rest, last) := (taken[..|taken| - 1], taken[|taken| - 1]);
      if last in given {
        UnreadShrinks(rest, given);
      } else {
        UnreadIgnores(rest, given, last);
      }
    }
  }

  /** The queue holds the unread frames, newest first; one that covers may have lost the oldest. */
  ghost predicate AreUnread(queue: seq<nat>, taken: seq<nat>, covers: bool, given: set<nat>)
  {
    && Distinct(taken) && (forall id | id in given :: id in taken)
    && queue <= Unread(taken, given) && (!covers ==> queue == Unread(taken, given))
  }

  ghost predicate HoldsUnread(c: Config, s: State, g: nat, given: set<nat>)
  {
    && g < |s.queues| && g < |c.cleaning|
    && AreUnread(s.queues[g], Published(s.handed, g), c.cleaning[g].policy.LoopCover?, given)
  }

  function Elements(list: seq<nat>): set<nat> { set x | x in list }

  lemma TookHolds(queue: seq<nat>, taken: seq<nat>, covers: bool, given: set<nat>, id: nat, n: nat)
    requires AreUnread(queue, taken, covers, given) && id !in taken && n <= |queue| && (!covers ==> n == |queue|)
    ensures AreUnread([id] + queue[..n], taken + [id], covers, given)
  {
    UnreadGrows(taken, given, id);
    assert queue[..n] <= queue;
  }

  lemma GaveHolds(queue: seq<nat>, taken: seq<nat>, covers: bool, given: set<nat>)
    requires AreUnread(queue, taken, covers, given) && queue != []
    ensures AreUnread(queue[1..], taken, covers, given + {queue[0]}) && queue[0] !in given
  {
    UnreadShrinks(taken, given);
  }

  lemma ActsHolds(c: Config, s: State, a: Action, t: State, g: nat, e: Effect, given: set<nat>)
    requires HoldsUnread(c, s, g, given) && g < |t.queues| && c.cleaning[g].depth >= 1 && Acts(c, s, a, t, g, e)
    ensures HoldsUnread(c, t, g, given + Elements(GivenBy(s, a, g)))
    ensures forall id | id in GivenBy(s, a, g) :: id !in given
  {
    var (taken, queue, covers) := (Published(s.handed, g), s.queues[g], c.cleaning[g].policy.LoopCover?);
    assert given + Elements([]) == given;
    match e
    case Took(id) => TookHolds(queue, taken, covers, given, id, Least(|queue|, c.cleaning[g].depth - 1));
    case Gave =>
      GaveHolds(queue, taken, covers, given);
      assert given + Elements([queue[0]]) == given + {queue[0]};
    case Kept =>
  }

  /** The first step of a run, and what its reads give. */
  lemma FirstStep(c: Config, s: State, actions: seq<Action>, t: State, g: nat) returns (next: State, e: Effect)
    requires Inv(c, s) && actions != [] && IsRun(c, s, actions, t) && g < |s.queues| && g < |c.cleaning|
    ensures Inv(c, next) && IsRun(c, next, actions[1..], t) && g < |next.queues| && c.cleaning[g].depth >= 1
    ensures Acts(c, s, actions[0], next, g, e)
    ensures Given(c, s, actions, g) == GivenBy(s, actions[0], g) + Given(c, next, actions[1..], g)
  {
    next := Next(c, s, actions[0]);
    e := StepActs(c, s, actions[0], g);
    NextInv(c, s, actions[0]);
  }

  lemma GivenJoined(given: set<nat>, first: seq<nat>, rest: seq<nat>)
    requires |first| <= 1 && Distinct(rest) && (forall id | id in first :: id !in given)
    requires forall id | id in rest :: id !in given + Elements(first)
    ensures given + Elements(first) + Elements(rest) == given + Elements(first + rest)
    ensures Distinct(first + rest) && forall id | id in first + rest :: id !in given
  {
    if first != [] { assert first[0] in Elements(first); }
  }

  lemma {:induction false} RunReads(c: Config, s: State, actions: seq<Action>, t: State, g: nat, given: set<nat>)
    requires Inv(c, s) && IsRun(c, s, actions, t) && HoldsUnread(c, s, g, given)
    ensures var list := Given(c, s, actions, g);
            && HoldsUnread(c, t, g, given + Elements(list)) && Distinct(list)
            && forall id | id in list :: id !in given
    decreases |actions|
  {
    if actions == [] {
      assert given + Elements([]) == given;
    } else {
      var next, e := FirstStep(c, s, actions, t, g);
      ActsHolds(c, s, actions[0], next, g, e, given);
      RunReads(c, next, actions[1..], t, g, given + Elements(GivenBy(s, actions[0], g)));
      GivenJoined(given, GivenBy(s, actions[0], g), Given(c, next, actions[1..], g));
    }
  }

  lemma InitHolds(c: Config, g: nat)
    requires WellFormed(c) && g < GroupCount(c)
    ensures HoldsUnread(c, Init(c), g, {})
  {
  }

  lemma NoneBefore(list: seq<nat>)
    ensures {} + Elements(list) == Elements(list)
  {
  }

  /** In every run a removing read never gives a frame a second time, gives only frames that the
      queue took, and what the queue holds are the frames not given yet, newest first: all of them,
      unless the queue covers old ones, and then the newest. */
  lemma EachGivenOnce(c: Config, actions: seq<Action>, t: State, g: nat)
    requires WellFormed(c) && IsRun(c, Init(c), actions, t) && g < GroupCount(c)
    ensures Distinct(Given(c, Init(c), actions, g))
    ensures HoldsUnread(c, t, g, Elements(Given(c, Init(c), actions, g)))
  {
    InitInv(c);
    InitHolds(c, g);
    RunReads(c, Init(c), actions, t, g, {});
    NoneBefore(Given(c, Init(c), actions, g));
  }

  // ----- reads alone

  /** How many of the actions remove a frame of the group, if there is one. */
  function Removing(actions: seq<Action>, g: nat): nat
  {
    if actions == [] then 0 else (if actions[0] == Get(g, false) then 1 else 0) + Removing(actions[1..], g)
  }

  lemma {:induction false} RunPublishes(c: Config, s: State, actions: seq<Action>, t: State, g: nat)
    requires Inv(c, s) && IsRun(c, s, actions, t) && g < |s.queues| && g < |c.cleaning|
    ensures Published(s.handed, g) <= Published(t.handed, g) && g < |t.queues|
    decreases |actions|
  {
    if actions != [] {
      var next, e := FirstStep(c, s, actions, t, g);
      RunPublishes(c, next, actions[1..], t, g);
    }
  }

  /** The first n frames of the queue were given, and the others are left. */
  ghost predicate Drained(queue: seq<nat>, left: seq<nat>, given: seq<nat>, n: nat)
  {
    && (if n <= |queue| then given == queue[..n] && left == queue[n..] else given == queue && left == [])
  }

  lemma NothingTook(c: Config, s: State, a: Action, next: State, t: State, g: nat, e: Effect)
    requires g < |s.queues| && g < |next.queues| && g < |c.cleaning| && c.cleaning[g].depth >= 1
    requires Acts(c, s, a, next, g, e) && Published(next.handed, g) <= Published(t.handed, g) == Published(s.handed, g)
    ensures !e.Took? && Published(next.handed, g) == Published(t.handed, g)
  {
  }

  lemma DrainedFurther(c: Config, s: State, a: Action, next: State, g: nat, e: Effect, left: seq<nat>, rest: seq<nat>,
                       n: nat)
    requires g < |s.queues| && g < |next.queues| && g < |c.cleaning| && c.cleaning[g].depth >= 1
    requires Acts(c, s, a, next, g, e) && !e.Took? && Drained(next.queues[g], left, rest, n)
    ensures Drained(s.queues[g], left, GivenBy(s, a, g) + rest, n + if a == Get(g, false) then 1 else 0)
  {
    var queue := s.queues[g];
    if e.Gave? && n + 1 <= |queue| {
      assert [queue[0]] + queue[1..][..n] == queue[..n + 1] && queue[1..][n..] == queue[n + 1..];
    }
  }

  /** Whatever else happens, as long as nothing is published to the group, its removing reads give
      the frames of its queue from the front on, each once, and then nothing. */
  lemma {:induction false} ReadsDrain(c: Config, s: State, actions: seq<Action>, t: State, g: nat)
    requires Inv(c, s) && IsRun(c, s, actions, t) && g < |s.queues| && g < |c.cleaning|
    requires Published(t.handed, g) == Published(s.handed, g)
    ensures g < |t.queues| && Drained(s.queues[g], t.queues[g], Given(c, s, actions, g), Removing(actions, g))
    decreases |actions|
  {
    if actions != [] {
      var next, e := FirstStep(c, s, actions, t, g);
      RunPublishes(c, next, actions[1..], t, g);
      NothingTook(c, s, actions[0], next, t, g, e);
      ReadsDrain(c, next, actions[1..], t, g);
      DrainedFurther(c, s, actions[0], next, g, e, t.queues[g], Given(c, next, actions[1..], g),
                     Removing(actions[1..], g));
    }
  }

  /** A read that reuses the frame changes nothing. */
  lemma ReuseKeeps(c: Config, s: State, g: nat)
    requires Fits(c, s)
    ensures Next(c, s, Get(g, true)) == s
  {
  }
}
