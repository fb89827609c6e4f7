/** The stream matcher as the object the graph calls, its methods and loops tied to the
    steps of `StreamMatching`.  The ghost fields record history only.  A call that needs the
    output lock while a hand-over waits is a call made after the wait. */
module BaseXGraph {
  import opened Collections
  import opened StreamMatching
  import opened StreamMatchingSafety

  /** The loop that sizes the queue table: the greatest group index, plus one. */
  method CountGroups(groups: seq<nat>) returns (count: nat)
    ensures count == MaxGroup(groups) + 1
  {
    var max := 0;
    for i := 0 to |groups|
      invariant max == MaxGroup(groups[..i])
    {
      assert groups[..i + 1][..i] == groups[..i];
      if groups[i] > max {
        max := groups[i];
      }
    }
    assert groups[..|groups|] == groups;
    count := max + 1;
  }

  class BaseXGraph {
    const c: Config
    var started: bool
    var streams: seq<Stream>
    var inflight: map<int, nat>
    var queues: seq<seq<nat>>
    /** The stamp of the callback that waits for room. */
    var waiting: Option<int>
    ghost var place: nat
    ghost var fates: seq<Fate>
    ghost var handed: seq<Handoff>
    ghost var latest: seq<Option<int>>

    ghost function Abs(): State
      reads this
    {
      State(started, streams, inflight, queues, if waiting.Some? then Some(place) else None, fates, handed, latest)
    }

    ghost predicate Valid()
      reads this
    {
      Fits(c, Abs()) && (waiting.Some? ==> streams[handed[place].id].stamp == waiting.value)
    }

    constructor (config: Config)
      ensures c == config && Abs() == Init(config)
    {
      c := config;
      started := false;
      streams := [];
      inflight := map[];
      var count := CountGroups(config.groups);
      queues := seq(count, _ => []);
      waiting, place := None, 0;
      fates, handed, latest := [], [], seq(Outputs(config), _ => None);
    }

    method Start()
      requires Valid()
      modifies this
      ensures Abs() == Next(c, old(Abs()), Action.Start)
    {
      started := true;
    }

    method Stop()
      requires Valid()
      modifies this
      ensures Valid() && Abs() == Next(c, old(Abs()), Action.Stop)
    {
      started := false;
      if waiting.Some? {
        var stamp := waiting.value;
        waiting := None;
        handed := handed[place := handed[place].(outcome := DroppedStopped)];
        CleanUp(stamp);
      }
    }

    /** The end of a callback. */
    method CleanUp(stamp: int)
      requires Valid()
      modifies `inflight, `fates
      ensures Valid() && Abs() == Cleaned(c, old(Abs()), stamp)
    {
      FlowCleanFits(c, Abs(), stamp);
      if |queues| == 1 && |inflight| >= MIN_GLOBAL_DEPTH {
        CleanMediapipeDropedInferenceCache(stamp);
      }
    }

    method SetInputStreamCache(raw: nat, stamp: int) returns (ok: bool)
      requires Valid()
      modifies this
      ensures Abs() == Next(c, old(Abs()), Register(raw, stamp))
      ensures ok == (old(started) && stamp !in old(inflight))
    {
      if !started {
        return false;
      }
      if stamp in inflight {
        return false;
      }
      inflight := inflight[stamp := |streams|];
      streams := streams + [Stream(raw, stamp, 0, {}, seq(Outputs(c), _ => None))];
      fates := fates + [InFlight];
      CleanGraphNoResultInferenceCache();
      return true;
    }

    method ClearInputStreamCache(stamp: int)
      requires Valid()
      modifies this
      ensures Abs() == Next(c, old(Abs()), Clear(stamp))
    {
      Erase(stamp, Cleared);
    }

    /** Erase from the ordered in-flight table. */
    method Erase(stamp: int, ghost fate: Fate)
      modifies `inflight, `fates
      ensures Abs() == Forget(old(Abs()), stamp, fate)
    {
      if stamp in inflight && inflight[stamp] < |fates| {
        fates := fates[inflight[stamp] := fate];
      }
      inflight := inflight - {stamp};
    }

    /** The first key of the ordered table. */
    method Oldest() returns (k: int)
      requires inflight.Keys != {}
      ensures k == MinKey(inflight.Keys)
    {
      HasMinKey(inflight.Keys);
      k :| k in inflight.Keys && forall j :: j in inflight.Keys ==> k <= j;
    }

    method CleanGraphNoResultInferenceCache()
      modifies `inflight, `fates
      ensures Abs() == Evict(old(Abs()))
      ensures OldestGone(old(inflight), inflight) && |inflight| == Least(|old(inflight)|, MAX_GLOBAL_DEPTH - 1)
    {
      EvictTakesOldest(Abs());
      while |inflight| >= MAX_GLOBAL_DEPTH
        invariant Evict(Abs()) == Evict(old(Abs()))
        decreases |inflight|
      {
        var oldest := Oldest();
        Erase(oldest, Evicted);
      }
    }

    method CleanMediapipeDropedInferenceCache(stamp: int)
      modifies `inflight, `fates
      ensures Abs() == FlowClean(old(Abs()), stamp)
      ensures inflight == map k | k in old(inflight) && k >= stamp :: old(inflight)[k]
    {
      FlowCleanDropsOlder(Abs(), stamp);
      while inflight.Keys != {}
        invariant FlowClean(Abs(), stamp) == FlowClean(old(Abs()), stamp)
        decreases |inflight|
      {
        var oldest := Oldest();
        if oldest >= stamp {
          break;
        }
        Erase(oldest, FlowDropped);
      }
    }

    /** The queue step; true if the frame has to wait for room. */
    method MoveOutputCache(id: nat, order: nat) returns (waits: bool)
      requires Valid() && id < |streams| && order < Outputs(c)
      modifies this
      ensures Valid() && Abs() == Hand(c, old(Abs()), id, order)
      ensures waits == (Abs().waiting != old(Abs()).waiting)
    {
      var g := c.groups[order];
      var queue := queues[g];
      var cleaning := c.cleaning[g];
      ghost var outcome := QueueOutcome(cleaning, started, |queue|);
      waits := false;
      if started {
        match cleaning.policy
        case LoopCover =>
          if |queue| >= cleaning.depth && |queue| > 0 {
            queue := queue[..|queue| - 1];
          }
          queues := queues[g := [id] + queue];
        case BlockWhenFull =>
          if |queue| >= cleaning.depth {
            waits := true;
          } else {
            queues := queues[g := [id] + queue];
          }
        case DropWhenFull =>
          if |queue| < cleaning.depth {
            queues := queues[g := [id] + queue];
          }
      }
      if waits {
        waiting, place := Some(streams[id].stamp), |handed|;
      }
      handed := handed + [Handoff(id, g, order, streams[id].slots, outcome)];
    }

    method CallBackInferenceResult(packet: Packet, order: nat) returns (ret: bool)
      requires Valid() && order < Outputs(c)
      modifies this
      ensures Valid() && Abs() == Next(c, old(Abs()), Callback(packet, order))
      ensures ret == (packet.stamp in old(inflight))
    {
      ret := MatchAndClean(packet, order);
      latest := old(latest)[order := Some(packet.stamp)];
    }

    method MatchAndClean(packet: Packet, order: nat) returns (ret: bool)
      requires Valid() && order < Outputs(c)
      modifies this
      ensures Valid() && Abs() == MatchedAndCleaned(c, old(Abs()), packet, order)
      ensures ret == (packet.stamp in old(inflight))
    {
      ret := packet.stamp in inflight;
      var waits := false;
      if ret {
        waits := Matched(packet, order);
      }
      if !waits {
        CleanUp(packet.stamp);
      }
    }

    /** The part of the callback under the inference lock, and the hand-over after it. */
    method Matched(packet: Packet, order: nat) returns (waits: bool)
      requires Valid() && order < Outputs(c) && packet.stamp in inflight
      modifies this
      ensures Valid() && Abs() == Match(c, old(Abs()), packet, order)
      ensures waits == (Abs().waiting != old(Abs()).waiting)
    {
      var id := inflight[packet.stamp];
      var stream := Fill(streams[id], order, packet);
      waits := false;
      streams := streams[id := stream];
      if stream.count == |stream.slots| {
        Erase(packet.stamp, Finished);
      }
      var publish := if |queues| == 1 then stream.count == |stream.slots|
                     else SyncOrderBitmap(c.bitmaps[order], stream.bitmap);
      if publish {
        waits := MoveOutputCache(id, order);
      }
    }

    method GetOutputStreamCache(group: nat, reuse: bool) returns (r: Option<nat>)
      requires Valid()
      modifies this
      ensures Abs() == Next(c, old(Abs()), Get(group, reuse))
      ensures r == if group < |old(queues)| && |old(queues)[group]| > 0 then Some(old(queues)[group][0]) else None
      ensures queues == if r.Some? && !reuse then old(queues)[group := old(queues)[group][1..]] else old(queues)
    {
      r := None;
      if group >= |queues| {
        return;
      }
      if |queues[group]| > 0 {
        r := Some(queues[group][0]);
        if !reuse {
          queues := queues[group := queues[group][1..]];
        }
      }
    }
  }
}
