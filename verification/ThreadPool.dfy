/** A thread pool: callers enqueue tasks, workers take and run them, and stopping lets the
    workers drain the queue and exit.  Every step holds the queue lock, except running a
    task, which is the stretch between taking and finishing it. */
module TaskQueue {

  type Task = nat

  datatype Worker = Waiting | Running(task: Task) | Exited

  /** `accepted`, `taken` and `done` are history. */
  datatype State = State(
    maxDepth: nat,
    workers: seq<Worker>,
    queue: seq<Task>,
    stopped: bool,
    accepted: seq<Task>,
    taken: seq<Task>,
    done: multiset<Task>)

  datatype Action = Enqueue(task: Task) | Stop | Take(worker: nat) | Exit(worker: nat) | Finish(worker: nat)

  function Init(workers: nat, maxDepth: nat): State
  {
    State(maxDepth, seq(workers, _ => Waiting), [], false, [], [], multiset{})
  }

  predicate Rejects(s: State) { (s.maxDepth > 0 && |s.queue| > s.maxDepth) || s.stopped }

  /** A waiting worker wakes up for a task, or to exit when stopped with nothing left. */
  predicate Enabled(s: State, a: Action)
  {
    match a
    case Enqueue(_) => true
    case Stop => true
    case Take(w) => w < |s.workers| && s.workers[w].Waiting? && s.queue != []
    case Exit(w) => w < |s.workers| && s.workers[w].Waiting? && s.queue == [] && s.stopped
    case Finish(w) => w < |s.workers| && s.workers[w].Running?
  }

  function Next(s: State, a: Action): State
    requires Enabled(s, a)
  {
    match a
    case Enqueue(task) => if Rejects(s) then s else s.(queue := s.queue + [task], accepted := s.accepted + [task])
    case Stop => s.(stopped := true)
    case Take(w) =>
      s.(workers := s.workers[w := Running(s.queue[0])], queue := s.queue[1..], taken := s.taken + [s.queue[0]])
    case Exit(w) => s.(workers := s.workers[w := Exited])
    case Finish(w) => s.(workers := s.workers[w := Waiting], done := s.done + multiset{s.workers[w].task})
  }

  // ----- the invariant

  function OneIf(b: bool): nat { if b then 1 else 0 }

  /** How many workers are running a task. */
  function Runs(workers: seq<Worker>, task: Task): nat
  {
    if workers == [] then 0
    else Runs(workers[..|workers| - 1], task) + OneIf(workers[|workers| - 1] == Running(task))
  }

  ghost predicate Inv(s: State)
  {
    && s.accepted == s.taken + s.queue
    && (forall task :: multiset(s.taken)[task] == Runs(s.workers, task) + s.done[task])
    && (s.maxDepth > 0 ==> |s.queue| <= s.maxDepth + 1)
    && (SomeExited(s.workers) ==> s.stopped && s.queue == [])
  }

  ghost predicate SomeExited(workers: seq<Worker>) { exists w :: 0 <= w < |workers| && workers[w].Exited? }

  lemma {:induction false} UpdatedRuns(workers: seq<Worker>, w: nat, to: Worker, task: Task)
    requires w < |workers|
    ensures Runs(workers[w := to], task) + OneIf(workers[w] == Running(task)) ==
              Runs(workers, task) + OneIf(to == Running(task))
  {
    var n := |workers| - 1;
    if w < n {
      UpdatedRuns(workers[..n], w, to, task);
      assert workers[w := to][..n] == workers[..n][w := to];
    } else {
      assert workers[w := to][..n] == workers[..n];
    }
  }

  lemma {:induction false} NoneRunning(workers: seq<Worker>, task: Task)
    requires forall w | 0 <= w < |workers| :: !workers[w].Running?
    ensures Runs(workers, task) == 0
  {
    if workers != [] { NoneRunning(workers[..|workers| - 1], task); }
  }

  lemma StillExited(workers: seq<Worker>, w: nat, to: Worker)
    requires w < |workers| && !to.Exited?
    ensures SomeExited(workers[w := to]) ==> SomeExited(workers)
  {
    if SomeExited(workers[w := to]) {
      var x :| 0 <= x < |workers| && workers[w := to][x].Exited?;
      assert workers[x].Exited?;
    }
  }

  lemma TakeInv(s: State, w: nat)
    requires Inv(s) && Enabled(s, Take(w))
    ensures Inv(Next(s, Take(w)))
  {
    var front := s.queue[0];
    forall task
      ensures multiset(s.taken + [front])[task] == Runs(s.workers[w := Running(front)], task) + s.done[task]
    {
      UpdatedRuns(s.workers, w, Running(front), task);
    }
    StillExited(s.workers, w, Running(front));
    assert s.queue == [front] + s.queue[1..];
    assert s.taken + s.queue == s.taken + [front] + s.queue[1..];
  }

  lemma ExitInv(s: State, w: nat)
    requires Inv(s) && Enabled(s, Exit(w))
    ensures Inv(Next(s, Exit(w)))
  {
    forall task
      ensures multiset(s.taken)[task] == Runs(s.workers[w := Exited], task) + s.done[task]
    {
      UpdatedRuns(s.workers, w, Exited, task);
    }
  }

  lemma FinishInv(s: State, w: nat)
    requires Inv(s) && Enabled(s, Finish(w))
    ensures Inv(Next(s, Finish(w)))
  {
    var more := s.done + multiset{s.workers[w].task};
    forall task
      ensures multiset(s.taken)[task] == Runs(s.workers[w := Waiting], task) + more[task]
    {
      UpdatedRuns(s.workers, w, Waiting, task);
    }
    StillExited(s.workers, w, Waiting);
  }

  lemma NextInv(s: State, a: Action)
    requires Inv(s) && Enabled(s, a)
    ensures Inv(Next(s, a))
  {
    match a
    case Enqueue(task) => assert s.accepted + [task] == s.taken + (s.queue + [task]);
    case Stop =>
    case Take(w) => TakeInv(s, w);
    case Exit(w) => ExitInv(s, w);
    case Finish(w) => FinishInv(s, w);
  }

  // ----- runs

  ghost predicate Follows(s: State, a: Action, t: State) { Enabled(s, a) && t == Next(s, a) }

  ghost predicate IsRun(workers: nat, maxDepth: nat, actions: seq<Action>, states: seq<State>)
  {
    && |states| == |actions| + 1 && states[0] == Init(workers, maxDepth)
    && forall k | 0 <= k < |actions| :: Follows(states[k], actions[k], states[k + 1])
  }

  lemma {:induction false} InitInv(workers: nat, maxDepth: nat)
    ensures Inv(Init(workers, maxDepth))
  {
    forall task
      ensures Runs(Init(workers, maxDepth).workers, task) == 0
    {
      NoneRunning(Init(workers, maxDepth).workers, task);
    }
  }

  lemma {:induction false} RunInv(workers: nat, maxDepth: nat, actions: seq<Action>, states: seq<State>, k: nat)
    requires IsRun(workers, maxDepth, actions, states) && k <= |actions|
    ensures Inv(states[k]) && |states[k].workers| == workers && states[k].maxDepth == maxDepth
    decreases k
  {
    if k == 0 {
      InitInv(workers, maxDepth);
    } else {
      RunInv(workers, maxDepth, actions, states, k - 1);
      assert Follows(states[k - 1], actions[k - 1], states[k]);
      NextInv(states[k - 1], actions[k - 1]);
    }
  }

  /** In every interleaving the accepted tasks are, in order, those taken and those queued;
      the ones taken are running or done, each exactly as often as accepted; and the queue of
      a pool with a depth holds at most one task more than the depth. */
  lemma NothingLost(workers: nat, maxDepth: nat, actions: seq<Action>, states: seq<State>, k: nat)
    requires IsRun(workers, maxDepth, actions, states) && k <= |actions|
    ensures var s := states[k];
            && s.accepted == s.taken + s.queue
            && (forall task ::
                  multiset(s.accepted)[task] == multiset(s.queue)[task] + Runs(s.workers, task) + s.done[task])
            && (maxDepth > 0 ==> |s.queue| <= maxDepth + 1)
  {
    RunInv(workers, maxDepth, actions, states, k);
    assert multiset(states[k].taken + states[k].queue) == multiset(states[k].taken) + multiset(states[k].queue);
  }

  /** Once stopped, a pool stays stopped and accepts nothing. */
  lemma {:induction false} NothingAcceptedAfterStop(workers: nat, maxDepth: nat, actions: seq<Action>,
                                                    states: seq<State>, i: nat, k: nat)
    requires IsRun(workers, maxDepth, actions, states) && i <= k <= |actions| && states[i].stopped
    ensures states[k].stopped && states[k].accepted == states[i].accepted
    decreases k
  {
    if i < k {
      NothingAcceptedAfterStop(workers, maxDepth, actions, states, i, k - 1);
      assert Follows(states[k - 1], actions[k - 1], states[k]);
    }
  }

  /** Enqueueing tasks one after the other, with nothing in between. */
  function EnqueueAll(s: State, tasks: seq<Task>): State
    decreases |tasks|
  {
    if tasks == [] then s else Next(EnqueueAll(s, tasks[..|tasks| - 1]), Enqueue(tasks[|tasks| - 1]))
  }

  /** How many of n tasks a pool takes if no worker comes in between: none once it is stopped, all
      without a depth, and otherwise until the queue holds one task more than the depth. */
  function Room(s: State, n: nat): nat
  {
    if s.stopped then 0
    else if s.maxDepth == 0 || |s.queue| + n <= s.maxDepth + 1 then n
    else if |s.queue| > s.maxDepth then 0
    else s.maxDepth + 1 - |s.queue|
  }

  /** The first tasks of a burst that fit are accepted, in order, and the others change nothing. */
  lemma {:induction false} BurstFillsQueue(s: State, tasks: seq<Task>)
    ensures var (t, taken) := (EnqueueAll(s, tasks), tasks[..Room(s, |tasks|)]);
            t == s.(queue := s.queue + taken, accepted := s.accepted + taken)
    decreases |tasks|
  {
    if tasks == [] {
      assert s.queue + [] == s.queue && s.accepted + [] == s.accepted;
    } else {
      var (rest, last) := (tasks[..|tasks| - 1], tasks[|tasks| - 1]);
      BurstFillsQueue(s, rest);
      var (fits, more) := (rest[..Room(s, |rest|)], tasks[..Room(s, |tasks|)]);
      if Rejects(EnqueueAll(s, rest)) {
        assert more == fits;
      } else {
        assert more == fits + [last];
        assert s.queue + fits + [last] == s.queue + more && s.accepted + fits + [last] == s.accepted + more;
      }
    }
  }

  ghost predicate AllExited(s: State) { forall w | 0 <= w < |s.workers| :: s.workers[w].Exited? }

  ghost predicate AllDone(s: State) { s.done == multiset(s.accepted) }

  lemma ExitedMeansDone(s: State)
    requires Inv(s) && AllExited(s) && |s.workers| > 0
    ensures AllDone(s) && s.stopped
  {
    assert s.workers[0].Exited?;
    assert s.taken + s.queue == s.taken;
    forall task
      ensures s.done[task] == multiset(s.accepted)[task]
    {
      NoneRunning(s.workers, task);
    }
  }

  ghost predicate DrainsFully(workers: nat, maxDepth: nat)
  {
    forall actions, states | IsRun(workers, maxDepth, actions, states) ::
      forall k | 0 <= k < |states| && AllExited(states[k]) :: AllDone(states[k])
  }

  /** That all workers have exited means that every accepted task is done exactly if the pool
      has a worker. */
  lemma DrainsIffWorkers(workers: nat, maxDepth: nat)
    ensures DrainsFully(workers, maxDepth) <==> workers > 0
  {
    if workers > 0 {
      forall actions, states, k | IsRun(workers, maxDepth, actions, states) && 0 <= k < |states| && AllExited(states[k])
        ensures AllDone(states[k])
      {
        RunInv(workers, maxDepth, actions, states, k);
        ExitedMeansDone(states[k]);
      }
    } else {
      var s := Init(0, maxDepth);
      var t := Next(s, Enqueue(7));
      var states := [s, t];
      assert Follows(s, Enqueue(7), t);
      assert IsRun(0, maxDepth, [Enqueue(7)], states);
      assert AllExited(states[1]) && t.accepted == [7] && 7 in multiset(t.accepted) && 7 !in t.done;
      assert !AllDone(states[1]);
    }
  }

  // ----- stopping ends

  function Weight(w: Worker): nat { match w case Waiting => 1 case Running(_) => 2 case Exited => 0 }

  function Weights(workers: seq<Worker>): nat
  {
    if workers == [] then 0 else Weights(workers[..|workers| - 1]) + Weight(workers[|workers| - 1])
  }

  /** How many worker steps a stopped pool can still take, at most. */
  function Remaining(s: State): nat { 3 * |s.queue| + Weights(s.workers) }

  lemma {:induction false} UpdatedWeights(workers: seq<Worker>, w: nat, to: Worker)
    requires w < |workers|
    ensures Weights(workers[w := to]) + Weight(workers[w]) == Weights(workers) + Weight(to)
  {
    var n := |workers| - 1;
    if w < n {
      UpdatedWeights(workers[..n], w, to);
      assert workers[w := to][..n] == workers[..n][w := to];
    } else {
      assert workers[w := to][..n] == workers[..n];
    }
  }

  predicate IsWorkerStep(a: Action) { a.Take? || a.Exit? || a.Finish? }

  /** A stopped pool cannot get stuck before its workers have exited, and every worker step
      brings it closer to that, so joining the workers ends. */
  lemma StoppedPoolDrains(s: State)
    requires s.stopped
    ensures !AllExited(s) ==> exists a :: IsWorkerStep(a) && Enabled(s, a)
    ensures forall a | Enabled(s, a) :: Remaining(Next(s, a)) <= Remaining(s) - (if IsWorkerStep(a) then 1 else 0)
  {
    if !AllExited(s) {
      var w :| 0 <= w < |s.workers| && !s.workers[w].Exited?;
      var a := if s.workers[w].Running? then Finish(w) else if s.queue != [] then Take(w) else Exit(w);
      assert IsWorkerStep(a) && Enabled(s, a);
    }
    forall a | Enabled(s, a)
      ensures Remaining(Next(s, a)) <= Remaining(s) - (if IsWorkerStep(a) then 1 else 0)
    {
      match a
      case Take(w) => UpdatedWeights(s.workers, w, Running(s.queue[0]));
      case Exit(w) => UpdatedWeights(s.workers, w, Exited);
      case Finish(w) => UpdatedWeights(s.workers, w, Waiting);
      case Enqueue(_) =>
      case Stop =>
    }
  }
}

/** The pool as the object whose methods the callers and the worker loops run. */
module ThreadPool {
  import opened TaskQueue

  class ThreadPool {
    const maxDepth: nat
    var workers: seq<Worker>
    var tasks: seq<Task>
    var stopped: bool
    ghost var accepted: seq<Task>
    ghost var taken: seq<Task>
    ghost var done: multiset<Task>

    ghost function Abs(): State
      reads this
    {
      State(maxDepth, workers, tasks, stopped, accepted, taken, done)
    }

    ghost predicate Valid()
      reads this
    {
      Inv(Abs())
    }

    constructor (threads: nat, depth: nat)
      ensures Valid() && Abs() == Init(threads, depth)
    {
      maxDepth := depth;
      workers := seq(threads, _ => Waiting);
      tasks, stopped := [], false;
      accepted, taken, done := [], [], multiset{};
      new;
      InitInv(threads, depth);
    }

    /** False is the invalid future of a task that was not accepted. */
    method Enqueue(task: Task) returns (ok: bool)
      requires Valid()
      modifies this
      ensures Valid() && Abs() == Next(old(Abs()), Action.Enqueue(task))
      ensures ok == !Rejects(old(Abs()))
    {
      NextInv(Abs(), Action.Enqueue(task));
      if (maxDepth > 0 && |tasks| > maxDepth) || stopped {
        return false;
      }
      tasks := tasks + [task];
      accepted := accepted + [task];
      return true;
    }

    method Stop()
      requires Valid()
      modifies this
      ensures Valid() && Abs() == Next(old(Abs()), Action.Stop)
    {
      NextInv(Abs(), Action.Stop);
      stopped := true;
    }

    /** One turn of the worker loop, after its wait: exit, or take the front task. */
    method WakeUp(w: nat) returns (task: Task, run: bool)
      requires Valid() && w < |workers| && workers[w].Waiting? && (stopped || tasks != [])
      modifies this
      ensures Valid() && run == (old(tasks) != [])
      ensures Abs() == Next(old(Abs()), if run then Take(w) else Exit(w))
      ensures run ==> task == old(tasks)[0]
    {
      if stopped && tasks == [] {
        ExitInv(Abs(), w);
        workers := workers[w := Exited];
        return 0, false;
      }
      TakeInv(Abs(), w);
      task := tasks[0];
      tasks := tasks[1..];
      workers := workers[w := Running(task)];
      taken := taken + [task];
      return task, true;
    }

    method TaskDone(w: nat)
      requires Valid() && w < |workers| && workers[w].Running?
      modifies this
      ensures Valid() && Abs() == Next(old(Abs()), Finish(w))
    {
      NextInv(Abs(), Finish(w));
      done := done + multiset{workers[w].task};
      workers := workers[w := Waiting];
    }
  }
}
