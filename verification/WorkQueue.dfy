/** The worker loop that all controllers share: client-go's work queue, the workers that drain it,
    and `Start`, which spawns and awaits them. Any number of workers, any interleaving.

    `pkg/cleaner/controller.go` repeats this loop with one addition: it may re-add an item
    with a delay before it is done with it (outcome `Again`). */
module WorkQueue {
  import opened Naming
  import opened Runs

  /** What became of a key: synchronised, synchronised and to be looked at again, or failed. */
  datatype Outcome = Forget | Again | Fail

  function OutcomeOf(failed: bool, requeue: bool): Outcome {
    if failed then Fail else if requeue then Again else Forget
  }

  // ---- The queue ----

  datatype Queue<K(==,!new)> =
    Queue(queue: seq<K>, dirty: set<K>, processing: set<K>, delayed: set<K>, shuttingDown: bool) {

    function Add(k: K): Queue<K> {
      if shuttingDown || k in dirty then this
      else this.(dirty := dirty + {k}, queue := if k in processing then queue else queue + [k])
    }

    /** `AddAfter` and `AddRateLimited`: the delay is over at any time. */
    function AddLater(k: K): Queue<K> {
      if shuttingDown then this else this.(delayed := delayed + {k})
    }

    function Ready(k: K): Queue<K> {
      this.(delayed := delayed - {k}).Add(k)
    }

    function Take(): Queue<K>
      requires queue != []
    {
      this.(queue := queue[1..], dirty := dirty - {queue[0]}, processing := processing + {queue[0]})
    }

    function Done(k: K): Queue<K> {
      this.(processing := processing - {k}, queue := if k in dirty then queue + [k] else queue)
    }

    /** Queued exactly when dirty and not being processed, and queued once. */
    ghost predicate Ok() {
      && (forall k :: k in queue <==> k in dirty && k !in processing)
      && (forall i, j :: 0 <= i < j < |queue| ==> queue[i] != queue[j])
    }
  }

  // ---- Workers and Start ----

  /** Where a worker is. `Skipped` and `Exited` have left `wait.Until`; `Skipped` never entered its loop. */
  datatype Phase<K> =
    | Starting | Idle | Got(key: K) | Ran(key: K, outcome: Outcome) | Retrying(key: K)
    | Leaving | Left | Exited | Skipped

  /** Where `Start` is. `Aborted` is the error return, `Returned` the nil return. */
  datatype Main = Syncing | Spawning | Serving | Draining | Returned | Aborted

  datatype Pool<K(==,!new)> = Pool(q: Queue<K>, workers: seq<Phase<K>>, wg: int, stopped: bool, main: Main)

  datatype Act<K> =
    | AddNow(key: K) | AddDelayed(key: K) | Ready(key: K) | Stop
    | CachesSynced | GiveUp | Spawn | AllSpawned | ShutDown | Return
    | Enter(w: nat) | Get(w: nat) | Run(w: nat, outcome: Outcome)
    | Rearm(w: nat) | Finish(w: nat) | Retry(w: nat) | Leave(w: nat)

  function Fresh<K(==,!new)>(): Pool<K> {
    Pool(Queue([], {}, {}, {}, false), [], 0, false, Syncing)
  }

  predicate Enabled<K(==,!new)>(n: nat, p: Pool<K>, a: Act<K>) {
    match a
    case AddNow(_) => true
    case AddDelayed(_) => true
    case Ready(k) => k in p.q.delayed
    case Stop => true
    case CachesSynced => p.main == Syncing
    case GiveUp => p.main == Syncing && p.stopped
    case Spawn => p.main == Spawning && |p.workers| < n
    case AllSpawned => p.main == Spawning && |p.workers| == n
    case ShutDown => p.main == Serving && p.stopped
    case Return => p.main == Draining && p.wg == 0
    case Enter(w) => w < |p.workers| && (p.workers[w].Starting? || p.workers[w].Left?)
    case Get(w) => w < |p.workers| && p.workers[w].Idle? && (p.q.queue != [] || p.q.shuttingDown)
    case Run(w, _) => w < |p.workers| && p.workers[w].Got?
    case Rearm(w) => w < |p.workers| && p.workers[w].Ran? && p.workers[w].outcome == Again
    case Finish(w) => w < |p.workers| && p.workers[w].Ran? && p.workers[w].outcome != Again
    case Retry(w) => w < |p.workers| && p.workers[w].Retrying?
    case Leave(w) => w < |p.workers| && p.workers[w].Leaving?
  }

  function Next<K(==,!new)>(n: nat, p: Pool<K>, a: Act<K>): Pool<K>
    requires Enabled(n, p, a)
  {
    match a
    case AddNow(k) => p.(q := p.q.Add(k))
    case AddDelayed(k) => p.(q := p.q.AddLater(k))
    case Ready(k) => p.(q := p.q.Ready(k))
    case Stop => p.(stopped := true)
    case CachesSynced => p.(main := Spawning)
    case GiveUp => p.(main := Aborted)
    case Spawn => p.(workers := p.workers + [Starting], wg := p.wg + 1)
    case AllSpawned => p.(main := Serving)
    case ShutDown => p.(main := Draining, q := p.q.(shuttingDown := true))
    case Return => p.(main := Returned)
    // wait.Until looks at the stop channel before every run of the loop.
    case Enter(w) =>
      p.(workers := p.workers[w := if !p.stopped then Idle else if p.workers[w].Starting? then Skipped else Exited])
    case Get(w) =>
      if p.q.queue == [] then p.(workers := p.workers[w := Leaving])
      else p.(workers := p.workers[w := Got(p.q.queue[0])], q := p.q.Take())
    case Run(w, outcome) => p.(workers := p.workers[w := Ran(p.workers[w].key, outcome)])
    case Rearm(w) =>
      p.(workers := p.workers[w := Ran(p.workers[w].key, Forget)], q := p.q.AddLater(p.workers[w].key))
    case Finish(w) =>
      p.(workers := p.workers[w := if p.workers[w].outcome == Fail then Retrying(p.workers[w].key) else Idle],
         q := p.q.Done(p.workers[w].key))
    case Retry(w) => p.(workers := p.workers[w := Idle], q := p.q.AddLater(p.workers[w].key))
    case Leave(w) => p.(workers := p.workers[w := Left], wg := p.wg - 1)
  }

  // ---- What every step keeps ----

  predicate Holds<K(==,!new)>(worker: Phase<K>, k: K) {
    (worker.Got? || worker.Ran?) && worker.key == k
  }

  predicate Active<K>(worker: Phase<K>) {
    !worker.Left? && !worker.Exited?
  }

  predicate Gone<K>(worker: Phase<K>) {
    worker.Leaving? || worker.Left? || worker.Exited?
  }

  /** There are workers, and nobody is stopping them. */
  predicate Live<K(==,!new)>(p: Pool<K>) {
    p.workers != [] && !p.stopped && !p.q.shuttingDown
  }

  predicate ByWorker<K>(a: Act<K>) {
    a.Enter? || a.Get? || a.Run? || a.Rearm? || a.Finish? || a.Retry? || a.Leave?
  }

  function ActiveCount<K>(workers: seq<Phase<K>>): nat {
    if workers == [] then 0 else
      ActiveCount(workers[..|workers| - 1]) + if Active(workers[|workers| - 1]) then 1 else 0
  }

  ghost predicate HeldAreProcessing<K(!new)>(p: Pool<K>) {
    forall w, k :: 0 <= w < |p.workers| && Holds(p.workers[w], k) ==> k in p.q.processing
  }

  ghost predicate ProcessingAreHeld<K(!new)>(p: Pool<K>) {
    forall k :: k in p.q.processing ==> exists w :: 0 <= w < |p.workers| && Holds(p.workers[w], k)
  }

  /** No two workers hold the same key. */
  ghost predicate OneHolder<K(!new)>(p: Pool<K>) {
    forall v, w, k :: 0 <= v < w < |p.workers| && Holds(p.workers[v], k) ==> !Holds(p.workers[w], k)
  }

  ghost predicate PhasesOk<K(!new)>(n: nat, p: Pool<K>) {
    && (p.q.shuttingDown <==> p.main == Draining || p.main == Returned)
    && (p.q.shuttingDown ==> p.stopped)
    && (p.main == Syncing || p.main == Aborted ==> p.workers == [])
    && |p.workers| <= n
    && (p.main == Serving || p.main == Draining || p.main == Returned ==> |p.workers| == n)
    && (p.main == Returned ==> p.wg == 0)
    && (forall w :: 0 <= w < |p.workers| && Gone(p.workers[w]) ==> p.q.shuttingDown)
    && (forall w :: 0 <= w < |p.workers| && p.workers[w].Skipped? ==> p.stopped)
  }

  /** Once the last worker has been told to leave, nothing is queued. */
  ghost predicate DrainedOk<K(!new)>(p: Pool<K>) {
    p.workers != [] && (forall w :: 0 <= w < |p.workers| ==> Gone(p.workers[w])) ==> p.q.queue == []
  }

  ghost predicate PoolOk<K(!new)>(n: nat, p: Pool<K>) {
    && p.q.Ok() && HeldAreProcessing(p) && ProcessingAreHeld(p) && OneHolder(p) && PhasesOk(n, p) && DrainedOk(p)
    && p.wg == ActiveCount(p.workers)
  }

  lemma {:induction false} CountUpdate<K>(workers: seq<Phase<K>>, w: nat, phase: Phase<K>)
    requires w < |workers|
    ensures ActiveCount(workers[w := phase]) + (if Active(workers[w]) then 1 else 0)
         == ActiveCount(workers) + (if Active(phase) then 1 else 0)
  {
    var n := |workers| - 1;
    if w < n {
      CountUpdate(workers[..n], w, phase);
      assert workers[w := phase][..n] == workers[..n][w := phase];
    } else {
      assert workers[w := phase][..n] == workers[..n];
    }
  }

  lemma {:induction false} CountZero<K>(workers: seq<Phase<K>>)
    ensures ActiveCount(workers) == 0 <==> forall w :: 0 <= w < |workers| ==> !Active(workers[w])
  {
    if workers != [] {
      var n := |workers| - 1;
      CountZero(workers[..n]);
      assert forall w :: 0 <= w < n ==> workers[..n][w] == workers[w];
    }
  }

  lemma QueueKept<K(!new)>(n: nat, p: Pool<K>, a: Act<K>)
    requires Enabled(n, p, a) && p.q.Ok() && HeldAreProcessing(p)
    ensures Next(n, p, a).q.Ok()
  {}

  lemma HeldKept<K(!new)>(n: nat, p: Pool<K>, a: Act<K>)
    requires Enabled(n, p, a) && HeldAreProcessing(p) && OneHolder(p)
    ensures HeldAreProcessing(Next(n, p, a))
  {
    assert ByWorker(a) ==> forall v :: 0 <= v < |p.workers| && v != a.w ==> Next(n, p, a).workers[v] == p.workers[v];
  }

  lemma OneHolderKept<K(!new)>(n: nat, p: Pool<K>, a: Act<K>)
    requires Enabled(n, p, a) && p.q.Ok() && HeldAreProcessing(p) && OneHolder(p)
    ensures OneHolder(Next(n, p, a))
  {
    if a.Get? && p.q.queue != [] {
      assert p.q.queue[0] !in p.q.processing;
    }
  }

  lemma ProcessingKept<K(!new)>(n: nat, p: Pool<K>, a: Act<K>)
    requires Enabled(n, p, a) && ProcessingAreHeld(p)
    ensures ProcessingAreHeld(Next(n, p, a))
  {
    var p' := Next(n, p, a);
    forall k | k in p'.q.processing ensures exists w :: 0 <= w < |p'.workers| && Holds(p'.workers[w], k) {
      if k in p.q.processing {
        var w :| 0 <= w < |p.workers| && Holds(p.workers[w], k);
        assert Holds(p'.workers[w], k);
      } else {
        assert Holds(p'.workers[a.w], k);
      }
    }
  }

  /** A worker's step replaces that worker's phase; only leaving makes it inactive. */
  lemma WorkerMoves<K(!new)>(n: nat, p: Pool<K>, a: Act<K>)
    requires Enabled(n, p, a) && ByWorker(a) && PhasesOk(n, p)
    ensures var p' := Next(n, p, a);
      && |p'.workers| == |p.workers| && p'.workers == p.workers[a.w := p'.workers[a.w]]
      && (if a.Leave? then Active(p.workers[a.w]) && !Active(p'.workers[a.w]) && p'.wg == p.wg - 1
          else Active(p.workers[a.w]) == Active(p'.workers[a.w]) && p'.wg == p.wg)
  {
    assert p.workers[a.w].Left? ==> Gone(p.workers[a.w]);
  }

  lemma CountKept<K(!new)>(n: nat, p: Pool<K>, a: Act<K>)
    requires Enabled(n, p, a) && PhasesOk(n, p) && p.wg == ActiveCount(p.workers)
    ensures Next(n, p, a).wg == ActiveCount(Next(n, p, a).workers)
  {
    if ByWorker(a) {
      WorkerMoves(n, p, a);
      CountUpdate(p.workers, a.w, Next(n, p, a).workers[a.w]);
    } else if a.Spawn? {
      assert (p.workers + [Starting])[..|p.workers|] == p.workers;
    }
  }

  lemma PhasesKept<K(!new)>(n: nat, p: Pool<K>, a: Act<K>)
    requires Enabled(n, p, a) && PhasesOk(n, p) && p.wg == ActiveCount(p.workers)
    ensures PhasesOk(n, Next(n, p, a))
  {
    if ByWorker(a) {
      WorkersKeepPhases(n, p, a);
    } else {
      CountZero(p.workers);
    }
  }

  lemma WorkersKeepPhases<K(!new)>(n: nat, p: Pool<K>, a: Act<K>)
    requires Enabled(n, p, a) && PhasesOk(n, p) && ByWorker(a) && p.wg == ActiveCount(p.workers)
    ensures PhasesOk(n, Next(n, p, a))
  {
    CountZero(p.workers);
    assert a.Leave? ==> Active(p.workers[a.w]) && Gone(p.workers[a.w]);
  }

  lemma DrainedKept<K(!new)>(n: nat, p: Pool<K>, a: Act<K>)
    requires Enabled(n, p, a) && PhasesOk(n, p) && DrainedOk(p)
    ensures DrainedOk(Next(n, p, a))
  {
    var p' := Next(n, p, a);
    if p'.workers != [] && forall w :: 0 <= w < |p'.workers| ==> Gone(p'.workers[w]) {
      if ByWorker(a) {
        assert Gone(p'.workers[a.w]);
        forall w | 0 <= w < |p.workers| && w != a.w ensures Gone(p.workers[w]) {
          assert p'.workers[w] == p.workers[w];
        }
      } else if a.Spawn? {
        assert p'.workers[|p.workers|] == Starting;
      } else {
        assert Gone(p.workers[0]);
      }
    }
  }

  lemma PoolKept<K(!new)>(n: nat, p: Pool<K>, a: Act<K>)
    requires Enabled(n, p, a) && PoolOk(n, p)
    ensures PoolOk(n, Next(n, p, a))
  {
    QueueKept(n, p, a);
    HeldKept(n, p, a);
    OneHolderKept(n, p, a);
    ProcessingKept(n, p, a);
    CountKept(n, p, a);
    PhasesKept(n, p, a);
    DrainedKept(n, p, a);
  }

  // ---- Runs ----

  predicate StepAt<K(==,!new)>(n: nat, ps: seq<Pool<K>>, acts: seq<Act<K>>, i: nat)
    requires |ps| == |acts| + 1 && i < |acts|
  {
    Enabled(n, ps[i], acts[i]) && ps[i + 1] == Next(n, ps[i], acts[i])
  }

  predicate IsRun<K(==,!new)>(n: nat, ps: seq<Pool<K>>, acts: seq<Act<K>>) {
    && |ps| == |acts| + 1 && ps[0] == Fresh()
    && forall i: nat :: i < |acts| ==> StepAt(n, ps, acts, i)
  }

  ghost predicate Reachable<K(!new)>(n: nat, p: Pool<K>) {
    exists ps, acts: seq<Act<K>> :: IsRun(n, ps, acts) && p == ps[|acts|]
  }

  lemma RunsKeepOk<K(!new)>(n: nat, ps: seq<Pool<K>>, acts: seq<Act<K>>)
    requires IsRun(n, ps, acts)
    ensures PoolOk(n, ps[|acts|])
  {
    var inv := (p: Pool<K>) => PoolOk(n, p);
    forall j: nat | j + 1 < |ps| ensures Carried(inv, ps, j) {
      assert StepAt(n, ps, acts, j);
      if inv(ps[j]) {
        PoolKept(n, ps[j], acts[j]);
      }
    }
    Invariantly(inv, ps, |acts|);
  }

  /** The wait group never goes negative, and a key is never with two workers. */
  lemma NeverNegative<K(!new)>(n: nat, p: Pool<K>)
    requires Reachable(n, p)
    ensures p.wg >= 0
    ensures OneHolder(p)
  {
    var ps, acts: seq<Act<K>> :| IsRun(n, ps, acts) && p == ps[|acts|];
    RunsKeepOk(n, ps, acts);
  }

  /** When `Start` has returned nil, every worker has left its loop and nothing is being
      processed; with at least one worker the queue has been drained. */
  lemma ReturnedIsDrained<K(!new)>(n: nat, p: Pool<K>)
    requires Reachable(n, p) && p.main == Returned
    ensures |p.workers| == n && forall w :: 0 <= w < n ==> p.workers[w].Left? || p.workers[w].Exited?
    ensures p.q.processing == {}
    ensures n > 0 ==> p.q.queue == [] && p.q.dirty == {}
  {
    var ps, acts: seq<Act<K>> :| IsRun(n, ps, acts) && p == ps[|acts|];
    RunsKeepOk(n, ps, acts);
    CountZero(p.workers);
    assert forall w :: 0 <= w < n ==> Gone(p.workers[w]);
    assert forall w, k :: 0 <= w < n ==> !Holds(p.workers[w], k);
    assert p.q.processing == {};
    if n > 0 {
      assert forall k :: k !in p.q.queue;
    }
  }

  lemma ReachFresh<K(!new)>(n: nat)
    ensures Reachable(n, Fresh<K>())
  {
    var none: seq<Act<K>> := [];
    assert IsRun(n, [Fresh<K>()], none);
  }

  lemma ReachNext<K(!new)>(n: nat, p: Pool<K>, a: Act<K>) returns (p': Pool<K>)
    requires Reachable(n, p) && Enabled(n, p, a)
    ensures p' == Next(n, p, a) && Reachable(n, p')
  {
    p' := Next(n, p, a);
    var ps, acts: seq<Act<K>> :| IsRun(n, ps, acts) && p == ps[|acts|];
    var ps', acts' := ps + [p'], acts + [a];
    forall i: nat | i < |acts'| ensures StepAt(n, ps', acts', i) {
      assert i < |acts| ==> StepAt(n, ps, acts, i);
      assert i < |acts| ==> ps'[i] == ps[i] && acts'[i] == acts[i] && ps'[i + 1] == ps[i + 1];
    }
    assert IsRun(n, ps', acts') && p' == ps'[|acts'|];
  }

  /** Without workers `Start` returns nil although an item is still queued. */
  lemma NoWorkersNoDrain<K(!new)>(k: K)
    ensures exists p: Pool<K> :: Reachable(0, p) && p.main == Returned && k in p.q.queue
  {
    ReachFresh<K>(0);
    var p := ReachNext(0, Fresh<K>(), CachesSynced);
    p := ReachNext(0, p, AllSpawned);
    p := ReachNext(0, p, AddNow(k));
    assert p.q.queue == [k];
    p := ReachNext(0, p, Stop);
    p := ReachNext(0, p, ShutDown);
    p := ReachNext(0, p, Return);
  }

  // ---- Sequences of steps ----

  predicate AllEnabled<K(==,!new)>(n: nat, p: Pool<K>, acts: seq<Act<K>>)
    decreases |acts|
  {
    acts == [] || (Enabled(n, p, acts[0]) && AllEnabled(n, Next(n, p, acts[0]), acts[1..]))
  }

  function After<K(==,!new)>(n: nat, p: Pool<K>, acts: seq<Act<K>>): Pool<K>
    requires AllEnabled(n, p, acts)
    decreases |acts|
  {
    if acts == [] then p else After(n, Next(n, p, acts[0]), acts[1..])
  }

  lemma OneStep<K(!new)>(n: nat, p: Pool<K>, a: Act<K>, rest: seq<Act<K>>)
    requires Enabled(n, p, a) && AllEnabled(n, Next(n, p, a), rest)
    ensures AllEnabled(n, p, [a] + rest) && After(n, p, [a] + rest) == After(n, Next(n, p, a), rest)
  {
    assert ([a] + rest)[1..] == rest;
  }

  // ---- Does Start return? ----

  /** Every worker has got past its first look at the stop channel. */
  ghost predicate AllEntered<K(!new)>(p: Pool<K>) {
    forall w :: 0 <= w < |p.workers| ==> !p.workers[w].Starting? && !p.workers[w].Skipped?
  }

  lemma LateWorkerBlocks<K(!new)>(n: nat, p: Pool<K>, a: Act<K>)
    requires PoolOk(n, p) && p.main == Draining && !AllEntered(p) && Enabled(n, p, a)
    ensures !AllEntered(Next(n, p, a)) && Next(n, p, a).main == Draining
  {
    var w :| 0 <= w < |p.workers| && (p.workers[w].Starting? || p.workers[w].Skipped?);
    CountZero(p.workers);
    assert Active(p.workers[w]);
    var late := Next(n, p, a).workers[w];
    assert late.Starting? || late.Skipped?;
  }

  lemma {:induction false} BlockedForever<K(!new)>(n: nat, p: Pool<K>, acts: seq<Act<K>>)
    requires PoolOk(n, p) && p.main == Draining && !AllEntered(p) && AllEnabled(n, p, acts)
    ensures After(n, p, acts).main == Draining
    decreases |acts|
  {
    if acts != [] {
      LateWorkerBlocks(n, p, acts[0]);
      PoolKept(n, p, acts[0]);
      BlockedForever(n, Next(n, p, acts[0]), acts[1..]);
    }
  }

  /** A worker that finds the stop channel closed before its first run leaves `wait.Until` without
      telling the wait group; this can happen with any number of workers. */
  lemma WorkersCanBeSkipped<K(!new)>(n: nat)
    requires n > 0
    ensures exists p: Pool<K>, w :: Reachable(n, p) && 0 <= w < |p.workers| && p.workers[w] == Skipped
  {
    ReachFresh<K>(n);
    var p := ReachNext(n, Fresh<K>(), CachesSynced);
    p := ReachNext(n, p, Spawn);
    p := ReachNext(n, p, Stop);
    p := ReachNext(n, p, Enter(0));
    assert p.workers[0] == Skipped;
  }

  function Weight<K>(worker: Phase<K>): nat {
    match worker
    case Got(_) => 6
    case Ran(_, outcome) => if outcome == Again then 5 else 4
    case Retrying(_) => 3
    case Idle => 2
    case Leaving => 1
    case _ => 0
  }

  lemma SubsetSize<T>(a: set<T>, b: set<T>)
    requires a <= b
    ensures |a| <= |b|
  {
    assert b == a + (b - a);
  }

  lemma StrictSubsetSize<T>(a: set<T>, b: set<T>)
    requires a < b
    ensures |a| < |b|
  {
    assert b == a + (b - a);
  }

  lemma RemoveSize<T>(a: set<T>, x: T)
    requires x in a
    ensures |a - {x}| == |a| - 1
  {}

  lemma InsertSize<T>(a: set<T>, x: T)
    ensures |a + {x}| <= |a| + 1
  {
    if x in a {
      assert a + {x} == a;
    }
  }

  /** The sum of a weight over all workers. */
  function Total<K>(weight: Phase<K> -> nat, workers: seq<Phase<K>>): nat {
    if workers == [] then 0 else Total(weight, workers[..|workers| - 1]) + weight(workers[|workers| - 1])
  }

  /** How many workers `Start` may still spawn. */
  function Unspawned<K(==,!new)>(n: nat, p: Pool<K>): nat {
    if |p.workers| < n then n - |p.workers| else 0
  }

  lemma TotalAppend<K>(weight: Phase<K> -> nat, workers: seq<Phase<K>>, phase: Phase<K>)
    ensures Total(weight, workers + [phase]) == Total(weight, workers) + weight(phase)
  {
    assert (workers + [phase])[..|workers|] == workers;
  }

  lemma {:induction false} TotalBounds<K>(weight: Phase<K> -> nat, workers: seq<Phase<K>>, w: nat)
    requires w < |workers|
    ensures weight(workers[w]) <= Total(weight, workers)
  {
    if w < |workers| - 1 {
      TotalBounds(weight, workers[..|workers| - 1], w);
    }
  }

  lemma {:induction false} TotalUpdate<K>(weight: Phase<K> -> nat, workers: seq<Phase<K>>, w: nat, phase: Phase<K>)
    requires w < |workers|
    ensures Total(weight, workers[w := phase]) + weight(workers[w]) == Total(weight, workers) + weight(phase)
  {
    var n := |workers| - 1;
    if w < n {
      TotalUpdate(weight, workers[..n], w, phase);
      assert workers[w := phase][..n] == workers[..n][w := phase];
    } else {
      assert workers[w := phase][..n] == workers[..n];
    }
  }

  /** Work left in a queue that is shutting down. */
  function Remaining<K(==,!new)>(p: Pool<K>): nat {
    5 * |p.q.dirty| + Total(Weight, p.workers)
  }

  /** Once it is shutting down the queue takes in nothing: what is dirty or delayed was so before, and
      nothing stops the shutdown. */
  lemma ShutdownTakesNothing<K(!new)>(n: nat, p: Pool<K>, a: Act<K>)
    requires Enabled(n, p, a) && p.q.shuttingDown
    ensures var q := Next(n, p, a).q;
      q.shuttingDown && q.dirty <= p.q.dirty && q.delayed <= p.q.delayed
    ensures !ByWorker(a) ==> Next(n, p, a).q.queue == p.q.queue
  {}

  /** If all workers have entered their loops, shutting down terminates: a worker can take a step
      until `Start` may return, and every step of a worker leaves less to do. */
  lemma ShutdownProgress<K(!new)>(n: nat, p: Pool<K>) returns (a: Act<K>)
    requires PoolOk(n, p) && p.main == Draining && AllEntered(p)
    ensures Enabled(n, p, a)
    ensures p.wg == 0 ==> a == Return
    ensures p.wg > 0 ==> ByWorker(a) && !a.Enter?
  {
    if p.wg == 0 {
      a := Return;
    } else {
      CountZero(p.workers);
      var w :| 0 <= w < |p.workers| && Active(p.workers[w]);
      match p.workers[w]
      case Idle => a := Get(w);
      case Got(_) => a := Run(w, Forget);
      case Ran(_, outcome) => a := if outcome == Again then Rearm(w) else Finish(w);
      case Retrying(_) => a := Retry(w);
      case Leaving => a := Leave(w);
    }
  }

  lemma TakingLeavesLess<K(!new)>(n: nat, p: Pool<K>, w: nat)
    requires p.q.Ok() && Enabled(n, p, Get(w)) && p.q.queue != []
    ensures Remaining(Next(n, p, Get(w))) < Remaining(p)
  {
    var k := p.q.queue[0];
    assert k in p.q.queue;
    assert |p.q.dirty - {k}| == |p.q.dirty| - 1;
    TotalUpdate(Weight, p.workers, w, Got(k));
  }

  lemma WorkersLeaveLess<K(!new)>(n: nat, p: Pool<K>, a: Act<K>)
    requires PoolOk(n, p) && p.main == Draining && AllEntered(p) && Enabled(n, p, a) && ByWorker(a)
    ensures Remaining(Next(n, p, a)) <= Remaining(p)
    ensures !a.Enter? ==> Remaining(Next(n, p, a)) < Remaining(p)
  {
    if a.Get? && p.q.queue != [] {
      TakingLeavesLess(n, p, a.w);
    } else {
      WorkerMoves(n, p, a);
      TotalUpdate(Weight, p.workers, a.w, Next(n, p, a).workers[a.w]);
    }
  }

  lemma ShutdownTerminates<K(!new)>(n: nat, p: Pool<K>, a: Act<K>)
    requires PoolOk(n, p) && p.main == Draining && AllEntered(p) && Enabled(n, p, a)
    ensures AllEntered(Next(n, p, a)) && Remaining(Next(n, p, a)) <= Remaining(p)
    ensures ByWorker(a) && !a.Enter? ==> Remaining(Next(n, p, a)) < Remaining(p)
  {
    if ByWorker(a) {
      WorkersLeaveLess(n, p, a);
    }
  }

  lemma {:induction false} CanDrain<K(!new)>(n: nat, p: Pool<K>) returns (acts: seq<Act<K>>)
    requires PoolOk(n, p) && p.main == Draining && AllEntered(p)
    ensures AllEnabled(n, p, acts) && After(n, p, acts).main == Returned
    decreases Remaining(p)
  {
    var a := ShutdownProgress(n, p);
    var rest: seq<Act<K>> := [];
    if p.wg > 0 {
      ShutdownTerminates(n, p, a);
      PoolKept(n, p, a);
      rest := CanDrain(n, Next(n, p, a));
    }
    OneStep(n, p, a, rest);
    acts := [a] + rest;
  }

  /** Once the queue is shut down, `Start` can still return exactly when every worker had entered
      its loop before it saw the stop channel closed. */
  lemma StartReturnsIff<K(!new)>(n: nat, p: Pool<K>)
    requires PoolOk(n, p) && p.main == Draining
    ensures (exists acts :: AllEnabled(n, p, acts) && After(n, p, acts).main == Returned) <==> AllEntered(p)
  {
    if AllEntered(p) {
      var acts := CanDrain(n, p);
    } else {
      forall acts | AllEnabled(n, p, acts) ensures After(n, p, acts).main != Returned {
        BlockedForever(n, p, acts);
      }
    }
  }

  // ---- No key is forgotten ----

  predicate Carries<K(==,!new)>(worker: Phase<K>, k: K) {
    || worker == Got(k) || worker == Retrying(k)
    || worker == Ran(k, Again) || worker == Ran(k, Fail)
  }

  /** Queued, delayed, being processed and not yet synchronised, or held by a worker that will re-add it. */
  ghost predicate Pending<K(!new)>(p: Pool<K>, k: K) {
    || k in p.q.dirty || k in p.q.delayed
    || exists w :: 0 <= w < |p.workers| && Carries(p.workers[w], k)
  }

  /** Until shutdown, only a run that forgets a key takes it away. */
  lemma PendingKept<K(!new)>(n: nat, p: Pool<K>, a: Act<K>, k: K)
    requires Enabled(n, p, a) && Pending(p, k) && !Next(n, p, a).q.shuttingDown
    requires a.Run? && p.workers[a.w] == Got(k) ==> a.outcome != Forget
    ensures Pending(Next(n, p, a), k)
  {
    var p' := Next(n, p, a);
    if k !in p'.q.dirty && k !in p'.q.delayed {
      if k in p.q.dirty {
        assert Carries(p'.workers[a.w], k);
      } else {
        var w :| 0 <= w < |p.workers| && Carries(p.workers[w], k);
        assert Carries(p'.workers[w], k);
      }
    }
  }

  /** A key that is being processed stays dirty or delayed. */
  lemma WaitingKept<K(!new)>(n: nat, p: Pool<K>, a: Act<K>, k: K)
    requires p.q.Ok() && Enabled(n, p, a) && !Next(n, p, a).q.shuttingDown
    requires k in p.q.processing && (k in p.q.dirty || k in p.q.delayed)
    ensures k in Next(n, p, a).q.dirty || k in Next(n, p, a).q.delayed
  {
    assert k !in p.q.queue;
  }

  lemma LiveKept<K(!new)>(n: nat, p: Pool<K>, a: Act<K>)
    requires Enabled(n, p, a) && Live(p) && !a.Stop? && !a.ShutDown?
    ensures Live(Next(n, p, a))
  {}

  /** Only its own run takes a key from the worker that has got it. */
  lemma GotKept<K(!new)>(n: nat, p: Pool<K>, a: Act<K>, w: nat)
    requires Enabled(n, p, a) && w < |p.workers| && p.workers[w].Got? && !(a.Run? && a.w == w)
    ensures w < |Next(n, p, a).workers| && Next(n, p, a).workers[w] == p.workers[w]
  {}

  lemma ShutdownIsFinal<K(!new)>(n: nat, p: Pool<K>, a: Act<K>)
    requires Enabled(n, p, a) && !Next(n, p, a).q.shuttingDown
    ensures !p.q.shuttingDown
  {}

  lemma AddMakesPending<K(!new)>(p: Pool<K>, k: K)
    requires !p.q.shuttingDown
    ensures Pending(p.(q := p.q.Add(k)), k) && Pending(p.(q := p.q.AddLater(k)), k)
  {}

  /** A key is worked on again: what is dirty is queued, or will be as soon as it is done. */
  lemma DirtyIsServed<K(!new)>(n: nat, p: Pool<K>, k: K)
    requires PoolOk(n, p) && k in p.q.dirty
    ensures k in p.q.queue || exists w :: 0 <= w < |p.workers| && Holds(p.workers[w], k)
  {}

  // ---- One iteration of the loop, as code ----

  function Settled<K(==,!new)>(q: Queue<K>, k: K, outcome: Outcome): Queue<K> {
    match outcome
    case Forget => q.Done(k)
    case Again => q.AddLater(k).Done(k)
    case Fail => q.Done(k).AddLater(k)
  }

  /** What one undisturbed iteration does to a queue that is not empty. */
  function Processed<K(==,!new)>(q: Queue<K>, outcome: Outcome): Queue<K>
    requires q.queue != []
  {
    Settled(q.Take(), q.queue[0], outcome)
  }

  class Controller<K(==,!new)> {
    var queue: seq<K>
    var dirty: set<K>
    var processing: set<K>
    var delayed: set<K>
    var shuttingDown: bool

    function Contents(): Queue<K>
      reads this
    {
      Queue(queue, dirty, processing, delayed, shuttingDown)
    }

    constructor ()
      ensures Contents() == Fresh<K>().q
    {
      queue, dirty, processing, delayed, shuttingDown := [], {}, {}, {}, false;
    }

    method Add(k: K)
      modifies this
      ensures Contents() == old(Contents()).Add(k)
    {
      if shuttingDown || k in dirty {
        return;
      }
      dirty := dirty + {k};
      if k !in processing {
        queue := queue + [k];
      }
    }

    method AddAfter(k: K)
      modifies this
      ensures Contents() == old(Contents()).AddLater(k)
    {
      if !shuttingDown {
        delayed := delayed + {k};
      }
    }

    /** Blocks while there is neither an item nor a shutdown. */
    method Get() returns (item: Option<K>)
      requires queue != [] || shuttingDown
      modifies this
      ensures old(queue) == [] ==> item == None && Contents() == old(Contents())
      ensures old(queue) != [] ==> item == Some(old(queue[0])) && Contents() == old(Contents()).Take()
    {
      if queue == [] {
        return None;
      }
      item := Some(queue[0]);
      processing := processing + {queue[0]};
      dirty := dirty - {queue[0]};
      queue := queue[1..];
    }

    method Done(k: K)
      modifies this
      ensures Contents() == old(Contents()).Done(k)
    {
      processing := processing - {k};
      if k in dirty {
        queue := queue + [k];
      }
    }

    /** `processNextWorkItem` of the common controller; `failed` is whether `Sync` returns an error. */
    method ProcessNextWorkItem(failed: bool) returns (more: bool)
      requires queue != [] || shuttingDown
      modifies this
      ensures more == (old(queue) != [])
      ensures Contents() ==
        if more then Processed(old(Contents()), if failed then Fail else Forget) else old(Contents())
    {
      var item := Get();
      if item.None? {
        return false;
      }
      Done(item.value);
      if failed {
        AddAfter(item.value);
      }
      return true;
    }

    /** `processNextWorkItem` of the cleaner; the arguments are the results of `syncHandler`. */
    method ProcessNextCleanUp(requeue: bool, failed: bool) returns (more: bool)
      requires queue != [] || shuttingDown
      modifies this
      ensures more == (old(queue) != [])
      ensures Contents() == if more then Processed(old(Contents()), OutcomeOf(failed, requeue)) else old(Contents())
    {
      var item := Get();
      if item.None? {
        return false;
      }
      if !failed && requeue {
        AddAfter(item.value);
      }
      Done(item.value);
      if failed {
        AddAfter(item.value);
      }
      return true;
    }
  }

  /** The steps of one iteration by worker `w`: take a key, run the handler, and settle the key. */
  function Iteration<K>(w: nat, outcome: Outcome): seq<Act<K>> {
    [Get(w)] + ([Run(w, outcome)] + Settle(w, outcome))
  }

  function Settle<K>(w: nat, outcome: Outcome): seq<Act<K>> {
    match outcome
    case Forget => [Finish(w)] + []
    case Again => [Rearm(w)] + ([Finish(w)] + [])
    case Fail => [Finish(w)] + ([Retry(w)] + [])
  }

  lemma SettleSteps<K(!new)>(n: nat, p: Pool<K>, w: nat, k: K, outcome: Outcome)
    requires w < |p.workers| && p.workers[w] == Ran(k, outcome)
    ensures AllEnabled(n, p, Settle(w, outcome))
    ensures After(n, p, Settle(w, outcome)) == p.(q := Settled(p.q, k, outcome), workers := p.workers[w := Idle])
  {
    match outcome
    case Forget =>
      OneStep(n, p, Finish(w), []);
    case Again =>
      var p1 := Next(n, p, Rearm(w));
      OneStep(n, p1, Finish(w), []);
      OneStep(n, p, Rearm(w), [Finish(w)] + []);
      assert Next(n, p1, Finish(w)).workers == p.workers[w := Idle];
    case Fail =>
      var p1 := Next(n, p, Finish(w));
      OneStep(n, p1, Retry(w), []);
      OneStep(n, p, Finish(w), [Retry(w)] + []);
      assert Next(n, p1, Retry(w)).workers == p.workers[w := Idle];
  }

  /** The code of one iteration is the worker's steps of the machine, taken without interruption. */
  lemma IterationIsProcessed<K(!new)>(n: nat, p: Pool<K>, w: nat, outcome: Outcome)
    requires w < |p.workers| && p.workers[w].Idle? && p.q.queue != []
    ensures AllEnabled(n, p, Iteration(w, outcome))
    ensures After(n, p, Iteration(w, outcome)) == p.(q := Processed(p.q, outcome))
  {
    var k := p.q.queue[0];
    var p1 := Next(n, p, Get(w));
    var p2 := Next(n, p1, Run(w, outcome));
    assert p2.workers == p.workers[w := Ran(k, outcome)];
    SettleSteps(n, p2, w, k, outcome);
    OneStep(n, p1, Run(w, outcome), Settle(w, outcome));
    OneStep(n, p, Get(w), [Run(w, outcome)] + Settle(w, outcome));
    assert p2.workers[w := Idle] == p.workers;
  }
}
