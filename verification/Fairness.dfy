/** No key waits for ever: whatever else the workers are given to do, every key of the pool gets
    nearer to its turn. */
module Fairness {
  import opened WorkQueue
  import opened Runs

  // ---- The queue is first in, first out ----

  /** The first place of `k` in the queue. */
  function Position<K(==)>(queue: seq<K>, k: K): (i: nat)
    requires k in queue
    ensures i < |queue| && queue[i] == k
  {
    if queue[0] == k then 0 else 1 + Position(queue[1..], k)
  }

  lemma {:induction false} PositionOfFront<K>(queue: seq<K>, k: K, x: K)
    requires k in queue
    ensures Position(queue + [x], k) == Position(queue, k)
  {
    if queue[0] != k {
      PositionOfFront(queue[1..], k, x);
      assert (queue + [x])[1..] == queue[1..] + [x];
    }
  }

  /** A queued key never moves back. It moves up whenever another key is taken, until a worker gets it. */
  lemma QueuedMovesUp<K(!new)>(n: nat, p: Pool<K>, a: Act<K>, k: K)
    requires Enabled(n, p, a) && k in p.q.queue
    ensures var p' := Next(n, p, a);
      if !a.Get? then k in p'.q.queue && Position(p'.q.queue, k) == Position(p.q.queue, k)
      else if p.q.queue[0] == k then p'.workers[a.w] == Got(k)
      else k in p'.q.queue && Position(p'.q.queue, k) == Position(p.q.queue, k) - 1
  {
    var p' := Next(n, p, a);
    if !a.Get? && p'.q.queue != p.q.queue {
      var x := p'.q.queue[|p.q.queue|];
      assert p'.q.queue == p.q.queue + [x];
      PositionOfFront(p.q.queue, k, x);
    }
  }

  lemma {:induction false} DistinctFits<K>(queue: seq<K>, all: set<K>)
    requires forall i, j :: 0 <= i < j < |queue| ==> queue[i] != queue[j]
    requires forall k :: k in queue ==> k in all
    ensures |queue| <= |all|
  {
    if queue != [] {
      var last, front := queue[|queue| - 1], queue[..|queue| - 1];
      DistinctFits(front, all - {last});
    }
  }

  // ---- The keys of a pool ----

  function RetriedKeys<K(==)>(workers: seq<Phase<K>>): set<K> {
    set w | 0 <= w < |workers| && workers[w].Retrying? :: workers[w].key
  }

  /** Every key that is queued, delayed or in hand. */
  function Keys<K(==,!new)>(p: Pool<K>): set<K> {
    p.q.dirty + p.q.delayed + p.q.processing + RetriedKeys(p.workers)
  }

  /** Only an addition brings a new key. */
  lemma KeysKept<K(!new)>(n: nat, p: Pool<K>, a: Act<K>)
    requires Enabled(n, p, a) && HeldAreProcessing(p) && p.q.Ok()
    ensures Keys(Next(n, p, a)) <= Keys(p) + if a.AddNow? || a.AddDelayed? then {a.key} else {}
  {
    var p' := Next(n, p, a);
    forall k | k in RetriedKeys(p'.workers) ensures k in p.q.processing + RetriedKeys(p.workers) {
      var w :| 0 <= w < |p'.workers| && p'.workers[w] == Retrying(k);
      assert p.workers[w] == Retrying(k) || Holds(p.workers[w], k);
    }
    if a.Retry? {
      assert p.workers[a.w] == Retrying(p.workers[a.w].key);
      assert p.workers[a.w].key in RetriedKeys(p.workers);
    } else if a.Rearm? {
      assert Holds(p.workers[a.w], p.workers[a.w].key);
    } else if a.Get? && p.q.queue != [] {
      assert p.q.queue[0] in p.q.queue;
    }
  }

  lemma QueueFits<K(!new)>(p: Pool<K>)
    requires p.q.Ok()
    ensures |p.q.queue| <= |Keys(p)|
  {
    DistinctFits(p.q.queue, Keys(p));
  }

  // ---- How far a key is from its turn ----

  ghost predicate InHand<K(!new)>(p: Pool<K>, k: K) {
    exists w :: 0 <= w < |p.workers| && p.workers[w] == Got(k)
  }

  /** What a worker has to do before it takes the next key. */
  function Load<K>(worker: Phase<K>): nat {
    match worker
    case Starting => 1
    case Got(_) => 5
    case Ran(_, outcome) => if outcome == Forget then 1 else 3
    case Retrying(_) => 2
    case _ => 0
  }

  /** What a worker has to do before it lets go of `k`. */
  function LoadOf<K(==)>(worker: Phase<K>, k: K): nat {
    match worker
    case Ran(key, outcome) => if key != k then 0 else if outcome == Forget then 1 else 3
    case Retrying(key) => if key == k then 2 else 0
    case _ => 0
  }

  ghost function LoadsOf<K(!new)>(k: K): Phase<K> -> nat {
    worker => LoadOf(worker, k)
  }

  ghost function Tokens<K(!new)>(p: Pool<K>, k: K): nat {
    (if k in p.q.delayed then 1 else 0) + Total(LoadsOf(k), p.workers)
  }

  /** Steps to go until a worker runs `k`, with at most `known` keys around and `halves` of those in hand
      still to be decided on, which is a step of its own. */
  ghost function Rank<K(!new)>(n: nat, p: Pool<K>, k: K, known: nat, halves: nat): nat {
    if InHand(p, k) then 1
    else if k in p.q.queue then
      7 * (1 + Position(p.q.queue, k)) + Total(Load, p.workers) + Unspawned(n, p) + halves
    else 1 + 8 * known + 5 * n + Tokens(p, k)
  }

  /** One more key is in hand, or one less has been decided on. */
  predicate MayAddHalf<K>(a: Act<K>) {
    a.Get? || a.Run?
  }

  /** The steps that bring `k` nearer to its turn: its own, and while it is queued those of all workers. */
  ghost predicate Helps<K(!new)>(p: Pool<K>, a: Act<K>, k: K) {
    if InHand(p, k) then a.Run? && a.w < |p.workers| && p.workers[a.w] == Got(k)
    else if k in p.q.queue then ByWorker(a)
    else a == Ready(k) || (ByWorker(a) && a.w < |p.workers| && LoadOf(p.workers[a.w], k) > 0)
  }

  lemma {:induction false} TotalAtMost<K>(weight: Phase<K> -> nat, workers: seq<Phase<K>>, bound: nat)
    requires forall worker :: weight(worker) <= bound
    ensures Total(weight, workers) <= bound * |workers|
  {
    if workers != [] {
      TotalAtMost(weight, workers[..|workers| - 1], bound);
    }
  }

  /** A pending key that nobody has got and that is neither queued nor delayed is with a worker. */
  lemma Holder<K(!new)>(n: nat, p: Pool<K>, k: K) returns (w: nat)
    requires PoolOk(n, p) && Pending(p, k) && !InHand(p, k) && k !in p.q.queue && k !in p.q.delayed
    ensures w < |p.workers| && LoadOf(p.workers[w], k) > 0
  {
    if k in p.q.dirty {
      assert k in p.q.processing;
      w :| 0 <= w < |p.workers| && Holds(p.workers[w], k);
    } else {
      w :| 0 <= w < |p.workers| && Carries(p.workers[w], k);
    }
  }

  /** A queued key is nearer than any other. */
  lemma QueuedIsNearer<K(!new)>(n: nat, p: Pool<K>, k: K, known: nat, halves: nat)
    requires PoolOk(n, p) && k in p.q.queue && !InHand(p, k) && |p.q.queue| <= known && halves <= known
    ensures Rank(n, p, k, known, halves) <= 8 * known + 5 * n
  {
    TotalAtMost(Load, p.workers, 5);
  }

  lemma RankBounded<K(!new)>(n: nat, p: Pool<K>, k: K, known: nat, halves: nat)
    requires PoolOk(n, p) && |p.q.queue| <= known && halves <= known
    ensures Rank(n, p, k, known, halves) <= 8 * known + 8 * n + 2
  {
    TotalAtMost(LoadsOf(k), p.workers, 3);
    if k in p.q.queue && !InHand(p, k) {
      QueuedIsNearer(n, p, k, known, halves);
    }
  }

  lemma LoadMoves<K(!new)>(n: nat, p: Pool<K>, a: Act<K>)
    requires PhasesOk(n, p) && Live(p) && Enabled(n, p, a) && !a.Stop? && !a.ShutDown?
    ensures var p' := Next(n, p, a);
      Total(Load, p'.workers) + Unspawned(n, p') + (if a.Run? then 2 else if ByWorker(a) && !a.Get? then 1 else 0)
        <= Total(Load, p.workers) + Unspawned(n, p) + if a.Get? then 5 else 0
  {
    var p' := Next(n, p, a);
    if ByWorker(a) {
      assert !Gone(p.workers[a.w]);
      WorkerMoves(n, p, a);
      TotalUpdate(Load, p.workers, a.w, p'.workers[a.w]);
    } else if a.Spawn? {
      TotalAppend(Load, p.workers, Starting);
    }
  }

  /** Taking a key brings all queued ones nearer, the one that is taken by more than a step. */
  lemma TakingComesNearer<K(!new)>(n: nat, p: Pool<K>, w: nat, k: K, known: nat, halves: nat, halves': nat)
    requires PoolOk(n, p) && Live(p) && Enabled(n, p, Get(w)) && k in p.q.queue && !InHand(p, k)
    requires halves' <= halves + 1
    ensures var p' := Next(n, p, Get(w));
      Rank(n, p', k, known, halves') + (if InHand(p', k) then 1 else 0) < Rank(n, p, k, known, halves)
  {
    var p' := Next(n, p, Get(w));
    QueuedMovesUp(n, p, Get(w), k);
    LoadMoves(n, p, Get(w));
    if p.q.queue[0] == k {
      assert InHand(p', k);
    } else {
      assert forall v :: 0 <= v < |p'.workers| && p'.workers[v] == Got(k) ==> v == w;
    }
  }

  lemma NobodyTakes<K(!new)>(n: nat, p: Pool<K>, a: Act<K>, k: K)
    requires Enabled(n, p, a) && !a.Get? && !InHand(p, k)
    ensures !InHand(Next(n, p, a), k)
  {
    var p' := Next(n, p, a);
    assert forall w :: 0 <= w < |p'.workers| && p'.workers[w].Got? ==> w < |p.workers| && p'.workers[w] == p.workers[w];
  }

  /** `p'` is no further from a run of `k` than `p`, and nearer after a step that helps; having just got
      `k` leaves a step to spare. */
  ghost predicate Nearer<K(!new)>(
    n: nat, p: Pool<K>, p': Pool<K>, k: K, known: nat, halves: nat, halves': nat, helped: bool)
  {
    Rank(n, p', k, known, halves') + (if InHand(p', k) && !InHand(p, k) then 1 else 0) + (if helped then 1 else 0)
      <= Rank(n, p, k, known, halves)
  }

  lemma QueuedComesNearer<K(!new)>(
    n: nat, p: Pool<K>, a: Act<K>, k: K, known: nat, halves: nat, halves': nat)
    requires PoolOk(n, p) && Live(p) && Enabled(n, p, a) && !a.Stop? && !a.ShutDown?
    requires k in p.q.queue && !InHand(p, k) && halves' <= halves + if MayAddHalf(a) then 1 else 0
    ensures Nearer(n, p, Next(n, p, a), k, known, halves, halves', Helps(p, a, k))
  {
    if a.Get? {
      TakingComesNearer(n, p, a.w, k, known, halves, halves');
    } else {
      QueuedMovesUp(n, p, a, k);
      LoadMoves(n, p, a);
      NobodyTakes(n, p, a, k);
    }
  }

  /** Whether a worker's step puts its key back on the queue. */
  predicate PutsBack<K(==,!new)>(p: Pool<K>, a: Act<K>, k: K) {
    (a.Rearm? || a.Retry?) && a.w < |p.workers| && LoadOf(p.workers[a.w], k) > 0
  }

  lemma LoadOfMoves<K(!new)>(n: nat, p: Pool<K>, a: Act<K>, k: K)
    requires Enabled(n, p, a) && ByWorker(a) && (a.Get? ==> k !in p.q.queue) && p.workers[a.w] != Got(k)
    ensures LoadOf(Next(n, p, a).workers[a.w], k)
              + (if PutsBack(p, a, k) then 1 else 0) + (if LoadOf(p.workers[a.w], k) > 0 then 1 else 0)
         <= LoadOf(p.workers[a.w], k)
  {}

  lemma DelayedMoves<K(!new)>(n: nat, p: Pool<K>, a: Act<K>, k: K)
    requires Enabled(n, p, a) && a != AddDelayed(k) && !p.q.shuttingDown
    ensures k in Next(n, p, a).q.delayed ==> a != Ready(k) && (k in p.q.delayed || PutsBack(p, a, k))
  {}

  lemma WorkerLoads<K(!new)>(n: nat, p: Pool<K>, a: Act<K>, k: K)
    requires PhasesOk(n, p) && Enabled(n, p, a) && ByWorker(a)
    ensures Total(LoadsOf(k), Next(n, p, a).workers) + LoadOf(p.workers[a.w], k)
         == Total(LoadsOf(k), p.workers) + LoadOf(Next(n, p, a).workers[a.w], k)
  {
    WorkerMoves(n, p, a);
    TotalUpdate(LoadsOf(k), p.workers, a.w, Next(n, p, a).workers[a.w]);
  }

  lemma WorkersRest<K(!new)>(n: nat, p: Pool<K>, a: Act<K>, k: K)
    requires Enabled(n, p, a) && !ByWorker(a)
    ensures Total(LoadsOf(k), Next(n, p, a).workers) == Total(LoadsOf(k), p.workers)
  {
    if a.Spawn? {
      TotalAppend(LoadsOf(k), p.workers, Starting);
    }
  }

  lemma WorkerHelps<K(!new)>(n: nat, p: Pool<K>, a: Act<K>, k: K)
    requires PhasesOk(n, p) && Enabled(n, p, a) && ByWorker(a) && k !in p.q.queue && !InHand(p, k)
    ensures Total(LoadsOf(k), Next(n, p, a).workers)
              + (if PutsBack(p, a, k) then 1 else 0) + (if Helps(p, a, k) then 1 else 0)
         <= Total(LoadsOf(k), p.workers)
  {
    assert p.workers[a.w] != Got(k);
    LoadOfMoves(n, p, a, k);
    WorkerLoads(n, p, a, k);
  }

  /** A key in nobody's hands and not queued: only its own steps concern it. */
  lemma TokensMove<K(!new)>(n: nat, p: Pool<K>, a: Act<K>, k: K)
    requires PhasesOk(n, p) && Enabled(n, p, a) && a != AddDelayed(k) && !p.q.shuttingDown
    requires k !in p.q.queue && !InHand(p, k)
    ensures Tokens(Next(n, p, a), k) + (if Helps(p, a, k) then 1 else 0) <= Tokens(p, k)
  {
    DelayedMoves(n, p, a, k);
    if ByWorker(a) {
      WorkerHelps(n, p, a, k);
    } else {
      WorkersRest(n, p, a, k);
    }
  }

  lemma WaitingComesNearer<K(!new)>(
    n: nat, p: Pool<K>, a: Act<K>, k: K, known: nat, halves: nat, halves': nat)
    requires PoolOk(n, p) && Live(p) && Enabled(n, p, a) && !a.Stop? && !a.ShutDown? && a != AddDelayed(k)
    requires k !in p.q.queue && !InHand(p, k) && |Next(n, p, a).q.queue| <= known && halves' <= known
    ensures Nearer(n, p, Next(n, p, a), k, known, halves, halves', Helps(p, a, k))
  {
    var p' := Next(n, p, a);
    TokensMove(n, p, a, k);
    PoolKept(n, p, a);
    assert !InHand(p', k) by {
      assert forall w :: 0 <= w < |p'.workers| && p'.workers[w] == Got(k) ==> a.Get? && w == a.w;
    }
    if k in p'.q.queue {
      QueuedIsNearer(n, p', k, known, halves');
    }
  }

  /** Until it has been run, no step takes a key away from its turn, and every step that helps it
      brings it nearer; other keys cannot push it back. */
  lemma ComesNearer<K(!new)>(n: nat, p: Pool<K>, a: Act<K>, k: K, known: nat, halves: nat, halves': nat)
    requires PoolOk(n, p) && Live(p) && Enabled(n, p, a) && !a.Stop? && !a.ShutDown? && a != AddDelayed(k)
    requires !(a.Run? && p.workers[a.w] == Got(k)) && |Next(n, p, a).q.queue| <= known
    requires halves' <= known && halves' <= halves + if MayAddHalf(a) then 1 else 0
    ensures Nearer(n, p, Next(n, p, a), k, known, halves, halves', Helps(p, a, k))
  {
    if InHand(p, k) {
      var w :| 0 <= w < |p.workers| && p.workers[w] == Got(k);
      GotKept(n, p, a, w);
      assert InHand(Next(n, p, a), k);
      assert !Helps(p, a, k) by {
        assert a.Run? ==> p.workers[a.w] != Got(k);
      }
    } else if k in p.q.queue {
      QueuedComesNearer(n, p, a, k, known, halves, halves');
    } else {
      WaitingComesNearer(n, p, a, k, known, halves, halves');
    }
  }

  // ---- Fair schedules ----

  /** A step of a process that is done for good or has work left: it makes no work, and an act does some. */
  predicate Works(done: seq<bool>, work: seq<nat>, acts: seq<bool>, i: nat)
    requires |done| == |work| == |acts| + 1 && i < |acts|
  {
    && (done[i] ==> done[i + 1])
    && (done[i + 1] || (work[i + 1] <= work[i] && (acts[i] ==> work[i + 1] < work[i])))
  }

  lemma FallingWorks(done: seq<bool>, work: seq<nat>, acts: seq<bool>, i: nat)
    requires |done| == |work| == |acts| + 1 && i < |acts|
    requires FallsAt(work, acts, i) && (done[i] ==> done[i + 1])
    ensures Works(done, work, acts, i)
  {}

  ghost predicate Process(done: seq<bool>, work: seq<nat>, acts: seq<bool>) {
    && |done| == |work| == |acts| + 1
    && (forall i :: 0 <= i < |acts| ==> Works(done, work, acts, i))
    && (forall i :: 0 <= i < |work| && work[i] == 0 ==> done[i])
  }

  lemma {:induction false} DoneStays(done: seq<bool>, work: seq<nat>, acts: seq<bool>, i: nat, j: nat)
    requires Process(done, work, acts) && i <= j <= |acts|
    ensures done[i] ==> done[j]
    ensures !done[j] ==> work[j] <= work[i]
    decreases j - i
  {
    if i < j {
      DoneStays(done, work, acts, i, j - 1);
      assert Works(done, work, acts, j - 1);
    }
  }

  /** A window with an act in it does some of the work, or all that is left. */
  lemma WindowWorks(done: seq<bool>, work: seq<nat>, acts: seq<bool>, k: nat, i: nat)
    requires Process(done, work, acts) && i + k <= |acts| && Within(acts, i, k)
    ensures done[i + k] || work[i + k] < work[i]
  {
    var j :| i <= j < i + k && j < |acts| && acts[j];
    DoneStays(done, work, acts, i, j);
    assert Works(done, work, acts, j);
    DoneStays(done, work, acts, j + 1, i + k);
    DoneStays(done, work, acts, j, i + k);
  }

  /** In a fair schedule, `k` steps for each unit of work are enough. */
  lemma {:induction false} FairRunsEnd(done: seq<bool>, work: seq<nat>, acts: seq<bool>, k: nat, i: nat)
    requires Process(done, work, acts) && FairActs(done, acts, k)
    requires i <= |acts| && i + k * work[i] <= |acts|
    ensures done[|acts|]
    decreases work[i]
  {
    if done[i] {
      DoneStays(done, work, acts, i, |acts|);
    } else {
      OneMoreTime(k, work[i] - 1);
      WindowWorks(done, work, acts, k, i);
      if done[i + k] {
        DoneStays(done, work, acts, i + k, |acts|);
      } else {
        LessTimes(k, work[i + k], work[i] - 1);
        FairRunsEnd(done, work, acts, k, i + k);
      }
    }
  }

  lemma OneMoreTime(k: nat, m: nat)
    ensures k * (m + 1) == k + k * m && k * m >= 0
  {}

  lemma LessTimes(k: nat, a: nat, b: nat)
    requires a <= b
    ensures k * a <= k * b
  {}
}
