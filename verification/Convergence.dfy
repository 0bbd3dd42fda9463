/** Once users stop editing and API calls succeed, the clusters come to agree. */
module Convergence {
  import opened Naming
  import opened TLS
  import opened CopySpec
  import opened Prefix
  import opened Clusters
  import opened Protocol
  import opened Safety
  import opened Dirty
  import opened Fairness
  import opened Runs
  import WQ = WorkQueue

  /** The clusters agree: each managed control Ingress holds the copied list of a labelled target
      Ingress, and a labelled Ingress without one has nothing to copy. */
  ghost predicate Agreement(c: Config, s: State) {
    && (forall name: ManagedName :: name in s.b.control.ingresses ==>
          var key := TargetOf(name);
          && key in s.target && Labelled(s.target[key])
          && s.b.control.ingresses[name].tls == Prefixed(key.ns, Copy(c.settings.domains, s.target[key].tls).tls))
    && (forall key :: key in s.target && Labelled(s.target[key]) && ControlName(key) !in s.b.control.ingresses ==>
          Copy(c.settings.domains, s.target[key].tls).tls == [])
  }

  /** No edits, no restart, no shutdown, and no run fails. */
  predicate Calm(step: Step) {
    match step
    case Edit(_, _) => false
    case Restart(_, _) => false
    case Ingress(a, _, _) => !a.Stop? && !a.ShutDown? && (a.Run? ==> a.outcome != WQ.Fail)
    case Cleaner(a, _) => !a.Stop? && !a.ShutDown? && (a.Run? ==> a.outcome != WQ.Fail)
    case _ => true
  }

  // ---- The ingress queue drains ----

  /** Nothing is left to look at. */
  ghost predicate Quiet(s: State) {
    s.notices == [] && forall key :: !WQ.Pending(s.ingress, key)
  }

  /** The steps that get the ingress controller's work done. */
  predicate Advances(step: Step) {
    || step.Notify?
    || step.Template?
    || (step.Ingress? && (step.iact.Ready? || WQ.ByWorker(step.iact)))
  }

  function IngressLoad(worker: WQ.Phase<TargetKey>): nat {
    match worker
    case Starting => 1
    case Got(_) => 4
    case Ran(_, outcome) => if outcome == WQ.Forget then 2 else if outcome == WQ.Fail then 9 else 10
    case Retrying(_) => 8
    case _ => 0
  }

  function PoolWork(n: nat, p: WQ.Pool<TargetKey>): nat {
    7 * |p.q.delayed| + 6 * |p.q.dirty| + WQ.Total(IngressLoad, p.workers) + WQ.Unspawned(n, p)
  }

  /** The keys in hand whose worker has not set the template. */
  function Unmade(s: State): set<TargetKey> {
    s.ingress.q.processing - s.making.Keys
  }

  /** What is left to do for the ingress controller. */
  function Work(c: Config, s: State): nat {
    8 * |s.notices| + |Unmade(s)| + PoolWork(c.ingressWorkers, s.ingress)
  }

  lemma TakingAdvances(n: nat, p: WQ.Pool<TargetKey>, w: nat)
    requires WQ.PoolOk(n, p) && WQ.Live(p) && WQ.Enabled(n, p, WQ.Get(w))
    ensures PoolWork(n, WQ.Next(n, p, WQ.Get(w))) + 1 < PoolWork(n, p)
  {
    var key := p.q.queue[0];
    assert key in p.q.queue;
    assert |p.q.dirty - {key}| == |p.q.dirty| - 1;
    WQ.TotalUpdate(IngressLoad, p.workers, w, WQ.Got(key));
  }

  lemma ReadyAdvances(n: nat, p: WQ.Pool<TargetKey>, key: TargetKey)
    requires key in p.q.delayed
    ensures PoolWork(n, WQ.Next(n, p, WQ.Ready(key))) < PoolWork(n, p)
  {
    assert |p.q.delayed - {key}| == |p.q.delayed| - 1;
  }

  /** Whether a worker's step puts its key back on the queue. */
  function PutBack(a: WQ.Act<TargetKey>): nat {
    if a.Rearm? || a.Retry? then 1 else 0
  }

  lemma QueueAdvances(n: nat, p: WQ.Pool<TargetKey>, a: WQ.Act<TargetKey>)
    requires WQ.Enabled(n, p, a) && WQ.ByWorker(a) && !a.Get?
    ensures var q := WQ.Next(n, p, a).q; q.dirty == p.q.dirty && |q.delayed| <= |p.q.delayed| + PutBack(a)
  {
    if a.Rearm? || a.Retry? {
      WQ.SubsetSize(WQ.Next(n, p, a).q.delayed, p.q.delayed + {p.workers[a.w].key});
    }
  }

  lemma PhaseAdvances(n: nat, p: WQ.Pool<TargetKey>, a: WQ.Act<TargetKey>)
    requires WQ.PhasesOk(n, p) && WQ.Live(p) && WQ.Enabled(n, p, a) && WQ.ByWorker(a) && !a.Get?
    requires a.Run? ==> a.outcome == WQ.Forget
    ensures IngressLoad(WQ.Next(n, p, a).workers[a.w]) + 7 * PutBack(a) + (if a.Run? then 1 else 0)
          < IngressLoad(p.workers[a.w])
  {
    assert !WQ.Gone(p.workers[a.w]);
  }

  lemma WorkerAdvances(n: nat, p: WQ.Pool<TargetKey>, a: WQ.Act<TargetKey>)
    requires WQ.PhasesOk(n, p) && WQ.Live(p) && WQ.Enabled(n, p, a) && WQ.ByWorker(a) && !a.Get?
    requires a.Run? ==> a.outcome == WQ.Forget
    ensures PoolWork(n, WQ.Next(n, p, a)) + (if a.Run? then 1 else 0) < PoolWork(n, p)
  {
    QueueAdvances(n, p, a);
    PhaseAdvances(n, p, a);
    WQ.WorkerMoves(n, p, a);
    WQ.TotalUpdate(IngressLoad, p.workers, a.w, WQ.Next(n, p, a).workers[a.w]);
  }

  /** A step of the pool; taking or running a key may leave one more that is not made. */
  lemma PoolAdvances(n: nat, p: WQ.Pool<TargetKey>, a: WQ.Act<TargetKey>)
    requires WQ.PoolOk(n, p) && WQ.Live(p) && WQ.Enabled(n, p, a) && (a.Ready? || WQ.ByWorker(a))
    requires a.Run? ==> a.outcome == WQ.Forget
    ensures PoolWork(n, WQ.Next(n, p, a)) + (if a.Run? || a.Get? then 1 else 0) < PoolWork(n, p)
  {
    if a.Ready? {
      ReadyAdvances(n, p, a.key);
    } else if a.Get? {
      TakingAdvances(n, p, a.w);
    } else {
      WorkerAdvances(n, p, a);
    }
  }

  lemma PoolRests(n: nat, p: WQ.Pool<TargetKey>, a: WQ.Act<TargetKey>)
    requires WQ.PhasesOk(n, p) && WQ.Enabled(n, p, a) && !a.AddNow? && !a.AddDelayed?
    requires !a.Ready? && !WQ.ByWorker(a) && !a.Stop? && !a.ShutDown? && WQ.Live(p)
    ensures PoolWork(n, WQ.Next(n, p, a)) == PoolWork(n, p) && WQ.Next(n, p, a).q == p.q
  {
    if a.Spawn? {
      WQ.TotalAppend(IngressLoad, p.workers, WQ.Starting);
    }
  }

  /** The key that a step of the pool takes or runs. */
  function Touched(p: WQ.Pool<TargetKey>, a: WQ.Act<TargetKey>): set<TargetKey> {
    if a.Get? && p.q.queue != [] then {p.q.queue[0]}
    else if a.Run? && a.w < |p.workers| && p.workers[a.w].Got? then {p.workers[a.w].key}
    else {}
  }

  lemma ProcessingGrows(n: nat, p: WQ.Pool<TargetKey>, a: WQ.Act<TargetKey>)
    requires WQ.Enabled(n, p, a)
    ensures WQ.Next(n, p, a).q.processing <= p.q.processing + Touched(p, a)
    ensures |Touched(p, a)| <= if a.Run? || a.Get? then 1 else 0
  {}

  lemma UnmadeGrows(c: Config, s: State, step: Step)
    requires step.Ingress? && Enabled(c, s, step)
    ensures |Unmade(Next(c, s, step))| <= |Unmade(s)| + if step.iact.Run? || step.iact.Get? then 1 else 0
  {
    var s', touched := Next(c, s, step), Touched(s.ingress, step.iact);
    ProcessingGrows(c.ingressWorkers, s.ingress, step.iact);
    assert s.making.Keys - touched <= s'.making.Keys;
    WQ.SubsetSize(Unmade(s'), Unmade(s) + touched);
  }

  lemma TemplateAdvances(c: Config, s: State, step: Step)
    requires WQ.HeldAreProcessing(s.ingress) && step.Template? && Enabled(c, s, step)
    ensures |Unmade(Next(c, s, step))| < |Unmade(s)|
  {
    var key := s.ingress.workers[step.w].key;
    TemplateMakes(c, s, step);
    WQ.StrictSubsetSize(Unmade(s) - {key}, Unmade(s));
  }

  lemma TemplateMakes(c: Config, s: State, step: Step)
    requires WQ.HeldAreProcessing(s.ingress) && step.Template? && Enabled(c, s, step)
    ensures var key := s.ingress.workers[step.w].key;
      key in Unmade(s) && Unmade(Next(c, s, step)) == Unmade(s) - {key}
  {
    assert WQ.Holds(s.ingress.workers[step.w], s.ingress.workers[step.w].key);
  }

  lemma IngressAdvances(c: Config, s: State, step: Step)
    requires PoolsOk(c, s) && WQ.Live(s.ingress) && step.Ingress? && Calm(step) && Enabled(c, s, step)
    ensures Advances(step) ==> Work(c, Next(c, s, step)) < Work(c, s)
    ensures !Advances(step) ==> Work(c, Next(c, s, step)) == Work(c, s)
  {
    if Advances(step) {
      PoolAdvances(c.ingressWorkers, s.ingress, step.iact);
      UnmadeGrows(c, s, step);
    } else {
      PoolRests(c.ingressWorkers, s.ingress, step.iact);
      assert Unmade(Next(c, s, step)) == Unmade(s);
    }
  }

  lemma LaterAdds(n: nat, p: WQ.Pool<TargetKey>, key: TargetKey)
    ensures PoolWork(n, p.(q := p.q.AddLater(key))) <= PoolWork(n, p) + 7
  {
    WQ.InsertSize(p.q.delayed, key);
  }

  lemma NotifyAdvances(c: Config, s: State)
    requires s.notices != []
    ensures Work(c, Next(c, s, Notify)) < Work(c, s)
  {
    var s' := Next(c, s, Notify);
    var later := s.ingress.(q := s.ingress.q.AddLater(s.notices[0].key));
    assert s'.ingress == s.ingress || s'.ingress == later;
    LaterAdds(c.ingressWorkers, s.ingress, s.notices[0].key);
    SameUnmade(s, s');
  }

  lemma SameUnmade(s: State, s': State)
    requires s'.ingress.q.processing == s.ingress.q.processing && s'.making == s.making
    ensures |Unmade(s')| == |Unmade(s)|
  {}

  lemma OthersRest(c: Config, s: State, step: Step)
    requires Calm(step) && Enabled(c, s, step) && !step.Ingress? && !Advances(step)
    ensures var s' := Next(c, s, step); s'.ingress == s.ingress && s'.making == s.making && s'.notices == s.notices
  {}

  lemma StaysLive(c: Config, s: State, step: Step)
    requires WQ.Live(s.ingress) && Calm(step) && Enabled(c, s, step)
    ensures WQ.Live(Next(c, s, step).ingress)
  {
    if step.Ingress? {
      WQ.LiveKept(c.ingressWorkers, s.ingress, step.iact);
      assert Next(c, s, step).ingress == WQ.Next(c.ingressWorkers, s.ingress, step.iact);
    }
  }

  /** Every calm step of the ingress side leaves less to do; every other calm step leaves as much. */
  lemma CalmStepsTerminate(c: Config, s: State, step: Step)
    requires PoolsOk(c, s) && WQ.Live(s.ingress) && Calm(step) && Enabled(c, s, step)
    ensures WQ.Live(Next(c, s, step).ingress)
    ensures Advances(step) ==> Work(c, Next(c, s, step)) < Work(c, s)
    ensures !Advances(step) ==> Work(c, Next(c, s, step)) == Work(c, s)
  {
    StaysLive(c, s, step);
    if step.Ingress? {
      IngressAdvances(c, s, step);
    } else if step.Template? {
      TemplateAdvances(c, s, step);
    } else if step.Notify? {
      NotifyAdvances(c, s);
    } else {
      OthersRest(c, s, step);
    }
  }

  /** With nothing left to do, nothing is left to look at. */
  lemma NoWorkIsQuiet(c: Config, s: State)
    requires Work(c, s) == 0
    ensures Quiet(s)
  {
    forall w, key | 0 <= w < |s.ingress.workers| ensures !WQ.Carries(s.ingress.workers[w], key) {
      WQ.TotalBounds(IngressLoad, s.ingress.workers, w);
    }
  }

  /** A budget that no sync of one Ingress exceeds. */
  function Enough(control: Control, key: TargetKey): Faults {
    Faults(1 + if ControlName(key) in control.ingresses then |control.ingresses[ControlName(key)].tls| else 0, false)
  }

  /** While something is left to do, a calm step of the ingress side can be taken. */
  lemma CanAdvance(c: Config, s: State) returns (step: Step)
    requires Unambiguous(c.settings.domains) && Inv(c, s) && WQ.Live(s.ingress) && !Quiet(s)
    ensures Calm(step) && Advances(step) && Enabled(c, s, step)
  {
    var p := s.ingress;
    if s.notices != [] {
      return Notify;
    }
    var f := Faults(0, false);
    if key :| key in p.q.delayed {
      return Ingress(WQ.Ready(key), NOTHING, f);
    }
    if w :| 0 <= w < |p.workers| && !p.workers[w].Idle? {
      assert !WQ.Gone(p.workers[w]) && !p.workers[w].Skipped?;
      match p.workers[w]
      case Starting => return Ingress(WQ.Enter(w), NOTHING, f);
      case Got(key) =>
        step := CanRun(c, s, w);
        return;
      case Ran(_, outcome) => return Ingress(if outcome == WQ.Again then WQ.Rearm(w) else WQ.Finish(w), NOTHING, f);
      case Retrying(_) => return Ingress(WQ.Retry(w), NOTHING, f);
    }
    assert forall w, k :: 0 <= w < |p.workers| ==> !WQ.Carries(p.workers[w], k) && !WQ.Holds(p.workers[w], k);
    var key :| WQ.Pending(p, key);
    assert key in p.q.queue;
    return Ingress(WQ.Get(0), NOTHING, f);
  }

  /** A worker that has got a key can set the template for it, or run. */
  lemma CanRun(c: Config, s: State, w: nat) returns (step: Step)
    requires Unambiguous(c.settings.domains) && Owned(c.settings.domains, s.b.control)
    requires w < |s.ingress.workers| && s.ingress.workers[w].Got?
    ensures Calm(step) && Advances(step) && Enabled(c, s, step)
  {
    var key := s.ingress.workers[w].key;
    var copy := if key in s.target then Copy(c.settings.domains, s.target[key].tls) else NOTHING;
    if key in s.target {
      CopyRefines(c.settings.domains, s.target[key].tls, copy);
    }
    if key !in s.making && Creates(s, key, copy) {
      return Template(w, copy);
    }
    EnoughSucceeds(c, s, key, copy);
    step := Ingress(WQ.Run(w, WQ.Forget), copy, Enough(s.b.control, key));
  }

  lemma EnoughSucceeds(c: Config, s: State, key: TargetKey, copy: CopyResult)
    requires Owned(c.settings.domains, s.b.control)
    ensures IngressRun(c, s, key, copy, Enough(s.b.control, key)).err == None
  {
    NameOfKey(key);
    OwnedIsWritable(c.settings.domains, s.b.control, ControlName(key));
  }

  ghost predicate CalmStep(c: Config, s: State, step: Step, s': State) {
    Calm(step) && Enabled(c, s, step) && s' == Next(c, s, step)
  }

  ghost predicate CalmAt(c: Config, states: seq<State>, steps: seq<Step>, i: nat)
    requires |states| == |steps| + 1 && i < |steps|
  {
    CalmStep(c, states[i], steps[i], states[i + 1])
  }

  ghost predicate CalmRun(c: Config, states: seq<State>, steps: seq<Step>) {
    |states| == |steps| + 1 && forall i: nat :: i < |steps| ==> CalmAt(c, states, steps, i)
  }

  lemma CalmStepKeeps(c: Config, s: State, step: Step, s': State)
    requires Unambiguous(c.settings.domains) && Inv(c, s) && WQ.Live(s.ingress) && CalmStep(c, s, step, s')
    ensures Inv(c, s') && WQ.Live(s'.ingress)
  {
    StaysLive(c, s, step);
    InvKept(c, s, step);
  }

  /** Calm runs keep what holds in every run, and the workers. */
  lemma CalmRunsKeep(c: Config, states: seq<State>, steps: seq<Step>, i: nat)
    requires Unambiguous(c.settings.domains) && CalmRun(c, states, steps) && i < |states|
    requires Inv(c, states[0]) && WQ.Live(states[0].ingress)
    ensures Inv(c, states[i]) && WQ.Live(states[i].ingress)
  {
    var inv := (s: State) => Inv(c, s) && WQ.Live(s.ingress);
    forall j: nat | j + 1 < |states| ensures Carried(inv, states, j) {
      assert CalmAt(c, states, steps, j);
      if inv(states[j]) {
        CalmStepKeeps(c, states[j], steps[j], states[j + 1]);
      }
    }
    Invariantly(inv, states, i);
  }

  ghost function QuietAt(states: seq<State>): seq<bool> {
    seq(|states|, i requires 0 <= i < |states| => Quiet(states[i]))
  }

  ghost function WorkAt(c: Config, states: seq<State>): seq<nat> {
    seq(|states|, i requires 0 <= i < |states| => Work(c, states[i]))
  }

  function AdvancesAt(steps: seq<Step>): seq<bool> {
    seq(|steps|, i requires 0 <= i < |steps| => Advances(steps[i]))
  }

  lemma CalmStepWorks(c: Config, states: seq<State>, steps: seq<Step>, i: nat)
    requires Unambiguous(c.settings.domains) && CalmRun(c, states, steps) && i < |steps|
    requires Inv(c, states[0]) && WQ.Live(states[0].ingress)
    ensures FallsAt(WorkAt(c, states), AdvancesAt(steps), i)
  {
    CalmRunsKeep(c, states, steps, i);
    assert CalmAt(c, states, steps, i);
    CalmStepsTerminate(c, states[i], steps[i]);
  }

  /** In every calm run, whatever the schedule, the steps that do the work and the work left are together
      no more than the work there was. */
  lemma CalmRunsTerminate(c: Config, states: seq<State>, steps: seq<Step>, i: nat)
    requires Unambiguous(c.settings.domains) && CalmRun(c, states, steps) && i <= |steps|
    requires Inv(c, states[0]) && WQ.Live(states[0].ingress)
    ensures Count(AdvancesAt(steps), i) + WorkAt(c, states)[i] <= Work(c, states[0])
  {
    forall j: nat | j < |steps| ensures FallsAt(WorkAt(c, states), AdvancesAt(steps), j) {
      CalmStepWorks(c, states, steps, j);
    }
    Falls(WorkAt(c, states), AdvancesAt(steps), i);
  }

  ghost predicate AdvancesWithin(steps: seq<Step>, i: nat, k: nat) {
    exists j :: i <= j < i + k && j < |steps| && Advances(steps[j])
  }

  /** Among any `k` steps in a row that begin while something is left to do, one does some of it. */
  ghost predicate FairToIngress(states: seq<State>, steps: seq<Step>, k: nat)
    requires |states| == |steps| + 1
  {
    forall i: nat :: i + k <= |steps| && !Quiet(states[i]) ==> AdvancesWithin(steps, i, k)
  }

  lemma QuietStays(c: Config, states: seq<State>, steps: seq<Step>, i: nat)
    requires Unambiguous(c.settings.domains) && CalmRun(c, states, steps) && i < |steps|
    requires Inv(c, states[0]) && WQ.Live(states[0].ingress)
    ensures Quiet(states[i]) ==> Quiet(states[i + 1])
  {
    CalmRunsKeep(c, states, steps, i);
    assert CalmAt(c, states, steps, i);
    if Quiet(states[i]) {
      QuietKept(c, states[i], steps[i]);
    }
  }

  lemma IngressWorksAt(c: Config, states: seq<State>, steps: seq<Step>, i: nat)
    requires Unambiguous(c.settings.domains) && CalmRun(c, states, steps) && i < |steps|
    requires Inv(c, states[0]) && WQ.Live(states[0].ingress)
    ensures Works(QuietAt(states), WorkAt(c, states), AdvancesAt(steps), i)
  {
    CalmStepWorks(c, states, steps, i);
    QuietStays(c, states, steps, i);
    FallingWorks(QuietAt(states), WorkAt(c, states), AdvancesAt(steps), i);
  }

  lemma IngressSideIsProcess(c: Config, states: seq<State>, steps: seq<Step>)
    requires Unambiguous(c.settings.domains) && CalmRun(c, states, steps)
    requires Inv(c, states[0]) && WQ.Live(states[0].ingress)
    ensures Process(QuietAt(states), WorkAt(c, states), AdvancesAt(steps))
  {
    var done, work, acts := QuietAt(states), WorkAt(c, states), AdvancesAt(steps);
    forall i | 0 <= i < |acts| ensures Works(done, work, acts, i) {
      IngressWorksAt(c, states, steps, i);
    }
    forall i | 0 <= i < |work| && work[i] == 0 ensures done[i] {
      NoWorkIsQuiet(c, states[i]);
    }
  }

  lemma FairIsFair(states: seq<State>, steps: seq<Step>, k: nat)
    requires |states| == |steps| + 1 && FairToIngress(states, steps, k)
    ensures FairActs(QuietAt(states), AdvancesAt(steps), k)
  {
    forall i: nat | i + k <= |steps| && !Quiet(states[i]) ensures Within(AdvancesAt(steps), i, k) {
      assert AdvancesWithin(steps, i, k);
      var j :| i <= j < i + k && j < |steps| && Advances(steps[j]);
      assert AdvancesAt(steps)[j];
    }
  }

  /** Every fair calm run that is long enough ends in a quiet state, whatever its schedule. */
  lemma EveryScheduleDrains(c: Config, states: seq<State>, steps: seq<Step>, k: nat)
    requires Unambiguous(c.settings.domains) && CalmRun(c, states, steps)
    requires Inv(c, states[0]) && WQ.Live(states[0].ingress)
    requires FairToIngress(states, steps, k) && |steps| >= k * Work(c, states[0])
    ensures Quiet(states[|steps|])
  {
    IngressSideIsProcess(c, states, steps);
    FairIsFair(states, steps, k);
    FairRunsEnd(QuietAt(states), WorkAt(c, states), AdvancesAt(steps), k, 0);
  }

  ghost predicate WorkAtStep(states: seq<State>, steps: seq<Step>, i: nat)
    requires |states| == |steps| + 1 && i < |steps|
  {
    Advances(steps[i]) && !Quiet(states[i])
  }

  /** Every step gets work done, and there was some to do. */
  ghost predicate OnlyWork(states: seq<State>, steps: seq<Step>)
    requires |states| == |steps| + 1
  {
    forall i: nat :: i < |steps| ==> WorkAtStep(states, steps, i)
  }

  /** While something is left to do, a calm step leads nearer to a quiet state. */
  lemma AdvanceOnce(c: Config, s: State) returns (step: Step, s': State)
    requires Unambiguous(c.settings.domains) && Inv(c, s) && WQ.Live(s.ingress) && !Quiet(s)
    ensures CalmStep(c, s, step, s') && Advances(step)
    ensures Inv(c, s') && WQ.Live(s'.ingress) && Work(c, s') < Work(c, s)
  {
    step := CanAdvance(c, s);
    s' := Next(c, s, step);
    CalmStepsTerminate(c, s, step);
    CalmStepKeeps(c, s, step, s');
  }

  /** From every state of a run, some calm steps lead to a quiet one; each of them gets work done. */
  lemma {:induction false} ReachesQuiet(c: Config, s: State) returns (states: seq<State>, steps: seq<Step>)
    requires Unambiguous(c.settings.domains) && Inv(c, s) && WQ.Live(s.ingress)
    ensures CalmRun(c, states, steps) && states[0] == s && |steps| <= Work(c, s)
    ensures Quiet(states[|steps|]) && OnlyWork(states, steps)
    decreases Work(c, s)
  {
    if Quiet(s) {
      return [s], [];
    }
    var step, s' := AdvanceOnce(c, s);
    var rest, later := ReachesQuiet(c, s');
    states, steps := [s] + rest, [step] + later;
    PrependCalm(c, s, step, rest, later);
    PrependWork(s, step, rest, later);
  }

  lemma PrependWork(s: State, step: Step, rest: seq<State>, later: seq<Step>)
    requires |rest| == |later| + 1 && OnlyWork(rest, later) && Advances(step) && !Quiet(s)
    ensures OnlyWork([s] + rest, [step] + later)
  {
    forall i: nat | i < |[step] + later| ensures WorkAtStep([s] + rest, [step] + later, i) {
      assert i > 0 ==> WorkAtStep(rest, later, i - 1);
    }
  }

  lemma PrependCalm(c: Config, s: State, step: Step, rest: seq<State>, later: seq<Step>)
    requires CalmRun(c, rest, later) && CalmStep(c, s, step, rest[0])
    ensures CalmRun(c, [s] + rest, [step] + later) && ([s] + rest)[1 + |later|] == rest[|later|]
  {
    var states, steps := [s] + rest, [step] + later;
    forall i: nat | i < |steps| ensures CalmAt(c, states, steps, i) {
      PrependAt(c, s, step, rest, later, i);
    }
  }

  lemma PrependAt(c: Config, s: State, step: Step, rest: seq<State>, later: seq<Step>, i: nat)
    requires |rest| == |later| + 1 && i <= |later|
    requires if i == 0 then CalmStep(c, s, step, rest[0]) else CalmAt(c, rest, later, i - 1)
    ensures CalmAt(c, [s] + rest, [step] + later, i)
  {
    var states, steps := [s] + rest, [step] + later;
    if i > 0 {
      assert steps[i] == later[i - 1] && states[i] == rest[i - 1] && states[i + 1] == rest[i];
    }
  }

  // ---- The cleaner sweeps ----

  /** The cleaner was run for this name. */
  ghost predicate SweptBy(s: State, step: Step, name: ManagedName) {
    step.Cleaner? && step.cact.Run? && step.cact.w < |s.cleaner.workers|
    && s.cleaner.workers[step.cact.w] == WQ.Got(name)
  }

  ghost predicate Swept(states: seq<State>, steps: seq<Step>, name: ManagedName)
    requires |states| == |steps| + 1
  {
    exists i :: 0 <= i < |steps| && SweptBy(states[i], steps[i], name)
  }

  lemma QuietPoolKept(n: nat, p: WQ.Pool<TargetKey>, a: WQ.Act<TargetKey>)
    requires WQ.PoolOk(n, p) && WQ.Enabled(n, p, a) && !a.AddNow? && !a.AddDelayed?
    requires forall key :: !WQ.Pending(p, key)
    ensures !a.Run? && forall key :: !WQ.Pending(WQ.Next(n, p, a), key)
  {
    var p' := WQ.Next(n, p, a);
    if WQ.ByWorker(a) {
      var worker := p.workers[a.w];
      if worker.Got? || worker.Ran? || worker.Retrying? {
        assert !WQ.Pending(p, worker.key);
        assert !WQ.Carries(worker, worker.key);
      }
      assert forall key :: key in p.q.queue ==> WQ.Pending(p, key);
    }
    forall key ensures !WQ.Pending(p', key) {
      assert !WQ.Pending(p, key);
      assert forall w :: 0 <= w < |p.workers| ==> !WQ.Carries(p.workers[w], key);
    }
  }

  /** Calm steps keep a quiet state quiet, leave the target alone and create nothing. */
  lemma QuietKept(c: Config, s: State, step: Step)
    requires PoolsOk(c, s) && Quiet(s) && !s.ingress.q.shuttingDown && Calm(step) && Enabled(c, s, step)
    ensures var s' := Next(c, s, step);
      && Quiet(s') && !s'.ingress.q.shuttingDown && s'.target == s.target
      && s'.b.control.ingresses.Keys <= s.b.control.ingresses.Keys
  {
    if step.Ingress? {
      QuietPoolKept(c.ingressWorkers, s.ingress, step.iact);
    } else if step.Cleaner? {
      CleanerStepShrinks(c, s, step);
    } else if step.Template? {
      assert !WQ.Pending(s.ingress, s.ingress.workers[step.w].key);
      assert WQ.Carries(s.ingress.workers[step.w], s.ingress.workers[step.w].key);
    }
  }

  lemma SweepRemovesOrphan(c: Config, s: State, step: Step, name: ManagedName)
    requires Calm(step) && Enabled(c, s, step) && SweptBy(s, step, name)
    requires name in s.removing ==> !HasCounterpart(s, name)
    ensures name in Next(c, s, step).b.control.ingresses ==> HasCounterpart(s, name)
  {}

  ghost predicate AtRest(c: Config, s: State) {
    Sound(c, s) && Quiet(s) && !s.ingress.q.shuttingDown
  }

  lemma RestStepKept(c: Config, s: State, step: Step, s': State)
    requires Unambiguous(c.settings.domains) && AtRest(c, s) && CalmStep(c, s, step, s')
    ensures AtRest(c, s') && s'.target == s.target && s'.b.control.ingresses.Keys <= s.b.control.ingresses.Keys
  {
    SoundKept(c, s, step);
    QuietKept(c, s, step);
  }

  /** Calm runs from a quiet state stay quiet, leave the target alone and create nothing. */
  lemma CalmRunsStayQuiet(c: Config, states: seq<State>, steps: seq<Step>, i: nat)
    requires Unambiguous(c.settings.domains) && CalmRun(c, states, steps) && i < |states| && AtRest(c, states[0])
    ensures AtRest(c, states[i])
  {
    var inv := (s: State) => AtRest(c, s);
    forall j: nat | j + 1 < |states| ensures Carried(inv, states, j) {
      assert CalmAt(c, states, steps, j);
      if inv(states[j]) {
        RestStepKept(c, states[j], steps[j], states[j + 1]);
      }
    }
    Invariantly(inv, states, i);
  }

  ghost predicate NoMoreThan(s: State, before: State) {
    s.target == before.target && s.b.control.ingresses.Keys <= before.b.control.ingresses.Keys
  }

  lemma NothingNewAt(c: Config, states: seq<State>, steps: seq<Step>, j: nat)
    requires Unambiguous(c.settings.domains) && CalmRun(c, states, steps) && j < |steps| && AtRest(c, states[0])
    ensures NoMoreThan(states[j + 1], states[j])
  {
    CalmRunsStayQuiet(c, states, steps, j);
    assert CalmAt(c, states, steps, j);
    RestStepKept(c, states[j], steps[j], states[j + 1]);
  }

  lemma NothingNew(c: Config, states: seq<State>, steps: seq<Step>, i: nat, j: nat)
    requires Unambiguous(c.settings.domains) && CalmRun(c, states, steps) && i <= j < |states| && AtRest(c, states[0])
    ensures NoMoreThan(states[j], states[i])
  {
    var inv, rest := (s: State) => NoMoreThan(s, states[i]), states[i..];
    forall m: nat | m + 1 < |rest| ensures Carried(inv, rest, m) {
      NothingNewAt(c, states, steps, i + m);
    }
    Invariantly(inv, rest, j - i);
  }

  /** In calm runs from a quiet state, what the cleaner has swept has a counterpart or is gone. */
  lemma SweptAreClean(c: Config, states: seq<State>, steps: seq<Step>, name: ManagedName)
    requires Unambiguous(c.settings.domains) && CalmRun(c, states, steps) && AtRest(c, states[0])
    requires Swept(states, steps, name)
    ensures name in states[|steps|].b.control.ingresses ==> HasCounterpart(states[|steps|], name)
  {
    var i :| 0 <= i < |steps| && SweptBy(states[i], steps[i], name);
    SweptAt(c, states, steps, name, i);
    NothingNewAt(c, states, steps, i);
    NothingNew(c, states, steps, i + 1, |steps|);
  }

  lemma SweptAt(c: Config, states: seq<State>, steps: seq<Step>, name: ManagedName, i: nat)
    requires Unambiguous(c.settings.domains) && CalmRun(c, states, steps) && AtRest(c, states[0])
    requires i < |steps| && SweptBy(states[i], steps[i], name)
    ensures name in states[i + 1].b.control.ingresses ==> HasCounterpart(states[i], name)
  {
    CalmRunsStayQuiet(c, states, steps, i);
    assert CalmAt(c, states, steps, i);
    SweepRemovesOrphan(c, states[i], steps[i], name);
  }

  /** Convergence: after the queue of the ingress controller has drained, the clusters agree as
      soon as the cleaner has looked at every managed control Ingress once; and one that it has
      not looked at is still in its view. */
  lemma Convergence(c: Config, states: seq<State>, steps: seq<Step>)
    requires Unambiguous(c.settings.domains) && CalmRun(c, states, steps) && AtRest(c, states[0])
    ensures var last := states[|steps|];
      && ((forall name: ManagedName :: name in last.b.control.ingresses ==> Swept(states, steps, name))
            ==> Agreement(c, last))
      && (!last.cleaner.q.shuttingDown ==>
            forall name: ManagedName :: name in last.b.control.ingresses && !Swept(states, steps, name) ==>
              WQ.Pending(last.cleaner, name) || name in last.adds)
  {
    var last := states[|steps|];
    CalmRunsStayQuiet(c, states, steps, |steps|);
    if forall name: ManagedName :: name in last.b.control.ingresses ==> Swept(states, steps, name) {
      forall name: ManagedName ensures !Orphaned(last, name) {
        if name in last.b.control.ingresses {
          SweptAreClean(c, states, steps, name);
        }
      }
      NoOrphanIsAgreement(c, last);
    }
  }

  lemma NoOrphanIsAgreement(c: Config, s: State)
    requires AtRest(c, s) && forall name :: !Orphaned(s, name)
    ensures Agreement(c, s)
  {
    QuietIsSynced(c, s);
    forall name: ManagedName | name in s.b.control.ingresses
      ensures HasCounterpart(s, name)
      ensures s.b.control.ingresses[name].tls
           == Prefixed(TargetOf(name).ns, Copy(c.settings.domains, s.target[TargetOf(name)].tls).tls)
    {
      assert !Orphaned(s, name);
      assert OwnedIngress(c.settings.domains, name, s.b.control.ingresses[name]);
      KeyOfName(name);
      assert Synced(c, s, TargetOf(name));
    }
  }

  /** In a quiet state every labelled Ingress is replicated. */
  lemma QuietIsSynced(c: Config, s: State)
    requires DirtyOrSynced(c, s) && Quiet(s) && !s.ingress.q.shuttingDown
    ensures forall key :: key in s.target && Labelled(s.target[key]) ==> Synced(c, s, key)
  {}

  // ---- One synchronisation is one step: why it matters ----

  /** If the cleaner decides on an older view of the target cluster than the ingress controller
      has acted on, a replicated Ingress survives exactly when it was labelled in that view too. */
  lemma StaleViewIff(c: Config, s: State, seen: map<Key, TargetIngress>, key: TargetKey, f: Faults)
    requires key in s.target && Labelled(s.target[key]) && Synced(c, s, key)
    requires ControlName(key) in s.b.control.ingresses
    requires Landed(f, 1) == 1 && Copy(c.settings.domains, s.target[key].tls).tls != []
    ensures Replicated(SyncCleaner(c.settings, seen, s.b, ControlName(key), f).control, key,
                Copy(c.settings.domains, s.target[key].tls).tls)
       <==> key in seen && Labelled(seen[key])
  {
    NameOfKey(key);
    CleanerRemovesIff(c.settings, seen, s.b, ControlName(key), f);
  }
}
