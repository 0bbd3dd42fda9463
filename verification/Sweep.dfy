/** The cleaner sweeps: in calm runs no orphan outlives its turn, and the clusters come to agree under
    every fair schedule. */
module Sweep {
  import opened Naming
  import opened CopySpec
  import opened Clusters
  import opened Protocol
  import opened Safety
  import opened Dirty
  import opened Convergence
  import opened Fairness
  import opened Runs
  import WQ = WorkQueue

  ghost predicate Undisturbed(c: Config, s: State) {
    AtRest(c, s) && WQ.Live(s.cleaner)
  }

  // ---- What is left to do for an orphan ----

  function AddKeys(adds: seq<ManagedName>): set<ManagedName> {
    set i | 0 <= i < |adds| :: adds[i]
  }

  /** The names that the cleaner knows or will be told of. */
  function Known(s: State): set<ManagedName> {
    AddKeys(s.adds) + Keys(s.cleaner)
  }

  /** The names in hand that no removal has been decided on. */
  function Undecided(s: State): set<ManagedName> {
    s.cleaner.q.processing - s.removing.Keys
  }

  /** One step more for an orphan that a worker has got but not decided on. */
  ghost function DecisionLeft(s: State, name: ManagedName): nat {
    if InHand(s.cleaner, name) && name !in s.removing then 1 else 0
  }

  ghost function RankOf(c: Config, s: State, name: ManagedName): nat {
    Rank(c.cleanerWorkers, s.cleaner, name, |Known(s)|, |Undecided(s)|)
  }

  /** Steps to go until the cleaner has removed an orphan. */
  ghost function NameWork(c: Config, s: State, name: ManagedName): nat {
    |s.adds| + RankOf(c, s, name) + DecisionLeft(s, name)
  }

  /** The decision on `name`, or on another orphan while `name` is queued. */
  ghost predicate DecisionHelps(s: State, w: nat, name: ManagedName) {
    && w < |s.cleaner.workers|
    && (s.cleaner.workers[w] == WQ.Got(name) || (!InHand(s.cleaner, name) && name in s.cleaner.q.queue))
  }

  ghost predicate HelpsName(s: State, step: Step, name: ManagedName) {
    || step.NotifyAdd?
    || (step.Condemn? && DecisionHelps(s, step.v, name))
    || (step.Cleaner? && Helps(s.cleaner, step.cact, name))
  }

  // ---- No step adds to it ----

  lemma UndecidedAreKnown(c: Config, s: State)
    requires PoolsOk(c, s)
    ensures |Undecided(s)| <= |Known(s)| && |s.cleaner.q.queue| <= |Known(s)|
  {
    WQ.SubsetSize(Undecided(s), Known(s));
    QueueFits(s.cleaner);
    WQ.SubsetSize(Keys(s.cleaner), Known(s));
  }

  lemma KnownKept(c: Config, s: State, step: Step)
    requires PoolsOk(c, s) && Quiet(s) && Calm(step) && Enabled(c, s, step)
    ensures Known(Next(c, s, step)) <= Known(s)
  {
    var s' := Next(c, s, step);
    if step.Cleaner? {
      KeysKept(c.cleanerWorkers, s.cleaner, step.cact);
    } else if step.NotifyAdd? {
      AddsAreKnown(c, s, s');
    } else {
      OthersSpareTheCleaner(c, s, step);
    }
  }

  lemma OthersSpareTheCleaner(c: Config, s: State, step: Step)
    requires PoolsOk(c, s) && Quiet(s) && Calm(step) && Enabled(c, s, step) && !step.Cleaner? && !step.NotifyAdd?
    ensures Next(c, s, step).cleaner == s.cleaner && Next(c, s, step).adds == s.adds
    ensures !step.Condemn? ==> Next(c, s, step).removing == s.removing
  {
    if step.Ingress? {
      QuietPoolKept(c.ingressWorkers, s.ingress, step.iact);
    }
  }

  /** The name that a step of the cleaner takes or runs. */
  function Touched(p: WQ.Pool<ManagedName>, a: WQ.Act<ManagedName>): set<ManagedName> {
    if a.Get? && p.q.queue != [] then {p.q.queue[0]}
    else if a.Run? && a.w < |p.workers| && p.workers[a.w].Got? then {p.workers[a.w].key}
    else {}
  }

  lemma ProcessingGrows(n: nat, p: WQ.Pool<ManagedName>, a: WQ.Act<ManagedName>)
    requires WQ.Enabled(n, p, a)
    ensures WQ.Next(n, p, a).q.processing <= p.q.processing + Touched(p, a)
    ensures |Touched(p, a)| <= if MayAddHalf(a) then 1 else 0
  {}

  lemma UndecidedGrows(c: Config, s: State, step: Step)
    requires Enabled(c, s, step) && step.Cleaner?
    ensures |Undecided(Next(c, s, step))| <= |Undecided(s)| + if MayAddHalf(step.cact) then 1 else 0
  {
    var s', touched := Next(c, s, step), Touched(s.cleaner, step.cact);
    CleanerMovesPool(c, s, step);
    ProcessingGrows(c.cleanerWorkers, s.cleaner, step.cact);
    WQ.SubsetSize(Undecided(s'), Undecided(s) + touched);
  }

  lemma RankGrows(
    n: nat, p: WQ.Pool<ManagedName>, name: ManagedName, known: nat, more: nat, halves: nat, moreHalves: nat)
    requires known <= more && halves <= moreHalves
    ensures Rank(n, p, name, known, halves) <= Rank(n, p, name, more, moreHalves)
  {}

  lemma CleanerMovesPool(c: Config, s: State, step: Step)
    requires Enabled(c, s, step) && step.Cleaner?
    ensures Next(c, s, step).cleaner == WQ.Next(c.cleanerWorkers, s.cleaner, step.cact)
    ensures Next(c, s, step).adds == s.adds
    ensures step.cact.Run? ==> Next(c, s, step).removing == s.removing - {s.cleaner.workers[step.cact.w].key}
    ensures !step.cact.Run? ==> Next(c, s, step).removing == s.removing
  {}

  lemma NotItsRun(c: Config, s: State, step: Step, name: ManagedName)
    requires Calm(step) && Enabled(c, s, step) && step.Cleaner? && Sighted(s)
    requires Orphaned(s, name) && name in Next(c, s, step).b.control.ingresses
    ensures step.cact.Run? ==> s.cleaner.workers[step.cact.w].key != name
  {
    if step.cact.Run? && s.cleaner.workers[step.cact.w].key == name {
      SweepRemovesOrphan(c, s, step, name);
      assert false;
    }
  }

  lemma CleanerStepsTerminate(c: Config, s: State, step: Step, name: ManagedName)
    requires Undisturbed(c, s) && Calm(step) && Enabled(c, s, step) && step.Cleaner?
    requires Orphaned(s, name) && name in Next(c, s, step).b.control.ingresses
    ensures NameWork(c, Next(c, s, step), name) + (if HelpsName(s, step, name) then 1 else 0) <= NameWork(c, s, name)
  {
    var s', n, p := Next(c, s, step), c.cleanerWorkers, s.cleaner;
    CleanerMovesPool(c, s, step);
    NotItsRun(c, s, step, name);
    PoolsKept(c, s, step);
    KnownKept(c, s, step);
    WQ.SubsetSize(Known(s'), Known(s));
    UndecidedAreKnown(c, s');
    UndecidedGrows(c, s, step);
    ComesNearer(n, p, step.cact, name, |Known(s)|, |Undecided(s)|, |Undecided(s')|);
    RankGrows(n, s'.cleaner, name, |Known(s')|, |Known(s)|, |Undecided(s')|, |Undecided(s')|);
    assert name in s'.removing <==> name in s.removing;
  }

  lemma AddsTerminate(c: Config, s: State, s': State, name: ManagedName)
    requires PoolsOk(c, s) && WQ.Live(s.cleaner) && s.adds != []
    requires s' == s.(adds := s.adds[1..], cleaner := WQ.Next(c.cleanerWorkers, s.cleaner, WQ.AddNow(s.adds[0])))
    ensures NameWork(c, s', name) < NameWork(c, s, name)
  {
    var n, p, a := c.cleanerWorkers, s.cleaner, WQ.AddNow(s.adds[0]);
    AddsMove(c, s, s');
    ComesNearer(n, p, a, name, |Known(s)|, |Undecided(s)|, |Undecided(s')|);
    RankGrows(n, s'.cleaner, name, |Known(s')|, |Known(s)|, |Undecided(s')|, |Undecided(s')|);
    assert s'.cleaner.workers == p.workers;
  }

  lemma AddsMove(c: Config, s: State, s': State)
    requires PoolsOk(c, s) && s.adds != []
    requires s' == s.(adds := s.adds[1..], cleaner := WQ.Next(c.cleanerWorkers, s.cleaner, WQ.AddNow(s.adds[0])))
    ensures Undecided(s') == Undecided(s) && |Known(s')| <= |Known(s)|
    ensures |Undecided(s)| <= |Known(s)| && |s'.cleaner.q.queue| <= |Known(s)|
  {
    assert Undecided(s') == Undecided(s);
    AddsAreKnown(c, s, s');
    SizesOrdered(s, s');
    UndecidedAreKnown(c, s);
    AddsKeepPools(c, s, s');
    UndecidedAreKnown(c, s');
  }

  lemma SizesOrdered(s: State, s': State)
    requires Known(s') <= Known(s)
    ensures |Known(s')| <= |Known(s)|
  {
    WQ.SubsetSize(Known(s'), Known(s));
  }

  lemma AddsKeepPools(c: Config, s: State, s': State)
    requires PoolsOk(c, s) && s.adds != []
    requires s' == s.(adds := s.adds[1..], cleaner := WQ.Next(c.cleanerWorkers, s.cleaner, WQ.AddNow(s.adds[0])))
    ensures PoolsOk(c, s')
  {
    WQ.PoolKept(c.cleanerWorkers, s.cleaner, WQ.AddNow(s.adds[0]));
  }

  lemma AddsAreKnown(c: Config, s: State, s': State)
    requires PoolsOk(c, s) && s.adds != []
    requires s' == s.(adds := s.adds[1..], cleaner := WQ.Next(c.cleanerWorkers, s.cleaner, WQ.AddNow(s.adds[0])))
    ensures Known(s') <= Known(s)
  {
    KeysKept(c.cleanerWorkers, s.cleaner, WQ.AddNow(s.adds[0]));
    assert AddKeys(s.adds[1..]) <= AddKeys(s.adds) && s.adds[0] in AddKeys(s.adds);
  }

  /** The worker `w` decides on the name it has got. */
  ghost predicate Decides(s: State, s': State, w: nat) {
    && w < |s.cleaner.workers| && s.cleaner.workers[w].Got?
    && var name := s.cleaner.workers[w].key;
    && name !in s.removing && s'.removing.Keys == s.removing.Keys + {name}
    && s'.cleaner == s.cleaner && s'.adds == s.adds
  }

  lemma DecisionsTerminate(c: Config, s: State, s': State, w: nat, name: ManagedName)
    requires WQ.HeldAreProcessing(s.cleaner) && Decides(s, s', w)
    ensures NameWork(c, s', name) + (if DecisionHelps(s, w, name) then 1 else 0) <= NameWork(c, s, name)
  {
    var decided := s.cleaner.workers[w].key;
    assert s.cleaner.workers[w] == WQ.Got(decided) && InHand(s.cleaner, decided);
    DecidedShrinks(s, s', w);
    HalfLess(c.cleanerWorkers, s.cleaner, name, |Known(s)|, |Undecided(s)|);
  }

  lemma DecidedShrinks(s: State, s': State, w: nat)
    requires WQ.HeldAreProcessing(s.cleaner) && Decides(s, s', w)
    ensures |Undecided(s')| == |Undecided(s)| - 1
  {
    var decided := s.cleaner.workers[w].key;
    assert WQ.Holds(s.cleaner.workers[w], decided);
    OneLess(Undecided(s), Undecided(s'), decided);
  }

  lemma OneLess(before: set<ManagedName>, after: set<ManagedName>, name: ManagedName)
    requires name in before && name !in after && forall x :: x in after <==> x in before && x != name
    ensures |after| == |before| - 1
  {
    assert after == before - {name};
    WQ.RemoveSize(before, name);
  }

  lemma HalfLess(n: nat, p: WQ.Pool<ManagedName>, name: ManagedName, known: nat, halves: nat)
    requires halves > 0
    ensures Rank(n, p, name, known, halves - 1)
         == Rank(n, p, name, known, halves) - if !InHand(p, name) && name in p.q.queue then 1 else 0
  {}

  /** As long as it is there, every step that helps an orphan brings it nearer to its removal, and no
      calm step takes it away. */
  lemma SweepStepsTerminate(c: Config, s: State, step: Step, name: ManagedName)
    requires Undisturbed(c, s) && Calm(step) && Enabled(c, s, step)
    requires Orphaned(s, name) && name in Next(c, s, step).b.control.ingresses
    ensures NameWork(c, Next(c, s, step), name) + (if HelpsName(s, step, name) then 1 else 0) <= NameWork(c, s, name)
  {
    if step.Cleaner? {
      CleanerStepsTerminate(c, s, step, name);
    } else if step.NotifyAdd? {
      AddsTerminate(c, s, Next(c, s, step), name);
    } else if step.Condemn? {
      CondemnTerminates(c, s, step, name);
    } else {
      OthersTerminate(c, s, step, name);
    }
  }

  lemma CondemnTerminates(c: Config, s: State, step: Step, name: ManagedName)
    requires WQ.HeldAreProcessing(s.cleaner) && Enabled(c, s, step) && step.Condemn?
    ensures NameWork(c, Next(c, s, step), name) + (if HelpsName(s, step, name) then 1 else 0) <= NameWork(c, s, name)
  {
    CondemnDecides(c, s, step);
    DecisionsTerminate(c, s, Next(c, s, step), step.v, name);
  }

  lemma CondemnDecides(c: Config, s: State, step: Step)
    requires Enabled(c, s, step) && step.Condemn?
    ensures Decides(s, Next(c, s, step), step.v)
  {
    CondemnIsNext(c, s, step);
  }

  lemma OthersTerminate(c: Config, s: State, step: Step, name: ManagedName)
    requires PoolsOk(c, s) && Quiet(s) && Calm(step) && Enabled(c, s, step)
    requires !step.Cleaner? && !step.NotifyAdd? && !step.Condemn?
    ensures NameWork(c, Next(c, s, step), name) == NameWork(c, s, name) && !HelpsName(s, step, name)
  {
    OthersSpareTheCleaner(c, s, step);
    SameWork(c, s, Next(c, s, step), name);
  }

  lemma SameWork(c: Config, s: State, s': State, name: ManagedName)
    requires s'.cleaner == s.cleaner && s'.adds == s.adds && s'.removing == s.removing
    ensures NameWork(c, s', name) == NameWork(c, s, name)
  {}

  // ---- A step that helps can be taken ----

  /** While an orphan is there, a step that helps it can be taken. */
  lemma CanSweep(c: Config, s: State, name: ManagedName) returns (step: Step)
    requires Undisturbed(c, s) && Orphaned(s, name)
    ensures Calm(step) && HelpsName(s, step, name) && Enabled(c, s, step)
  {
    var p, f := s.cleaner, Faults(0, false);
    if s.adds != [] {
      step := NotifyAdd;
    } else if w :| 0 <= w < |p.workers| && p.workers[w] == WQ.Got(name) {
      step := CanClean(c, s, w);
    } else if name in p.q.queue {
      step := CanMove(c, s, name);
    } else if name in p.q.delayed {
      step := Cleaner(WQ.Ready(name), f);
    } else {
      var w := Keeper(c, s, name);
      step := Cleaner(LetGo(p, w), f);
    }
  }

  /** The next step of a worker between two runs. */
  function LetGo(p: WQ.Pool<ManagedName>, w: nat): WQ.Act<ManagedName>
    requires w < |p.workers| && (p.workers[w].Ran? || p.workers[w].Retrying?)
  {
    match p.workers[w]
    case Ran(_, outcome) => if outcome == WQ.Again then WQ.Rearm(w) else WQ.Finish(w)
    case Retrying(_) => WQ.Retry(w)
  }

  /** A control Ingress that is neither announced, nor queued, nor delayed, nor about to be looked at
      is still in the hands of a worker. */
  lemma Keeper(c: Config, s: State, name: ManagedName) returns (w: nat)
    requires PoolsOk(c, s) && Covered(s) && WQ.Live(s.cleaner) && name in s.b.control.ingresses && s.adds == []
    requires !InHand(s.cleaner, name) && name !in s.cleaner.q.queue && name !in s.cleaner.q.delayed
    ensures w < |s.cleaner.workers| && LoadOf(s.cleaner.workers[w], name) > 0
  {
    assert WQ.Pending(s.cleaner, name);
    w := Holder(c.cleanerWorkers, s.cleaner, name);
  }

  /** While a key is queued and in nobody's hands, a worker can take a step, and it helps that key. */
  lemma CanMove(c: Config, s: State, name: ManagedName) returns (step: Step)
    requires Undisturbed(c, s) && name in s.cleaner.q.queue && !InHand(s.cleaner, name)
    ensures Calm(step) && HelpsName(s, step, name) && Enabled(c, s, step)
  {
    var p, f := s.cleaner, Faults(0, false);
    if w :| 0 <= w < |p.workers| && !p.workers[w].Idle? {
      assert !WQ.Gone(p.workers[w]) && !p.workers[w].Skipped?;
      match p.workers[w]
      case Starting => step := Cleaner(WQ.Enter(w), f);
      case Got(_) => step := CanClean(c, s, w);
      case Ran(_, _) => step := Cleaner(LetGo(p, w), f);
      case Retrying(_) => step := Cleaner(LetGo(p, w), f);
    } else {
      step := Cleaner(WQ.Get(0), f);
    }
  }

  /** A worker that has got a name can decide on its removal, or run. */
  lemma CanClean(c: Config, s: State, w: nat) returns (step: Step)
    requires Owned(c.settings.domains, s.b.control) && w < |s.cleaner.workers| && s.cleaner.workers[w].Got?
    ensures Calm(step) && Enabled(c, s, step)
    ensures step == Condemn(w) || (step.Cleaner? && step.cact.Run? && step.cact.w == w)
  {
    var name := s.cleaner.workers[w].key;
    if name !in s.removing && Orphaned(s, name) {
      step := Condemn(w);
    } else {
      var f := AmpleFor(s, name);
      AmpleSucceeds(c, s, name);
      step := Cleaner(WQ.Run(w, WQ.OutcomeOf(false, CleanerRun(c, s, name, f).requeue)), f);
    }
  }

  /** A budget that no run of the cleaner exceeds. */
  function AmpleFor(s: State, name: ManagedName): Faults {
    Faults(1 + if name in s.removing then |s.removing[name].tls|
               else if name in s.b.control.ingresses then |s.b.control.ingresses[name].tls| else 0, false)
  }

  lemma AmpleSucceeds(c: Config, s: State, name: ManagedName)
    requires Owned(c.settings.domains, s.b.control)
    ensures CleanerRun(c, s, name, AmpleFor(s, name)).err.None?
  {
    OwnedIsWritable(c.settings.domains, s.b.control, name);
  }

  lemma UndisturbedKept(c: Config, s: State, step: Step, s': State)
    requires Unambiguous(c.settings.domains) && Undisturbed(c, s) && CalmStep(c, s, step, s')
    ensures Undisturbed(c, s') && s'.target == s.target
    ensures s'.b.control.ingresses.Keys <= s.b.control.ingresses.Keys
  {
    RestStepKept(c, s, step, s');
    CleanerStaysLive(c, s, step);
  }

  lemma CleanerStaysLive(c: Config, s: State, step: Step)
    requires WQ.Live(s.cleaner) && Calm(step) && Enabled(c, s, step)
    ensures WQ.Live(Next(c, s, step).cleaner)
  {
    if step.Cleaner? {
      WQ.LiveKept(c.cleanerWorkers, s.cleaner, step.cact);
    }
  }

  // ---- Every schedule ----

  lemma RunsStayUndisturbed(c: Config, states: seq<State>, steps: seq<Step>, i: nat)
    requires Unambiguous(c.settings.domains) && CalmRun(c, states, steps) && Undisturbed(c, states[0])
    requires i < |states|
    ensures Undisturbed(c, states[i])
  {
    var inv := (s: State) => Undisturbed(c, s);
    forall j: nat | j + 1 < |states| ensures Carried(inv, states, j) {
      assert CalmAt(c, states, steps, j);
      if inv(states[j]) {
        UndisturbedKept(c, states[j], steps[j], states[j + 1]);
      }
    }
    Invariantly(inv, states, i);
  }

  ghost predicate HelpedWithin(states: seq<State>, steps: seq<Step>, name: ManagedName, i: nat, k: nat)
    requires |states| == |steps| + 1
  {
    exists j :: i <= j < i + k && j < |steps| && HelpsName(states[j], steps[j], name)
  }

  /** Among any `k` steps in a row that begin in a quiet state with an orphan, one helps that orphan. */
  ghost predicate FairToCleaner(states: seq<State>, steps: seq<Step>, k: nat)
    requires |states| == |steps| + 1
  {
    forall i: nat, name: ManagedName :: i + k <= |steps| && Quiet(states[i]) && Orphaned(states[i], name)
      ==> HelpedWithin(states, steps, name, i, k)
  }

  ghost function GoneAt(states: seq<State>, name: ManagedName): seq<bool> {
    seq(|states|, i requires 0 <= i < |states| => !Orphaned(states[i], name))
  }

  ghost function NameWorkAt(c: Config, states: seq<State>, name: ManagedName): seq<nat> {
    seq(|states|, i requires 0 <= i < |states| => NameWork(c, states[i], name))
  }

  ghost function HelpsAt(states: seq<State>, steps: seq<Step>, name: ManagedName): seq<bool>
    requires |states| == |steps| + 1
  {
    seq(|steps|, i requires 0 <= i < |steps| => HelpsName(states[i], steps[i], name))
  }

  lemma OrphanStepWorks(c: Config, s: State, step: Step, s': State, name: ManagedName)
    requires Unambiguous(c.settings.domains) && Undisturbed(c, s) && CalmStep(c, s, step, s')
    ensures
      && (Orphaned(s', name) ==> Orphaned(s, name))
      && (Orphaned(s', name) ==>
            NameWork(c, s', name) + (if HelpsName(s, step, name) then 1 else 0) <= NameWork(c, s, name))
  {
    UndisturbedKept(c, s, step, s');
    if Orphaned(s', name) {
      SweepStepsTerminate(c, s, step, name);
    }
  }

  lemma OrphanStepAt(c: Config, states: seq<State>, steps: seq<Step>, name: ManagedName, i: nat)
    requires Unambiguous(c.settings.domains) && CalmRun(c, states, steps) && Undisturbed(c, states[0])
    requires i < |steps|
    ensures Orphaned(states[i + 1], name) ==> Orphaned(states[i], name)
    ensures Orphaned(states[i + 1], name) ==>
      NameWork(c, states[i + 1], name) + (if HelpsName(states[i], steps[i], name) then 1 else 0)
        <= NameWork(c, states[i], name)
  {
    RunsStayUndisturbed(c, states, steps, i);
    assert CalmAt(c, states, steps, i);
    OrphanStepWorks(c, states[i], steps[i], states[i + 1], name);
  }

  lemma NameWorkIsSome(c: Config, s: State, name: ManagedName)
    ensures NameWork(c, s, name) > 0
  {}

  lemma OrphanWorksAt(c: Config, states: seq<State>, steps: seq<Step>, name: ManagedName, i: nat)
    requires Unambiguous(c.settings.domains) && CalmRun(c, states, steps) && Undisturbed(c, states[0])
    requires i < |steps|
    ensures Works(GoneAt(states, name), NameWorkAt(c, states, name), HelpsAt(states, steps, name), i)
  {
    OrphanStepAt(c, states, steps, name, i);
  }

  /** Removing an orphan is a process that no calm step sets back. */
  lemma OrphanIsProcess(c: Config, states: seq<State>, steps: seq<Step>, name: ManagedName)
    requires Unambiguous(c.settings.domains) && CalmRun(c, states, steps) && Undisturbed(c, states[0])
    ensures Process(GoneAt(states, name), NameWorkAt(c, states, name), HelpsAt(states, steps, name))
  {
    var done, work, acts := GoneAt(states, name), NameWorkAt(c, states, name), HelpsAt(states, steps, name);
    forall i | 0 <= i < |acts| ensures Works(done, work, acts, i) {
      OrphanWorksAt(c, states, steps, name, i);
    }
    forall i | 0 <= i < |work| ensures work[i] > 0 {
      NameWorkIsSome(c, states[i], name);
    }
  }

  lemma FairToName(c: Config, states: seq<State>, steps: seq<Step>, name: ManagedName, k: nat)
    requires Unambiguous(c.settings.domains) && CalmRun(c, states, steps) && Undisturbed(c, states[0])
    requires FairToCleaner(states, steps, k)
    ensures FairActs(GoneAt(states, name), HelpsAt(states, steps, name), k)
  {
    forall i: nat | i + k <= |steps| && Orphaned(states[i], name) ensures Within(HelpsAt(states, steps, name), i, k) {
      RunsStayUndisturbed(c, states, steps, i);
      assert HelpedWithin(states, steps, name, i, k);
      var j :| i <= j < i + k && j < |steps| && HelpsName(states[j], steps[j], name);
      assert HelpsAt(states, steps, name)[j];
    }
  }

  /** No orphan starves: in every fair calm run from a quiet state it is gone after `k` steps for each
      step that its removal takes, whatever else the cleaner has to do. */
  lemma NoOrphanStarves(c: Config, states: seq<State>, steps: seq<Step>, name: ManagedName, k: nat)
    requires Unambiguous(c.settings.domains) && CalmRun(c, states, steps) && Undisturbed(c, states[0])
    requires FairToCleaner(states, steps, k) && |steps| >= k * NameWork(c, states[0], name)
    ensures !Orphaned(states[|steps|], name)
  {
    OrphanIsProcess(c, states, steps, name);
    FairToName(c, states, steps, name, k);
    FairRunsEnd(GoneAt(states, name), NameWorkAt(c, states, name), HelpsAt(states, steps, name), k, 0);
  }

  /** Every fair calm run from a quiet state that is long enough for each of its orphans ends with
      clusters that agree. */
  lemma EveryScheduleSweeps(c: Config, states: seq<State>, steps: seq<Step>, k: nat)
    requires Unambiguous(c.settings.domains) && CalmRun(c, states, steps) && Undisturbed(c, states[0])
    requires FairToCleaner(states, steps, k)
    requires forall name: ManagedName :: Orphaned(states[0], name) ==> |steps| >= k * NameWork(c, states[0], name)
    ensures Agreement(c, states[|steps|])
  {
    RunsStayUndisturbed(c, states, steps, |steps|);
    NothingNew(c, states, steps, 0, |steps|);
    forall name: ManagedName ensures !Orphaned(states[|steps|], name) {
      if Orphaned(states[0], name) {
        NoOrphanStarves(c, states, steps, name, k);
      }
    }
    NoOrphanIsAgreement(c, states[|steps|]);
  }

  // ---- From any state ----

  /** More than any orphan needs, now or once the ingress controller has done its work: each unit of
      that work may announce one more name. */
  function SweepBound(c: Config, s: State): nat {
    9 * (|s.adds| + |Known(s)| + Work(c, s)) + 8 * c.cleanerWorkers + 3
  }

  lemma NameWorkBounded(c: Config, s: State, name: ManagedName)
    requires PoolsOk(c, s)
    ensures NameWork(c, s, name) <= |s.adds| + 8 * |Known(s)| + 8 * c.cleanerWorkers + 3
  {
    UndecidedAreKnown(c, s);
    RankBounded(c.cleanerWorkers, s.cleaner, name, |Known(s)|, |Undecided(s)|);
  }

  /** Calm steps announce no more than they work off. */
  lemma AnnouncementsArePaid(c: Config, s: State, step: Step, s': State)
    requires PoolsOk(c, s) && WQ.Live(s.ingress) && CalmStep(c, s, step, s')
    ensures |s'.adds| + Work(c, s') <= |s.adds| + Work(c, s)
    ensures |Known(s')| + Work(c, s') <= |Known(s)| + Work(c, s)
  {
    CalmStepsTerminate(c, s, step);
    if step.Ingress? {
      IngressAnnounces(c, s, step);
    } else if step.Cleaner? {
      CleanerAnnounces(c, s, step);
    } else if step.NotifyAdd? {
      AddsMove(c, s, s');
    } else {
      assert s'.adds == s.adds && s'.cleaner == s.cleaner;
    }
  }

  lemma CleanerAnnounces(c: Config, s: State, step: Step)
    requires PoolsOk(c, s) && step.Cleaner? && Enabled(c, s, step) && !step.cact.AddNow? && !step.cact.AddDelayed?
    ensures Next(c, s, step).adds == s.adds && |Known(Next(c, s, step))| <= |Known(s)|
  {
    CleanerMovesPool(c, s, step);
    KeysKept(c.cleanerWorkers, s.cleaner, step.cact);
    WQ.SubsetSize(Known(Next(c, s, step)), Known(s));
  }

  lemma IngressAnnounces(c: Config, s: State, step: Step)
    requires step.Ingress? && Enabled(c, s, step)
    ensures var s', more := Next(c, s, step), if step.iact.Run? then 1 else 0;
      |s'.adds| <= |s.adds| + more && |Known(s')| <= |Known(s)| + more
  {
    if step.iact.Run? {
      var key := s.ingress.workers[step.iact.w].key;
      NameOfKey(key);
      AnnouncesOne(c, s, step, key);
      OneMoreKnown(s, Next(c, s, step), ControlName(key));
    }
  }

  lemma AnnouncesOne(c: Config, s: State, step: Step, key: TargetKey)
    requires step.Ingress? && Enabled(c, s, step) && step.iact.Run? && key == s.ingress.workers[step.iact.w].key
    requires FilterAccepts(ControlName(key))
    ensures var s' := Next(c, s, step);
      s'.cleaner == s.cleaner && (s'.adds == s.adds || s'.adds == s.adds + [ControlName(key)])
  {}

  lemma OneMoreKnown(s: State, s': State, name: ManagedName)
    requires s'.cleaner == s.cleaner && (s'.adds == s.adds || s'.adds == s.adds + [name])
    ensures |Known(s')| <= |Known(s)| + 1
  {
    WQ.InsertSize(Known(s), name);
    WQ.SubsetSize(Known(s'), Known(s) + {name});
  }

  function AddsDue(c: Config, s: State): nat {
    |s.adds| + Work(c, s)
  }

  function KnownDue(c: Config, s: State): nat {
    |Known(s)| + Work(c, s)
  }

  lemma PaidAt(c: Config, states: seq<State>, steps: seq<Step>, i: nat)
    requires Unambiguous(c.settings.domains) && CalmRun(c, states, steps) && i < |steps|
    requires Inv(c, states[0]) && WQ.Live(states[0].ingress)
    ensures AddsDue(c, states[i + 1]) <= AddsDue(c, states[i])
    ensures KnownDue(c, states[i + 1]) <= KnownDue(c, states[i])
  {
    CalmRunsKeep(c, states, steps, i);
    assert CalmAt(c, states, steps, i);
    AnnouncementsArePaid(c, states[i], steps[i], states[i + 1]);
  }

  lemma BoundHolds(c: Config, states: seq<State>, steps: seq<Step>, i: nat)
    requires Unambiguous(c.settings.domains) && CalmRun(c, states, steps) && i < |states|
    requires Inv(c, states[0]) && WQ.Live(states[0].ingress)
    ensures AddsDue(c, states[i]) <= AddsDue(c, states[0]) && KnownDue(c, states[i]) <= KnownDue(c, states[0])
  {
    var adds, known := AddsDue(c, states[0]), KnownDue(c, states[0]);
    var inv := (s: State) => AddsDue(c, s) <= adds && KnownDue(c, s) <= known;
    forall j: nat | j + 1 < |states| ensures Carried(inv, states, j) {
      PaidAt(c, states, steps, j);
    }
    Invariantly(inv, states, i);
  }

  lemma CalmStepStaysSound(c: Config, s: State, step: Step, s': State)
    requires Unambiguous(c.settings.domains) && Sound(c, s) && WQ.Live(s.cleaner) && CalmStep(c, s, step, s')
    ensures Sound(c, s') && WQ.Live(s'.cleaner)
  {
    SoundKept(c, s, step);
    CleanerStaysLive(c, s, step);
  }

  lemma CalmRunsStaySound(c: Config, states: seq<State>, steps: seq<Step>, i: nat)
    requires Unambiguous(c.settings.domains) && CalmRun(c, states, steps) && i < |states|
    requires Sound(c, states[0]) && WQ.Live(states[0].cleaner)
    ensures Sound(c, states[i]) && WQ.Live(states[i].cleaner)
  {
    var inv := (s: State) => Sound(c, s) && WQ.Live(s.cleaner);
    forall j: nat | j + 1 < |states| ensures Carried(inv, states, j) {
      assert CalmAt(c, states, steps, j);
      if inv(states[j]) {
        CalmStepStaysSound(c, states[j], steps[j], states[j + 1]);
      }
    }
    Invariantly(inv, states, i);
  }

  /** After the ingress controller's share, the run is in a quiet state in which no orphan needs more
      than the bound. */
  lemma DrainedHalfway(c: Config, states: seq<State>, steps: seq<Step>, k: nat)
    requires Unambiguous(c.settings.domains) && CalmRun(c, states, steps)
    requires Sound(c, states[0]) && WQ.Live(states[0].ingress) && WQ.Live(states[0].cleaner)
    requires FairToIngress(states, steps, k) && |steps| >= k * Work(c, states[0])
    ensures Undisturbed(c, states[|steps|])
    ensures forall name :: NameWork(c, states[|steps|], name) <= SweepBound(c, states[0])
  {
    EveryScheduleDrains(c, states, steps, k);
    CalmRunsKeep(c, states, steps, |steps|);
    CalmRunsStaySound(c, states, steps, |steps|);
    forall name ensures NameWork(c, states[|steps|], name) <= SweepBound(c, states[0]) {
      LaterWorkBounded(c, states, steps, name);
    }
  }

  lemma LaterWorkBounded(c: Config, states: seq<State>, steps: seq<Step>, name: ManagedName)
    requires Unambiguous(c.settings.domains) && CalmRun(c, states, steps)
    requires Inv(c, states[0]) && WQ.Live(states[0].ingress)
    ensures NameWork(c, states[|steps|], name) <= SweepBound(c, states[0])
  {
    BoundHolds(c, states, steps, |steps|);
    CalmRunsKeep(c, states, steps, |steps|);
    NameWorkBounded(c, states[|steps|], name);
  }

  /** Convergence under every fair schedule: from every sound state in which both controllers have a
      worker and are not being stopped, every calm run that is fair to both controllers and has `k` steps
      for each unit of work ends with clusters that agree. */
  lemma EveryScheduleAgrees(c: Config, states: seq<State>, steps: seq<Step>, k: nat, units: nat)
    requires Unambiguous(c.settings.domains) && CalmRun(c, states, steps)
    requires Sound(c, states[0]) && WQ.Live(states[0].ingress) && WQ.Live(states[0].cleaner)
    requires FairToIngress(states, steps, k) && FairToCleaner(states, steps, k)
    requires units >= Work(c, states[0]) + SweepBound(c, states[0]) && |steps| >= k * units
    ensures Agreement(c, states[|steps|])
  {
    var bound := SweepBound(c, states[0]);
    var m := EnoughForBoth(k, Work(c, states[0]), bound, units, |steps|);
    SplitCalm(c, states, steps, m);
    SplitFair(states, steps, m, k);
    DrainedHalfway(c, states[..m + 1], steps[..m], k);
    SweptWithin(c, states[m..], steps[m..], k, bound);
  }

  lemma EnoughForBoth(k: nat, work: nat, bound: nat, units: nat, n: nat) returns (m: nat)
    requires units >= work + bound && n >= k * units
    ensures m == k * work && m <= n && n - m >= k * bound
  {
    LessTimes(k, work + bound, units);
    TimesSum(k, work, bound);
    m := k * work;
  }

  lemma SweptWithin(c: Config, states: seq<State>, steps: seq<Step>, k: nat, bound: nat)
    requires Unambiguous(c.settings.domains) && CalmRun(c, states, steps) && Undisturbed(c, states[0])
    requires FairToCleaner(states, steps, k) && |steps| >= k * bound
    requires forall name :: NameWork(c, states[0], name) <= bound
    ensures Agreement(c, states[|steps|])
  {
    forall name: ManagedName ensures |steps| >= k * NameWork(c, states[0], name) {
      LessTimes(k, NameWork(c, states[0], name), bound);
    }
    EveryScheduleSweeps(c, states, steps, k);
  }

  lemma TimesSum(k: nat, a: nat, b: nat)
    ensures k * (a + b) == k * a + k * b && k * a >= 0 && k * b >= 0
  {}

  lemma SplitCalm(c: Config, states: seq<State>, steps: seq<Step>, m: nat)
    requires CalmRun(c, states, steps) && m <= |steps|
    ensures CalmRun(c, states[..m + 1], steps[..m]) && CalmRun(c, states[m..], steps[m..])
    ensures states[..m + 1][m] == states[m] == states[m..][0] && states[m..][|steps[m..]|] == states[|steps|]
  {
    var first, before, rest, later := states[..m + 1], steps[..m], states[m..], steps[m..];
    forall i: nat | i < |before| ensures CalmAt(c, first, before, i) {
      assert CalmAt(c, states, steps, i);
    }
    forall i: nat | i < |later| ensures CalmAt(c, rest, later, i) {
      assert CalmAt(c, states, steps, m + i);
      assert later[i] == steps[m + i] && rest[i] == states[m + i] && rest[i + 1] == states[m + i + 1];
    }
  }

  /** A part of a fair run is fair. */
  lemma SplitFair(states: seq<State>, steps: seq<Step>, m: nat, k: nat)
    requires |states| == |steps| + 1 && m <= |steps|
    requires FairToIngress(states, steps, k) && FairToCleaner(states, steps, k)
    ensures FairToIngress(states[..m + 1], steps[..m], k) && FairToCleaner(states[m..], steps[m..], k)
  {
    forall i: nat | i + k <= m && !Quiet(states[..m + 1][i]) ensures AdvancesWithin(steps[..m], i, k) {
      assert AdvancesWithin(steps, i, k);
      var j :| i <= j < i + k && j < |steps| && Advances(steps[j]);
      assert steps[..m][j] == steps[j];
    }
    forall i: nat, name: ManagedName |
      i + k <= |steps[m..]| && Quiet(states[m..][i]) && Orphaned(states[m..][i], name)
      ensures HelpedWithin(states[m..], steps[m..], name, i, k)
    {
      assert HelpedWithin(states, steps, name, m + i, k);
      var j :| m + i <= j < m + i + k && j < |steps| && HelpsName(states[j], steps[j], name);
      assert steps[m..][j - m] == steps[j] && states[m..][j - m] == states[j];
    }
  }
}
