/** Fair schedules exist: from every sound state with live workers, calm runs of any length that are
    fair to both controllers. */
module Schedules {
  import opened Naming
  import opened CopySpec
  import opened Clusters
  import opened Protocol
  import opened Safety
  import opened Convergence
  import opened Fairness
  import opened Runs
  import opened Sweep
  import WQ = WorkQueue

  // ---- Orphans leave only by a step that helps them ----

  lemma OnlyItsRunRemoves(c: Config, s: State, step: Step, s': State, name: ManagedName)
    requires PoolsOk(c, s) && Quiet(s) && CalmStep(c, s, step, s') && Orphaned(s, name) && !Orphaned(s', name)
    ensures HelpsName(s, step, name)
  {
    if step.Cleaner? && step.cact.Run? {
      RunSparesOthers(c, s, step, name);
      ItsRunHelps(s, step, name);
    } else {
      OthersRemoveNothing(c, s, step);
      assert Orphaned(s', name);
    }
  }

  lemma ItsRunHelps(s: State, step: Step, name: ManagedName)
    requires step.Cleaner? && step.cact.Run? && step.cact.w < |s.cleaner.workers|
    requires s.cleaner.workers[step.cact.w] == WQ.Got(name)
    ensures HelpsName(s, step, name)
  {
    assert InHand(s.cleaner, name);
  }

  /** A run removes nothing but its own name, and no edit is a run. */
  lemma RunSparesOthers(c: Config, s: State, step: Step, name: ManagedName)
    requires Enabled(c, s, step) && step.Cleaner? && step.cact.Run? && name in s.b.control.ingresses
    ensures step.cact.w < |s.cleaner.workers| && Next(c, s, step).target == s.target
    ensures s.cleaner.workers[step.cact.w] != WQ.Got(name) ==> name in Next(c, s, step).b.control.ingresses
  {
    var ran := s.cleaner.workers[step.cact.w].key;
    CleanerRunIsNext(c, s, step);
    assert ran != name ==> name in CleanerRun(c, s, ran, step.f).control.ingresses by {
      if ran != name {
        RunSpares(c, s, ran, step.f, name);
      }
    }
  }

  lemma RunSpares(c: Config, s: State, ran: ManagedName, f: Faults, name: ManagedName)
    requires ran != name && name in s.b.control.ingresses
    ensures name in CleanerRun(c, s, ran, f).control.ingresses
  {}

  lemma OthersRemoveNothing(c: Config, s: State, step: Step)
    requires PoolsOk(c, s) && Quiet(s)
    requires Calm(step) && Enabled(c, s, step) && !(step.Cleaner? && step.cact.Run?)
    ensures Next(c, s, step).b.control.ingresses == s.b.control.ingresses && Next(c, s, step).target == s.target
  {
    if step.Ingress? {
      QuietPoolKept(c.ingressWorkers, s.ingress, step.iact);
    }
  }

  lemma GoneByHelp(c: Config, states: seq<State>, steps: seq<Step>, name: ManagedName, j: nat)
    requires Unambiguous(c.settings.domains) && CalmRun(c, states, steps) && Undisturbed(c, states[0])
    requires j < |steps|
    ensures DoneByAct(GoneAt(states, name), HelpsAt(states, steps, name), j)
  {
    RunsStayUndisturbed(c, states, steps, j);
    assert CalmAt(c, states, steps, j);
    if Orphaned(states[j], name) && !Orphaned(states[j + 1], name) {
      OnlyItsRunRemoves(c, states[j], steps[j], states[j + 1], name);
    }
  }

  // ---- One round: a step for every orphan ----

  /** Of the steps, one helps `name`. */
  ghost predicate Helped(states: seq<State>, steps: seq<Step>, name: ManagedName)
    requires |states| == |steps| + 1
  {
    Within(HelpsAt(states, steps, name), 0, |steps|)
  }

  lemma HelpedFirst(s: State, step: Step, rest: seq<State>, later: seq<Step>, name: ManagedName)
    requires |rest| == |later| + 1 && (HelpsName(s, step, name) || Helped(rest, later, name))
    ensures Helped([s] + rest, [step] + later, name)
  {
    var states, steps := [s] + rest, [step] + later;
    if HelpsName(s, step, name) {
      assert HelpsAt(states, steps, name)[0];
    } else {
      var j :| 0 <= j < |later| && HelpsAt(rest, later, name)[j];
      assert states[j + 1] == rest[j] && steps[j + 1] == later[j];
      assert HelpsAt(states, steps, name)[j + 1];
    }
  }

  ghost predicate AllHelped(states: seq<State>, steps: seq<Step>, names: seq<ManagedName>)
    requires |states| == |steps| + 1
  {
    forall name :: name in names && Orphaned(states[0], name) ==> Helped(states, steps, name)
  }

  lemma {:induction false} SweepRound(c: Config, s: State, names: seq<ManagedName>)
    returns (states: seq<State>, steps: seq<Step>)
    requires Unambiguous(c.settings.domains) && Undisturbed(c, s)
    ensures CalmRun(c, states, steps) && states[0] == s && |steps| <= |names|
    ensures AllHelped(states, steps, names)
    decreases |names|
  {
    if names == [] {
      return [s], [];
    }
    if !Orphaned(s, names[0]) {
      states, steps := SweepRound(c, s, names[1..]);
      return;
    }
    var step, s' := HelpOnce(c, s, names[0]);
    var rest, later := SweepRound(c, s', names[1..]);
    states, steps := [s] + rest, [step] + later;
    PrependCalm(c, s, step, rest, later);
    forall name | name in names && Orphaned(s, name) ensures Helped(states, steps, name) {
      if !HelpsName(s, step, name) && !Orphaned(s', name) {
        OnlyItsRunRemoves(c, s, step, s', name);
      }
      HelpedFirst(s, step, rest, later, name);
    }
  }

  lemma HelpOnce(c: Config, s: State, name: ManagedName) returns (step: Step, s': State)
    requires Unambiguous(c.settings.domains) && Undisturbed(c, s) && Orphaned(s, name)
    ensures CalmStep(c, s, step, s') && HelpsName(s, step, name) && Undisturbed(c, s')
  {
    step := CanSweep(c, s, name);
    s' := Next(c, s, step);
    UndisturbedKept(c, s, step, s');
  }

  // ---- Round after round ----

  /** Fair to one name, and helpful to it soon. */
  ghost predicate FairTo(states: seq<State>, steps: seq<Step>, name: ManagedName, h: nat)
    requires |states| == |steps| + 1
  {
    var done, acts := GoneAt(states, name), HelpsAt(states, steps, name);
    FairActs(done, acts, 2 * h) && Soon(done, acts, h)
  }

  lemma SplitSeqs(first: seq<State>, steps: seq<Step>, second: seq<State>, later: seq<Step>, name: ManagedName)
    requires |first| == |steps| + 1 && |second| == |later| + 1 && first[|steps|] == second[0]
    ensures GoneAt(first + second[1..], name) == GoneAt(first, name) + GoneAt(second, name)[1..]
    ensures HelpsAt(first + second[1..], steps + later, name)
         == HelpsAt(first, steps, name) + HelpsAt(second, later, name)
  {
    var states, all := first + second[1..], steps + later;
    forall i | 0 <= i < |all|
      ensures HelpsAt(states, all, name)[i] == (HelpsAt(first, steps, name) + HelpsAt(second, later, name))[i]
    {
      if i >= |steps| {
        assert states[i] == second[i - |steps|] && all[i] == later[i - |steps|];
      }
    }
  }

  lemma RoundIsFair(
    c: Config, first: seq<State>, steps: seq<Step>, second: seq<State>, later: seq<Step>, name: ManagedName, h: nat)
    requires Unambiguous(c.settings.domains) && CalmRun(c, first, steps) && Undisturbed(c, first[0])
    requires |second| == |later| + 1 && first[|steps|] == second[0] && |steps| <= h
    requires Orphaned(first[0], name) ==> Helped(first, steps, name)
    requires FairTo(second, later, name, h)
    ensures FairTo(first + second[1..], steps + later, name, h)
  {
    var done, acts := GoneAt(first, name), HelpsAt(first, steps, name);
    forall m: nat | m < |acts| ensures DoneByAct(done, acts, m) {
      GoneByHelp(c, first, steps, name, m);
    }
    RoundThenFair(done, acts, GoneAt(second, name), HelpsAt(second, later, name), h);
    SplitSeqs(first, steps, second, later, name);
  }

  /** After a round in which it was helped, an orphan needs less. */
  lemma RoundWorks(c: Config, states: seq<State>, steps: seq<Step>, name: ManagedName)
    requires Unambiguous(c.settings.domains) && CalmRun(c, states, steps) && Undisturbed(c, states[0])
    requires Orphaned(states[0], name) ==> Helped(states, steps, name)
    ensures Orphaned(states[|steps|], name) ==>
      Orphaned(states[0], name) && NameWork(c, states[|steps|], name) < NameWork(c, states[0], name)
  {
    var done, work, acts := GoneAt(states, name), NameWorkAt(c, states, name), HelpsAt(states, steps, name);
    OrphanIsProcess(c, states, steps, name);
    ProcessWorks(done, work, acts);
    assert work[0] == NameWork(c, states[0], name) && work[|steps|] == NameWork(c, states[|steps|], name);
  }

  lemma ProcessWorks(done: seq<bool>, work: seq<nat>, acts: seq<bool>)
    requires Process(done, work, acts) && (!done[0] ==> Within(acts, 0, |acts|))
    ensures !done[|acts|] ==> !done[0] && work[|acts|] < work[0]
  {
    DoneStays(done, work, acts, 0, |acts|);
    if !done[|acts|] {
      WindowWorks(done, work, acts, |acts|, 0);
    }
  }

  ghost predicate Covers(c: Config, s: State, names: seq<ManagedName>, r: nat) {
    forall name :: Orphaned(s, name) ==> name in names && NameWork(c, s, name) <= r
  }

  /** Rounds until no orphan is left, and then steps that change nothing much. */
  lemma {:induction false} FairSweep(c: Config, s: State, names: seq<ManagedName>, r: nat, length: nat)
    returns (states: seq<State>, steps: seq<Step>)
    requires Unambiguous(c.settings.domains) && Undisturbed(c, s) && Covers(c, s, names, r)
    ensures CalmRun(c, states, steps) && states[0] == s && |steps| >= length
    ensures forall name :: FairTo(states, steps, name, |names|)
    decreases r
  {
    if r == 0 {
      states, steps := Pad(c, s, length);
      forall name ensures FairTo(states, steps, name, |names|) {
        NameWorkIsSome(c, s, name);
        NoOrphanIsFair(c, states, steps, name, |names|);
      }
      return;
    }
    var first, round := SweepRound(c, s, names);
    var s' := first[|round|];
    RunsStayUndisturbed(c, first, round, |round|);
    forall name | Orphaned(s', name) ensures name in names && NameWork(c, s', name) <= r - 1 {
      AfterRound(c, first, round, names, name);
    }
    var second, later := FairSweep(c, s', names, r - 1, length);
    states, steps := first + second[1..], round + later;
    AppendCalm(c, first, round, second, later);
    forall name ensures FairTo(states, steps, name, |names|) {
      assert Orphaned(s, name) ==> Helped(first, round, name);
      RoundIsFair(c, first, round, second, later, name, |names|);
    }
  }

  lemma AfterRound(c: Config, states: seq<State>, steps: seq<Step>, names: seq<ManagedName>, name: ManagedName)
    requires Unambiguous(c.settings.domains) && CalmRun(c, states, steps) && Undisturbed(c, states[0])
    requires AllHelped(states, steps, names) && (Orphaned(states[0], name) ==> name in names)
    requires Orphaned(states[|steps|], name)
    ensures name in names && NameWork(c, states[|steps|], name) < NameWork(c, states[0], name)
    ensures Orphaned(states[0], name)
  {
    RoundWorks(c, states, steps, name);
  }

  lemma NoOrphanIsFair(c: Config, states: seq<State>, steps: seq<Step>, name: ManagedName, h: nat)
    requires Unambiguous(c.settings.domains) && CalmRun(c, states, steps) && Undisturbed(c, states[0])
    requires !Orphaned(states[0], name)
    ensures FairTo(states, steps, name, h)
  {
    var done, work, acts := GoneAt(states, name), NameWorkAt(c, states, name), HelpsAt(states, steps, name);
    OrphanIsProcess(c, states, steps, name);
    forall i: nat | i <= |steps| ensures done[i] {
      DoneStays(done, work, acts, 0, i);
    }
  }

  lemma {:induction false} Pad(c: Config, s: State, length: nat) returns (states: seq<State>, steps: seq<Step>)
    ensures CalmRun(c, states, steps) && states[0] == s && |steps| == length
    decreases length
  {
    if length == 0 {
      return [s], [];
    }
    var step := Issue("", map[]);
    var rest, later := Pad(c, Next(c, s, step), length - 1);
    states, steps := [s] + rest, [step] + later;
    PrependCalm(c, s, step, rest, later);
  }

  lemma AppendCalm(c: Config, first: seq<State>, steps: seq<Step>, second: seq<State>, later: seq<Step>)
    requires CalmRun(c, first, steps) && CalmRun(c, second, later) && first[|steps|] == second[0]
    ensures CalmRun(c, first + second[1..], steps + later)
    ensures (first + second[1..])[|steps| + |later|] == second[|later|]
  {
    var states, all := first + second[1..], steps + later;
    forall i: nat | i < |all| ensures CalmAt(c, states, all, i) {
      if i < |steps| {
        assert CalmAt(c, first, steps, i);
        assert states[i] == first[i] && states[i + 1] == first[i + 1] && all[i] == steps[i];
      } else {
        var j := i - |steps|;
        assert CalmAt(c, second, later, j);
        assert states[i] == second[j] && states[i + 1] == second[j + 1] && all[i] == later[j];
      }
    }
  }

  // ---- From any sound state ----

  lemma {:induction false} ListNames(all: set<string>) returns (names: seq<ManagedName>)
    ensures forall name: ManagedName :: name in all ==> name in names
    decreases |all|
  {
    if one :| one in all {
      WQ.RemoveSize(all, one);
      names := ListNames(all - {one});
      if FilterAccepts(one) {
        names := [one] + names;
      }
    } else {
      names := [];
    }
  }

  /** A run that only works off what there is to do, followed by a quiet one. */
  ghost predicate Joined(first: seq<State>, drained: seq<Step>, second: seq<State>, later: seq<Step>) {
    && |first| == |drained| + 1 && |second| == |later| + 1 && first[|drained|] == second[0]
    && OnlyWork(first, drained) && (forall i :: 0 <= i < |second| ==> Quiet(second[i]))
  }

  lemma JoinedStates(first: seq<State>, drained: seq<Step>, second: seq<State>, later: seq<Step>, i: nat)
    requires Joined(first, drained, second, later) && i < |drained + later|
    ensures var states, steps := first + second[1..], drained + later;
      if i < |drained| then !Quiet(states[i]) && Advances(steps[i]) else Quiet(states[i])
  {
    if i < |drained| {
      assert WorkAtStep(first, drained, i);
    } else {
      assert (first + second[1..])[i] == second[i - |drained|];
    }
  }

  lemma JoinedIsFair(first: seq<State>, drained: seq<Step>, second: seq<State>, later: seq<Step>, h: nat)
    requires Joined(first, drained, second, later) && forall name :: FairTo(second, later, name, h)
    ensures var states, steps := first + second[1..], drained + later;
      FairToIngress(states, steps, 2 * h + 1) && FairToCleaner(states, steps, 2 * h + 1)
  {
    var states, steps, k := first + second[1..], drained + later, 2 * h + 1;
    forall i: nat | i + k <= |steps| && !Quiet(states[i]) ensures AdvancesWithin(steps, i, k) {
      JoinedStates(first, drained, second, later, i);
      assert Advances(steps[i]);
    }
    forall i: nat, name: ManagedName | i + k <= |steps| && Quiet(states[i]) && Orphaned(states[i], name)
      ensures HelpedWithin(states, steps, name, i, k)
    {
      JoinedStates(first, drained, second, later, i);
      HelpedLater(first, drained, second, later, name, h, i);
    }
  }

  lemma HelpedLater(
    first: seq<State>, drained: seq<Step>, second: seq<State>, later: seq<Step>, name: ManagedName, h: nat, i: nat)
    requires |first| == |drained| + 1 && |second| == |later| + 1 && first[|drained|] == second[0]
    requires |drained| <= i && i + 2 * h + 1 <= |drained + later| && FairTo(second, later, name, h)
    requires Orphaned((first + second[1..])[i], name)
    ensures HelpedWithin(first + second[1..], drained + later, name, i, 2 * h + 1)
  {
    var states, steps, m := first + second[1..], drained + later, i - |drained|;
    assert states[i] == second[m];
    assert Within(HelpsAt(second, later, name), m, 2 * h);
    var j :| m <= j < m + 2 * h && j < |later| && HelpsAt(second, later, name)[j];
    assert states[|drained| + j] == second[j] && steps[|drained| + j] == later[j];
  }

  lemma DrainFirst(c: Config, s: State) returns (first: seq<State>, drained: seq<Step>)
    requires Unambiguous(c.settings.domains) && Sound(c, s) && WQ.Live(s.ingress) && WQ.Live(s.cleaner)
    ensures CalmRun(c, first, drained) && first[0] == s && OnlyWork(first, drained)
    ensures Undisturbed(c, first[|drained|])
  {
    first, drained := ReachesQuiet(c, s);
    CalmRunsKeep(c, first, drained, |drained|);
    CalmRunsStaySound(c, first, drained, |drained|);
  }

  lemma SweepFairly(c: Config, s: State, units: nat) returns (states: seq<State>, steps: seq<Step>, h: nat)
    requires Unambiguous(c.settings.domains) && Undisturbed(c, s)
    ensures CalmRun(c, states, steps) && states[0] == s && |steps| >= (2 * h + 1) * units
    ensures forall name :: FairTo(states, steps, name, h)
    ensures forall i :: 0 <= i < |states| ==> Quiet(states[i])
  {
    var names := ListNames(s.b.control.ingresses.Keys);
    h := |names|;
    AllCovered(c, s, names);
    states, steps := FairSweep(c, s, names, SweepBound(c, s), Times(2 * h + 1, units));
    AllQuiet(c, states, steps);
  }

  lemma AllCovered(c: Config, s: State, names: seq<ManagedName>)
    requires PoolsOk(c, s) && forall name: ManagedName :: name in s.b.control.ingresses ==> name in names
    ensures Covers(c, s, names, SweepBound(c, s))
  {
    forall name | Orphaned(s, name) ensures name in names && NameWork(c, s, name) <= SweepBound(c, s) {
      NameWorkBounded(c, s, name);
    }
  }

  lemma AllQuiet(c: Config, states: seq<State>, steps: seq<Step>)
    requires Unambiguous(c.settings.domains) && CalmRun(c, states, steps) && Undisturbed(c, states[0])
    ensures forall i :: 0 <= i < |states| ==> Quiet(states[i])
  {
    forall i | 0 <= i < |states| ensures Quiet(states[i]) {
      RunsStayUndisturbed(c, states, steps, i);
    }
  }

  function Times(k: nat, units: nat): (n: nat)
    ensures n == k * units
  {
    k * units
  }

  lemma JoinFair(
    c: Config, first: seq<State>, drained: seq<Step>, second: seq<State>, later: seq<Step>, h: nat)
    requires CalmRun(c, first, drained) && CalmRun(c, second, later) && Joined(first, drained, second, later)
    requires forall name :: FairTo(second, later, name, h)
    ensures var states, steps := first + second[1..], drained + later;
      && CalmRun(c, states, steps) && states[0] == first[0] && |steps| >= |later|
      && FairToIngress(states, steps, 2 * h + 1) && FairToCleaner(states, steps, 2 * h + 1)
  {
    AppendCalm(c, first, drained, second, later);
    JoinedIsFair(first, drained, second, later, h);
  }

  /** Fair schedules of any length exist from every sound state with live workers. */
  lemma FairSchedulesExist(c: Config, s: State, units: nat) returns (states: seq<State>, steps: seq<Step>, k: nat)
    requires Unambiguous(c.settings.domains) && Sound(c, s) && WQ.Live(s.ingress) && WQ.Live(s.cleaner)
    ensures CalmRun(c, states, steps) && states[0] == s && k > 0 && |steps| >= k * units
    ensures FairToIngress(states, steps, k) && FairToCleaner(states, steps, k)
  {
    var first, drained := DrainFirst(c, s);
    var second, later, h := SweepFairly(c, first[|drained|], units);
    JoinFair(c, first, drained, second, later, h);
    states, steps, k := first + second[1..], drained + later, 2 * h + 1;
  }

  /** So from every such state some run of calm steps leads to a state in which the clusters agree. */
  lemma ReachesAgreement(c: Config, s: State) returns (states: seq<State>, steps: seq<Step>)
    requires Unambiguous(c.settings.domains) && Sound(c, s) && WQ.Live(s.ingress) && WQ.Live(s.cleaner)
    ensures CalmRun(c, states, steps) && states[0] == s && Agreement(c, states[|steps|])
  {
    var units, k := Work(c, s) + SweepBound(c, s), 0;
    states, steps, k := FairSchedulesExist(c, s, units);
    EveryScheduleAgrees(c, states, steps, k, units);
  }
}
