/** A run of the event replicator that drops an event, built step by step. */
module EventDrops {
  import opened Naming
  import opened Reach
  import opened Events
  import WQ = WorkQueue

  ghost predicate Reached(n: nat, s: State) {
    exists states, steps :: IsRun(n, states, steps) && states[|steps|] == s
  }

  lemma ExtendRun(n: nat, states: seq<State>, steps: seq<Step>, step: Step, s': State, i: nat)
    requires IsRun(n, states, steps) && i <= |steps|
    requires Enabled(n, states[|steps|], step) && s' == Next(n, states[|steps|], step)
    ensures StepAt(n, states + [s'], steps + [step], i)
  {
    if i < |steps| {
      assert StepAt(n, states, steps, i);
    }
  }

  lemma ReachStep(n: nat, s: State, step: Step) returns (s': State)
    requires Reached(n, s) && Enabled(n, s, step)
    ensures Reached(n, s') && s' == Next(n, s, step)
  {
    s' := Next(n, s, step);
    var states, steps :| IsRun(n, states, steps) && states[|steps|] == s;
    var states', steps' := states + [s'], steps + [step];
    forall i: nat | i < |steps'| ensures StepAt(n, states', steps', i) {
      ExtendRun(n, states, steps, step, s', i);
    }
    assert IsRun(n, states', steps') && states'[|steps'|] == s';
  }

  lemma PoolStep(n: nat, s: State, a: WQ.Act<string>) returns (s': State)
    requires Reached(n, s) && WQ.Enabled(n, s.pool, a) && !a.AddNow? && !a.AddDelayed? && !a.Run?
    ensures Reached(n, s') && s' == s.(pool := WQ.Next(n, s.pool, a))
  {
    s' := ReachStep(n, s, Act(a, UNDISTURBED));
  }

  /** A replicator starts with one event, of a certificate without owners. */
  function Start(name: string, e: Event): State {
    State(World(map[e.involved.cert := []], {}), map[name := e], WQ.Fresh(), [Notice(name, None, Some(e))], {})
  }

  lemma StartIsReached(n: nat, name: string, e: Event)
    requires CertificateIsInvolved(e) && e.annotations.None?
    ensures Reached(n, Start(name, e))
  {
    var none: seq<Step> := [];
    assert Start(name, e).notices[0] == Notice(name, None, Some(e));
    assert IsRun(n, [Start(name, e)], none) && [Start(name, e)][|none|] == Start(name, e);
  }

  lemma GetsEvent(n: nat, s: State, name: string, e: Event) returns (s': State)
    requires n > 0 && Reached(n, s) && s.pool == WQ.Fresh() && s.notices == [Notice(name, None, Some(e))]
    requires CertificateIsInvolved(e) && e.annotations.None?
    ensures Reached(n, s') && s' == s.(notices := [], pool := OneInHand(name))
  {
    s' := PoolStep(n, s, WQ.CachesSynced);
    s' := PoolStep(n, s', WQ.Spawn);
    s' := PoolStep(n, s', WQ.Enter(0));
    PoolStarts<string>(n);
    s' := ReachStep(n, s', Notify);
    PoolReadies(n, name);
    s' := PoolStep(n, s', WQ.Ready(name));
    PoolTakes(n, name);
    s' := PoolStep(n, s', WQ.Get(0));
  }

  /** With a worker, a run drops the event of every certificate that has no owners yet. */
  lemma DropHappens(n: nat, name: string, e: Event) returns (s: State, step: Step)
    requires n > 0 && CertificateIsInvolved(e) && e.annotations.None?
    ensures Reached(n, s) && Drops(n, s, step) && s.events == map[name := e]
  {
    StartIsReached(n, name, e);
    s := GetsEvent(n, Start(name, e), name, e);
    step := Act(WQ.Run(0, WQ.Forget), UNDISTURBED);
    assert s.pool.workers[0] == WQ.Got(name);
    assert WQ.Next(n, s.pool, step.act).workers == [WQ.Ran(name, WQ.Forget)];
  }
}
