/** Reached states, and the steps of small runs that are built one by one. */
module Reach {
  import opened Naming
  import opened TLS
  import opened CopySpec
  import opened Clusters
  import opened Protocol
  import opened Safety
  import WQ = WorkQueue

  ghost predicate Reached(c: Config, s: State) {
    exists states, steps :: IsRun(c, states, steps) && states[|steps|] == s
  }

  lemma ExtendRun(c: Config, states: seq<State>, steps: seq<Step>, step: Step, s': State, i: nat)
    requires IsRun(c, states, steps) && i <= |steps|
    requires Enabled(c, states[|steps|], step) && s' == Next(c, states[|steps|], step)
    ensures StepAt(c, states + [s'], steps + [step], i)
  {
    if i < |steps| {
      assert StepAt(c, states, steps, i);
    }
  }

  lemma ReachStep(c: Config, s: State, step: Step)
    requires Reached(c, s) && Enabled(c, s, step)
    ensures Reached(c, Next(c, s, step))
  {
    var s' := Next(c, s, step);
    var states, steps :| IsRun(c, states, steps) && states[|steps|] == s;
    var states', steps' := states + [s'], steps + [step];
    forall i: nat | i < |steps'| ensures StepAt(c, states', steps', i) {
      ExtendRun(c, states, steps, step, s', i);
    }
    assert IsRun(c, states', steps') && states'[|steps'|] == s';
  }

  lemma ReachInitial(c: Config, s: State)
    requires Initial(c, s)
    ensures Reached(c, s)
  {
    var none: seq<Step> := [];
    assert IsRun(c, [s], none) && [s][|none|] == s;
  }

  const UNDISTURBED := Faults(1, false)

  /** A pool whose only worker is waiting, or has just got its first key. */
  function OneWorker<K(==,!new)>(): WQ.Pool<K> {
    WQ.Pool(WQ.Queue([], {}, {}, {}, false), [WQ.Idle], 1, false, WQ.Spawning)
  }

  function OneInHand<K(==,!new)>(key: K): WQ.Pool<K> {
    WQ.Pool(WQ.Queue([], {}, {key}, {}, false), [WQ.Got(key)], 1, false, WQ.Spawning)
  }

  /** A pool whose only worker waits and whose only key is queued. */
  function OneQueued<K(==,!new)>(key: K): WQ.Pool<K> {
    OneWorker<K>().(q := WQ.Queue([key], {key}, {}, {}, false))
  }

  lemma PoolStarts<K(!new)>(n: nat)
    requires n > 0
    ensures var p1 := WQ.Next(n, WQ.Fresh<K>(), WQ.CachesSynced); var p2 := WQ.Next(n, p1, WQ.Spawn);
      WQ.Next(n, p2, WQ.Enter(0)) == OneWorker<K>()
  {}

  lemma PoolReadies<K(!new)>(n: nat, key: K)
    ensures var p := OneWorker<K>();
      && p.(q := p.q.Add(key)) == OneQueued(key)
      && WQ.Enabled(n, p.(q := p.q.AddLater(key)), WQ.Ready(key))
      && WQ.Next(n, p.(q := p.q.AddLater(key)), WQ.Ready(key)) == OneQueued(key)
  {
    var p := OneWorker<K>();
    assert p.q.AddLater(key).delayed - {key} == {};
    assert p.q.queue + [key] == [key];
  }

  lemma PoolTakes<K(!new)>(n: nat, key: K)
    ensures WQ.Enabled(n, OneQueued(key), WQ.Get(0)) && WQ.Next(n, OneQueued(key), WQ.Get(0)) == OneInHand(key)
  {
    assert {key} - {key} == {} && [key][1..] == [];
  }

  lemma IngressStep(c: Config, s: State, a: WQ.Act<TargetKey>) returns (s': State)
    requires Reached(c, s) && WQ.Enabled(c.ingressWorkers, s.ingress, a) && !a.AddNow? && !a.AddDelayed? && !a.Run?
    ensures Reached(c, s') && s' == s.(ingress := WQ.Next(c.ingressWorkers, s.ingress, a))
  {
    ReachStep(c, s, Ingress(a, NOTHING, UNDISTURBED));
    s' := Next(c, s, Ingress(a, NOTHING, UNDISTURBED));
  }

  lemma IngressStarts(c: Config, s: State) returns (s': State)
    requires Reached(c, s) && c.ingressWorkers > 0 && s.ingress == WQ.Fresh()
    ensures Reached(c, s') && s' == s.(ingress := OneWorker())
  {
    s' := IngressStep(c, s, WQ.CachesSynced);
    s' := IngressStep(c, s', WQ.Spawn);
    s' := IngressStep(c, s', WQ.Enter(0));
    PoolStarts<TargetKey>(c.ingressWorkers);
  }

  lemma IngressTakes(c: Config, s: State, key: TargetKey) returns (s': State)
    requires Reached(c, s) && s.ingress == OneWorker()
    requires s.notices != [] && s.notices[0].key == key && Enqueues(s.notices[0])
    ensures Reached(c, s') && s' == s.(notices := s.notices[1..], ingress := OneInHand(key))
  {
    ReachStep(c, s, Notify);
    s' := Next(c, s, Notify);
    PoolReadies(c.ingressWorkers, key);
    s' := IngressStep(c, s', WQ.Ready(key));
    PoolTakes(c.ingressWorkers, key);
    s' := IngressStep(c, s', WQ.Get(0));
  }

  /** A fresh ingress controller starts one worker, is told of one Ingress and creates its counterpart. */
  lemma IngressRound(c: Config, s: State, key: TargetKey, copy: CopyResult) returns (s': State)
    requires Reached(c, s) && c.ingressWorkers > 0 && s.ingress == WQ.Fresh() && s.making == map[]
    requires s.notices != [] && s.notices[0].key == key && Enqueues(s.notices[0])
    requires CopyOutcomeFor(c, s, key, copy) && Creates(s, key, copy)
    ensures Reached(c, s') && s'.target == s.target && s'.cleaner == s.cleaner && s'.removing == s.removing
    ensures s'.b == IngressSync(c, s, key, copy, UNDISTURBED).broker && s.adds <= s'.adds
  {
    var s1 := IngressStarts(c, s);
    var s2 := IngressTakes(c, s1, key);
    var fill, run := Template(0, copy), Ingress(WQ.Run(0, WQ.Forget), copy, UNDISTURBED);
    ReachStep(c, s2, fill);
    var s3 := Next(c, s2, fill);
    TwoHalvesMakeSync(c, s2, 0, copy, copy, UNDISTURBED);
    assert IngressSync(c, s2, key, copy, UNDISTURBED) == IngressSync(c, s, key, copy, UNDISTURBED);
    ReachStep(c, s3, run);
    s' := Next(c, s3, run);
  }

  ghost predicate CopyOutcomeFor(c: Config, s: State, key: TargetKey, copy: CopyResult) {
    key in s.target && CopyOutcome(c.settings.domains, s.target[key].tls, copy)
  }

  lemma CleanerStep(c: Config, s: State, a: WQ.Act<ManagedName>) returns (s': State)
    requires Reached(c, s) && WQ.Enabled(c.cleanerWorkers, s.cleaner, a) && !a.AddNow? && !a.AddDelayed? && !a.Run?
    ensures Reached(c, s') && s' == s.(cleaner := WQ.Next(c.cleanerWorkers, s.cleaner, a))
  {
    ReachStep(c, s, Cleaner(a, UNDISTURBED));
    s' := Next(c, s, Cleaner(a, UNDISTURBED));
  }

  lemma CleanerStarts(c: Config, s: State) returns (s': State)
    requires Reached(c, s) && c.cleanerWorkers > 0 && s.cleaner == WQ.Fresh()
    ensures Reached(c, s') && s' == s.(cleaner := OneWorker())
  {
    s' := CleanerStep(c, s, WQ.CachesSynced);
    s' := CleanerStep(c, s', WQ.Spawn);
    s' := CleanerStep(c, s', WQ.Enter(0));
    PoolStarts<ManagedName>(c.cleanerWorkers);
  }

  lemma CleanerTakes(c: Config, s: State, name: ManagedName) returns (s': State)
    requires Reached(c, s) && s.cleaner == OneWorker() && s.adds != [] && s.adds[0] == name
    ensures Reached(c, s') && s' == s.(adds := s.adds[1..], cleaner := OneInHand(name))
  {
    ReachStep(c, s, NotifyAdd);
    s' := Next(c, s, NotifyAdd);
    PoolReadies(c.cleanerWorkers, name);
    PoolTakes(c.cleanerWorkers, name);
    s' := CleanerStep(c, s', WQ.Get(0));
  }

  /** An Ingress whose one host is a managed domain itself. */
  function OneHost(domain: string): seq<IngressTLS> {
    [IngressTLS([domain], "s")]
  }

  lemma OneHostCopied(domains: Domains, d: string)
    requires Unambiguous(domains) && d in domains
    ensures Copy(domains, OneHost(d)) == CopyResult(OneHost(d), domains[d])
    ensures Providers(domains, d) == {domains[d]}
  {
    var tls := OneHost(d);
    assert d[0..] == d && HasSuffix(d, d);
    assert [d][..0] == [] && tls[..0] == [];
    assert Keep(domains, [d]) == [d];
    assert ManagedHosts(domains, tls) == [d];
    assert domains[d] in Providers(domains, d);
    OnlyProvider(domains, d, domains[d]);
    CopyRefines(domains, tls, Copy(domains, tls));
    CopyNothing(domains, tls);
    SuccessOutcomes(domains, tls, CopyResult(tls, domains[d]));
    CopyRefines(domains, tls, CopyResult(tls, domains[d]));
  }

  lemma OnlyProvider(domains: Domains, host: string, p: string)
    requires SuffixesAgree(domains) && p in Providers(domains, host)
    ensures Providers(domains, host) == {p}
  {
    forall q | q in Providers(domains, host) ensures q == p {
      OneProvider(domains, host, p, q);
    }
  }

  function LabelledIngress(tls: seq<IngressTLS>): TargetIngress {
    TargetIngress(map[GARDEN_PURPOSE := MANAGED_CERT], tls)
  }

  /** What is copied of an Ingress for `d`. */
  lemma OneHostCopy(c: Config, d: string) returns (copy: CopyResult)
    requires Unambiguous(c.settings.domains) && d in c.settings.domains
    ensures copy == CopyResult(OneHost(d), c.settings.domains[d])
    ensures CopyOutcome(c.settings.domains, OneHost(d), copy)
    ensures Providers(c.settings.domains, d) == {c.settings.domains[d]}
  {
    copy := CopyResult(OneHost(d), c.settings.domains[d]);
    OneHostCopied(c.settings.domains, d);
    CopyRefines(c.settings.domains, OneHost(d), copy);
  }

  lemma TwoKeys() returns (a: TargetKey, b: TargetKey)
    ensures a != b && FilterAccepts(ControlName(a)) && FilterAccepts(ControlName(b))
    ensures TargetOf(ControlName(a)) == a && ControlName(a) != ControlName(b)
  {
    a, b := Key("n", "a"), Key("n", "b");
    NameOfKey(a);
    NameOfKey(b);
  }
}
