/** The template is shared: when one of its users spoils the provider of another. */
module Overwrite {
  import opened Naming
  import opened TLS
  import opened CopySpec
  import opened Prefix
  import opened Clusters
  import opened Protocol
  import opened Safety
  import opened Reach
  import WQ = WorkQueue

  /** A fresh cleaner starts one worker and looks at one control Ingress that has a labelled counterpart. */
  lemma CleanerRound(c: Config, s: State, name: ManagedName) returns (s': State)
    requires Reached(c, s) && c.cleanerWorkers > 0 && s.cleaner == WQ.Fresh() && s.removing == map[]
    requires s.adds != [] && s.adds[0] == name
    requires var r := CleanerSync(c, s, name, UNDISTURBED); r.err.None? && r.requeue
    ensures Reached(c, s') && s'.b == s.b.(control := CleanerSync(c, s, name, UNDISTURBED).control)
  {
    var s0 := CleanerStarts(c, s);
    var s1 := CleanerTakes(c, s0, name);
    var run := Cleaner(WQ.Run(0, WQ.Again), UNDISTURBED);
    assert CleanerSync(c, s1, name, UNDISTURBED) == CleanerSync(c, s, name, UNDISTURBED);
    ReachStep(c, s1, run);
    s' := Next(c, s1, run);
  }

  /** A broker starts with one replicated Ingress for `d` and a new one for `e`. */
  function Start(c: Config, a: TargetKey, b: TargetKey, d: string, e: string): State
    requires d in c.settings.domains && FilterAccepts(ControlName(a))
  {
    var ingressA, ingressB := LabelledIngress(OneHost(d)), LabelledIngress(OneHost(e));
    State(map[a := ingressA, b := ingressB],
      Broker(Control(map[ControlName(a) :=
        ControlIngress(Prefixed(a.ns, OneHost(d)), map[DNS_PROVIDER_KEY := c.settings.domains[d]])], map[]), ""),
      map[], map[], map[], WQ.Fresh(), WQ.Fresh(),
      [Notice(b, None, Some(ingressB)), Notice(a, None, Some(ingressA))], [ControlName(a)])
  }

  lemma StartIsInitial(c: Config, a: TargetKey, b: TargetKey, d: string, e: string)
    requires Unambiguous(c.settings.domains) && d in c.settings.domains && a != b
    requires FilterAccepts(ControlName(a))
    ensures Initial(c, Start(c, a, b, d, e))
  {
    var s := Start(c, a, b, d, e);
    StartIsOwned(c, a, b, d, e);
    assert s.notices[0].key == b && s.notices[1].key == a;
    assert s.adds[0] == ControlName(a);
    assert Lists(s, s.notices, s.adds);
  }

  lemma StartIsOwned(c: Config, a: TargetKey, b: TargetKey, d: string, e: string)
    requires Unambiguous(c.settings.domains) && d in c.settings.domains
    requires FilterAccepts(ControlName(a))
    ensures var s := Start(c, a, b, d, e);
      Owned(c.settings.domains, s.b.control) && ProvidersFit(c.settings.domains, s.b.control)
  {
    var domains := c.settings.domains;
    OneHostCopied(domains, d);
    var ingress := ControlIngress(Prefixed(a.ns, OneHost(d)), map[DNS_PROVIDER_KEY := domains[d]]);
    assert DNS_PROVIDER_KEY in ingress.annotations;
    CopiedIngressOk(domains, a, OneHost(d), CopyResult(OneHost(d), domains[d]), ingress);
  }

  /** The cleaner's overwrite of the Ingress for `d` after the template was last used for `e`. */
  lemma SpoiltByOverwrite(c: Config, s: State, a: TargetKey, d: string, e: string)
    requires Unambiguous(c.settings.domains) && c.settings.updateIngresses
    requires d in c.settings.domains && e in c.settings.domains && c.settings.domains[d] != c.settings.domains[e]
    requires a in s.target && Labelled(s.target[a]) && s.b.provider == c.settings.domains[e]
    requires ControlName(a) in s.b.control.ingresses
    requires s.b.control.ingresses[ControlName(a)]
          == ControlIngress(Prefixed(a.ns, OneHost(d)), map[DNS_PROVIDER_KEY := c.settings.domains[d]])
    requires FilterAccepts(ControlName(a))
    ensures var r := CleanerSync(c, s, ControlName(a), UNDISTURBED);
      r.err.None? && r.requeue && !ProvidersFit(c.settings.domains, r.control)
  {
    var domains := c.settings.domains;
    NameOfKey(a);
    OneHostCopied(domains, d);
    var before := s.b.control.ingresses[ControlName(a)];
    assert DNS_PROVIDER_KEY in before.annotations;
    var after := CleanerSync(c, s, ControlName(a), UNDISTURBED).control.ingresses[ControlName(a)];
    assert after.annotations[DNS_PROVIDER_KEY] == domains[e];
    assert after.tls[0] in after.tls && after.tls[0].hosts == [d] && d in after.tls[0].hosts;
  }

  /** With the overwrite switched on and two providers configured, some run ends with a control
      Ingress under the wrong provider; one worker of each controller is enough. */
  lemma OverwriteCanSpoil(c: Config) returns (s: State)
    requires Unambiguous(c.settings.domains) && !SingleProvider(c.settings.domains)
    requires c.settings.updateIngresses && c.ingressWorkers > 0 && c.cleanerWorkers > 0
    ensures Reached(c, s) && !ProvidersFit(c.settings.domains, s.b.control)
  {
    var domains := c.settings.domains;
    var d, e :| d in domains && e in domains && domains[d] != domains[e];
    var a, b := TwoKeys();
    StartIsInitial(c, a, b, d, e);
    var s0 := Start(c, a, b, d, e);
    ReachInitial(c, s0);
    var s1 := CreatesSecond(c, s0, b, e);
    assert s1.adds[0] == s0.adds[0] == ControlName(a);
    SpoiltByOverwrite(c, s1, a, d, e);
    s := CleanerRound(c, s1, ControlName(a));
  }

  lemma CreatesSecond(c: Config, s: State, b: TargetKey, e: string) returns (s': State)
    requires Reached(c, s) && c.ingressWorkers > 0 && s.ingress == WQ.Fresh() && s.making == map[]
    requires Unambiguous(c.settings.domains) && e in c.settings.domains
    requires s.notices != [] && s.notices[0].key == b && Enqueues(s.notices[0])
    requires b in s.target && s.target[b].tls == OneHost(e) && ControlName(b) !in s.b.control.ingresses
    ensures Reached(c, s') && s'.target == s.target && s'.cleaner == s.cleaner && s.adds <= s'.adds
    ensures s'.removing == s.removing && s'.b.provider == c.settings.domains[e]
    ensures forall name :: name in s.b.control.ingresses ==>
      name in s'.b.control.ingresses && s'.b.control.ingresses[name] == s.b.control.ingresses[name]
  {
    var copy := OneHostCopy(c, e);
    s' := IngressRound(c, s, b, copy);
  }

  // ---- Two workers race for the template ----

  /** Two workers that wait, or hold one key or two. */
  function TwoWorkers<K(==,!new)>(first: WQ.Phase<K>, second: WQ.Phase<K>, processing: set<K>): WQ.Pool<K> {
    WQ.Pool(WQ.Queue([], {}, processing, {}, false), [first, second], 2, false, WQ.Spawning)
  }

  lemma PairStarts<K(!new)>(n: nat)
    requires n > 1
    ensures WQ.Enabled(n, OneWorker<K>(), WQ.Spawn)
    ensures WQ.Next(n, WQ.Next(n, OneWorker<K>(), WQ.Spawn), WQ.Enter(1)) == TwoWorkers<K>(WQ.Idle, WQ.Idle, {})
  {}

  /** The key that is handed to a waiting worker of a pair. */
  lemma PairTakes<K(!new)>(n: nat, p: WQ.Pool<K>, w: nat, key: K)
    requires w < |p.workers| && p.workers[w].Idle? && p.q.queue == [] && p.q.dirty == {} && p.q.delayed == {}
    requires key !in p.q.processing && !p.q.shuttingDown
    ensures var p1 := p.(q := p.q.AddLater(key));
      && WQ.Enabled(n, p1, WQ.Ready(key))
      && var p2 := WQ.Next(n, p1, WQ.Ready(key));
      && WQ.Enabled(n, p2, WQ.Get(w))
      && WQ.Next(n, p2, WQ.Get(w))
         == p.(workers := p.workers[w := WQ.Got(key)], q := p.q.(processing := p.q.processing + {key}))
  {
    var p2 := WQ.Next(n, p.(q := p.q.AddLater(key)), WQ.Ready(key));
    assert p2.q.delayed == {} && p2.q.queue == [key] && p2.q.dirty == {key};
    assert p2.q.Take().dirty == {};
  }

  lemma PairStep(c: Config, s: State, w: nat, key: TargetKey) returns (s': State)
    requires Reached(c, s) && s.notices != [] && s.notices[0].key == key && Enqueues(s.notices[0])
    requires var p := s.ingress;
      && w < |p.workers| && p.workers[w].Idle? && p.q.queue == [] && p.q.dirty == {} && p.q.delayed == {}
      && key !in p.q.processing && !p.q.shuttingDown
    ensures Reached(c, s')
    ensures s' == s.(notices := s.notices[1..], ingress := s.ingress.(
      workers := s.ingress.workers[w := WQ.Got(key)], q := s.ingress.q.(processing := s.ingress.q.processing + {key})))
  {
    ReachStep(c, s, Notify);
    s' := Next(c, s, Notify);
    PairTakes(c.ingressWorkers, s.ingress, w, key);
    s' := IngressStep(c, s', WQ.Ready(key));
    s' := IngressStep(c, s', WQ.Get(w));
  }

  lemma PairBegins(c: Config, s: State) returns (s': State)
    requires Reached(c, s) && c.ingressWorkers > 1 && s.ingress == WQ.Fresh()
    ensures Reached(c, s') && s' == s.(ingress := TwoWorkers(WQ.Idle, WQ.Idle, {}))
  {
    PairStarts<TargetKey>(c.ingressWorkers);
    s' := IngressStarts(c, s);
    s' := IngressStep(c, s', WQ.Spawn);
    s' := IngressStep(c, s', WQ.Enter(1));
  }

  /** Two workers are started and hold one key each. */
  lemma PairReady(c: Config, s: State, a: TargetKey, b: TargetKey) returns (s': State)
    requires Reached(c, s) && c.ingressWorkers > 1 && s.ingress == WQ.Fresh() && a != b
    requires |s.notices| == 2 && Enqueues(s.notices[0]) && Enqueues(s.notices[1])
    requires s.notices[0].key == a && s.notices[1].key == b
    ensures Reached(c, s') && s' == s.(notices := [], ingress := TwoWorkers(WQ.Got(a), WQ.Got(b), {a, b}))
  {
    var s1 := PairBegins(c, s);
    var s2 := PairStep(c, s1, 0, a);
    assert s2.ingress == TwoWorkers(WQ.Got(a), WQ.Idle, {a});
    s' := PairStep(c, s2, 1, b);
    assert s'.ingress == TwoWorkers(WQ.Got(a), WQ.Got(b), {a, b});
  }

  /** A broker starts with two new Ingresses and an empty control cluster. */
  function StartEmpty(a: TargetKey, b: TargetKey, d: string, e: string): State {
    var ingressA, ingressB := LabelledIngress(OneHost(d)), LabelledIngress(OneHost(e));
    State(map[a := ingressA, b := ingressB], Broker(Control(map[], map[]), ""),
      map[], map[], map[], WQ.Fresh(), WQ.Fresh(),
      [Notice(a, None, Some(ingressA)), Notice(b, None, Some(ingressB))], [])
  }

  lemma StartEmptyIsInitial(c: Config, a: TargetKey, b: TargetKey, d: string, e: string)
    requires a != b
    ensures Initial(c, StartEmpty(a, b, d, e))
    ensures var notices := StartEmpty(a, b, d, e).notices; Enqueues(notices[0]) && Enqueues(notices[1])
  {
    var s := StartEmpty(a, b, d, e);
    assert s.notices[0].key == a && s.notices[1].key == b;
  }

  lemma BothSet(
    c: Config, s: State, a: TargetKey, b: TargetKey, copyA: CopyResult, copyB: CopyResult) returns (s': State)
    requires Reached(c, s) && s.ingress == TwoWorkers(WQ.Got(a), WQ.Got(b), {a, b}) && a != b && s.making == map[]
    requires CopyOutcomeFor(c, s, a, copyA) && Creates(s, a, copyA)
    requires CopyOutcomeFor(c, s, b, copyB) && Creates(s, b, copyB)
    ensures Reached(c, s')
    ensures s' == s.(b := s.b.(provider := copyB.provider), making := map[a := copyA, b := copyB])
  {
    ReachStep(c, s, Template(0, copyA));
    var s1 := Next(c, s, Template(0, copyA));
    ReachStep(c, s1, Template(1, copyB));
    s' := Next(c, s1, Template(1, copyB));
  }

  /** Both workers set the template, then the first one reads it. */
  lemma RaceRuns(
    c: Config, s: State, a: TargetKey, b: TargetKey, copyA: CopyResult, copyB: CopyResult) returns (s': State)
    requires Reached(c, s) && s.ingress == TwoWorkers(WQ.Got(a), WQ.Got(b), {a, b}) && a != b && s.making == map[]
    requires CopyOutcomeFor(c, s, a, copyA) && Creates(s, a, copyA)
    requires CopyOutcomeFor(c, s, b, copyB) && Creates(s, b, copyB)
    ensures Reached(c, s')
    ensures s'.b == FinishCreate(c.settings, s.b.(provider := copyB.provider), a, copyA, UNDISTURBED).broker
  {
    var s2 := BothSet(c, s, a, b, copyA, copyB);
    var run := Ingress(WQ.Run(0, WQ.Forget), copyA, UNDISTURBED);
    ReachStep(c, s2, run);
    s' := Next(c, s2, run);
  }

  /** With two ingress workers and two providers, some run ends with a control Ingress under the wrong
      provider, even if the overwrite is off: both workers set the template before one reads it. */
  lemma RaceCanSpoil(c: Config) returns (s: State)
    requires Unambiguous(c.settings.domains) && !SingleProvider(c.settings.domains) && c.ingressWorkers > 1
    ensures Reached(c, s) && !ProvidersFit(c.settings.domains, s.b.control)
  {
    var domains := c.settings.domains;
    var d, e :| d in domains && e in domains && domains[d] != domains[e];
    var a, b := TwoKeys();
    StartEmptyIsInitial(c, a, b, d, e);
    var s0 := StartEmpty(a, b, d, e);
    ReachInitial(c, s0);
    var s1 := PairReady(c, s0, a, b);
    var copyA := OneHostCopy(c, d);
    var copyB := OneHostCopy(c, e);
    s := RaceRuns(c, s1, a, b, copyA, copyB);
    WrongProvider(c, s1.(b := s1.b.(provider := domains[e])), a, d, copyA);
  }

  lemma WrongProvider(c: Config, s: State, a: TargetKey, d: string, copy: CopyResult)
    requires d in c.settings.domains && copy.tls == OneHost(d)
    requires s.b.provider != "" && s.b.provider !in Providers(c.settings.domains, d) && FilterAccepts(ControlName(a))
    ensures !ProvidersFit(c.settings.domains, FinishCreate(c.settings, s.b, a, copy, UNDISTURBED).broker.control)
  {
    TemplateNamesProvider(c.settings, s.b.provider, "");
    var control := FinishCreate(c.settings, s.b, a, copy, UNDISTURBED).broker.control;
    var ingress := control.ingresses[ControlName(a)];
    assert ingress.tls[0] in ingress.tls && ingress.tls[0].hosts == [d] && d in ingress.tls[0].hosts;
    assert ingress.annotations[DNS_PROVIDER_KEY] == s.b.provider;
    assert !ProviderFits(c.settings.domains, ingress);
  }

  // ---- What the template holds ----

  /** Before state `i` a worker has put the provider into the template, and the broker has not been
      restarted since. */
  ghost predicate PutIn(states: seq<State>, steps: seq<Step>, i: nat)
    requires |states| == |steps| + 1 && i < |states|
  {
    exists j :: 0 <= j < i && steps[j].Template? && steps[j].made.provider == states[i].b.provider
          && forall m :: j < m < i ==> !steps[m].Restart?
  }

  lemma OneStepOn(c: Config, s: State, step: Step)
    requires Enabled(c, s, step)
    ensures var provider := Next(c, s, step).b.provider;
      && (step.Template? ==> provider == step.made.provider)
      && (step.Restart? ==> provider == "")
      && (!step.Template? ==> provider == s.b.provider || provider == "")
  {
    if !step.Template? {
      OthersKeepTemplate(c, s, step);
    }
  }

  /** In every run, a provider in the template is one that a worker of this broker has put there. */
  lemma {:induction false} ProviderWasPutIn(c: Config, states: seq<State>, steps: seq<Step>, i: nat)
    requires IsRun(c, states, steps) && i < |states|
    ensures states[i].b.provider == "" || PutIn(states, steps, i)
    decreases i
  {
    if i > 0 {
      ProviderWasPutIn(c, states, steps, i - 1);
      assert StepAt(c, states, steps, i - 1);
      OneStepOn(c, states[i - 1], steps[i - 1]);
      if states[i].b.provider != "" && steps[i - 1].Template? {
        assert PutIn(states, steps, i);
      }
    }
  }

  /** Provider annotations fit in every state of every run exactly when providers are safe: one
      provider, or no creating worker, or one that shares the template with nobody. */
  lemma ProvidersSafeIsExact(c: Config)
    requires Unambiguous(c.settings.domains)
    ensures (forall s :: Reached(c, s) ==> ProvidersFit(c.settings.domains, s.b.control)) <==> ProvidersSafe(c)
  {
    if ProvidersSafe(c) {
      forall s | Reached(c, s) ensures ProvidersFit(c.settings.domains, s.b.control) {
        var states, steps :| IsRun(c, states, steps) && states[|steps|] == s;
        EveryRun(c, states, steps, |steps|);
      }
    } else if c.ingressWorkers > 1 {
      var s := RaceCanSpoil(c);
    } else {
      var s := OverwriteCanSpoil(c);
    }
  }
}
