/** An Ingress that regains its label while the cleaner is removing its copy: the copy is lost, and
    exactly in which configurations that can happen. */
module Relabel {
  import opened Naming
  import opened TLS
  import opened CopySpec
  import opened Prefix
  import opened Clusters
  import opened Protocol
  import opened Safety
  import opened Dirty
  import opened Convergence
  import opened Runs
  import opened Reach
  import WQ = WorkQueue

  // ---- A run that loses a copy ----

  function Unlabelled(tls: seq<IngressTLS>): TargetIngress {
    TargetIngress(map[], tls)
  }

  function Copied(c: Config, a: TargetKey, d: string): ControlIngress
    requires d in c.settings.domains
  {
    ControlIngress(Prefixed(a.ns, OneHost(d)), map[DNS_PROVIDER_KEY := c.settings.domains[d]])
  }

  /** A broker starts with the copy of an Ingress that has lost its label. */
  function StartUnlabelled(c: Config, a: TargetKey, d: string): State
    requires d in c.settings.domains && FilterAccepts(ControlName(a))
  {
    State(map[a := Unlabelled(OneHost(d))], Broker(Control(map[ControlName(a) := Copied(c, a, d)], map[]), ""),
      map[], map[], map[], WQ.Fresh(), WQ.Fresh(),
      [Notice(a, None, Some(Unlabelled(OneHost(d))))], [ControlName(a)])
  }

  lemma StartUnlabelledIsInitial(c: Config, a: TargetKey, d: string)
    requires Unambiguous(c.settings.domains) && d in c.settings.domains && FilterAccepts(ControlName(a))
    ensures Initial(c, StartUnlabelled(c, a, d))
  {
    CopiedIsOwned(c, a, d);
    StartUnlabelledIsListed(c, a, d);
  }

  lemma CopiedIsOwned(c: Config, a: TargetKey, d: string)
    requires Unambiguous(c.settings.domains) && d in c.settings.domains
    ensures OwnedIngress(c.settings.domains, ControlName(a), Copied(c, a, d))
    ensures ProviderFits(c.settings.domains, Copied(c, a, d))
  {
    OneHostCopied(c.settings.domains, d);
    assert DNS_PROVIDER_KEY in Copied(c, a, d).annotations;
    CopiedIngressOk(c.settings.domains, a, OneHost(d), Copy(c.settings.domains, OneHost(d)), Copied(c, a, d));
  }

  lemma StartUnlabelledIsListed(c: Config, a: TargetKey, d: string)
    requires d in c.settings.domains && FilterAccepts(ControlName(a))
    ensures var s := StartUnlabelled(c, a, d); Lists(s, s.notices, s.adds)
  {
    var s := StartUnlabelled(c, a, d);
    assert s.notices[0].key == a && s.adds[0] == ControlName(a);
  }

  /** The cleaner starts, gets the name of the copy and decides to remove it. */
  lemma CleanerDecides(c: Config, s: State, name: ManagedName) returns (s': State)
    requires Reached(c, s) && c.cleanerWorkers > 0 && s.cleaner == WQ.Fresh() && s.removing == map[]
    requires s.adds == [name] && Orphaned(s, name)
    ensures Reached(c, s')
    ensures s' == s.(adds := [], cleaner := OneInHand(name), removing := map[name := s.b.control.ingresses[name]])
  {
    var s1 := CleanerStarts(c, s);
    var s2 := CleanerTakes(c, s1, name);
    ReachStep(c, s2, Condemn(0));
    s' := Next(c, s2, Condemn(0));
  }

  /** The label comes back, and the ingress controller hears of it. */
  lemma LabelReturns(c: Config, s: State, a: TargetKey, labelled: TargetIngress) returns (s': State)
    requires Reached(c, s) && c.ingressWorkers > 0 && s.ingress == WQ.Fresh()
    requires a in s.target && !Labelled(s.target[a]) && Labelled(labelled)
    requires s.notices == [Notice(a, None, Some(s.target[a]))]
    ensures Reached(c, s')
    ensures s' == s.(target := s.target[a := labelled], notices := [], ingress := OneInHand(a))
  {
    var edit := Edit(a, Some(labelled));
    ReachStep(c, s, edit);
    var s1 := Next(c, s, edit);
    ReachStep(c, s1, Notify);
    var s2 := Next(c, s1, Notify);
    assert s2.notices == [Notice(a, Some(s.target[a]), Some(labelled))];
    var s3 := IngressStarts(c, s2);
    s' := IngressTakes(c, s3, a);
  }

  /** The ingress controller finds the copy up to date and forgets the key. */
  lemma FindsUpToDate(c: Config, s: State, a: TargetKey, copy: CopyResult) returns (s': State)
    requires Reached(c, s) && s.ingress == OneInHand(a) && s.making == map[]
    requires CopyOutcomeFor(c, s, a, copy) && ControlName(a) in s.b.control.ingresses
    requires UpToDate(s.target[a], s.b.control.ingresses[ControlName(a)], a.ns)
    ensures Reached(c, s') && s' == s.(ingress := s'.ingress)
    ensures !s'.ingress.q.shuttingDown && forall key :: !WQ.Pending(s'.ingress, key)
  {
    var run := Ingress(WQ.Run(0, WQ.Forget), copy, UNDISTURBED);
    ReachStep(c, s, run);
    s' := Next(c, s, run);
    assert s'.ingress.workers == [WQ.Ran(a, WQ.Forget)];
  }

  /** The removal is carried out. */
  lemma Strikes(c: Config, s: State, name: ManagedName) returns (s': State)
    requires Reached(c, s) && s.cleaner == OneInHand(name) && name in s.removing
    ensures Reached(c, s') && s'.target == s.target && s'.notices == s.notices && s'.ingress == s.ingress
    ensures name !in s'.b.control.ingresses
  {
    var strike := Cleaner(WQ.Run(0, WQ.Forget), Faults(1 + |s.removing[name].tls|, false));
    ReachStep(c, s, strike);
    s' := Next(c, s, strike);
  }

  /** With a managed domain and a worker of each controller, some run loses the copy of a labelled
      Ingress that nobody will look at again. */
  lemma RelabellingLoses(c: Config) returns (s: State, a: TargetKey)
    requires Unambiguous(c.settings.domains) && c.settings.domains != map[]
    requires c.ingressWorkers > 0 && c.cleanerWorkers > 0
    ensures Reached(c, s) && Lost(c, s, a)
  {
    var d :| d in c.settings.domains;
    var b: TargetKey;
    a, b := TwoKeys();
    StartUnlabelledIsInitial(c, a, d);
    var s0, labelled := StartUnlabelled(c, a, d), LabelledIngress(OneHost(d));
    ReachInitial(c, s0);
    var s1 := CleanerDecides(c, s0, ControlName(a));
    var s2 := LabelReturns(c, s1, a, labelled);
    var copy := OneHostCopy(c, d);
    assert |Copied(c, a, d).tls| == 1;
    var s3 := FindsUpToDate(c, s2, a, copy);
    s := Strikes(c, s3, ControlName(a));
    OneHostCopied(c.settings.domains, d);
  }

  /** A labelled Ingress has no copy although it should, and nothing is left to look at. */
  ghost predicate Lost(c: Config, s: State, a: TargetKey) {
    && Quiet(s) && !s.ingress.q.shuttingDown
    && a in s.target && Labelled(s.target[a]) && ControlName(a) !in s.b.control.ingresses
    && Copy(c.settings.domains, s.target[a].tls).tls != []
  }

  lemma LostIsUnsynced(c: Config, s: State, a: TargetKey)
    requires Lost(c, s, a)
    ensures !DirtyOrSynced(c, s)
  {
    assert !Noticed(s, a) && !WQ.Pending(s.ingress, a);
    LostIsNeither(c, s, a);
  }

  /** Without an edit or a restart it never comes back. */
  lemma LostStaysLost(c: Config, states: seq<State>, steps: seq<Step>, i: nat, a: TargetKey)
    requires Unambiguous(c.settings.domains) && CalmRun(c, states, steps) && i < |states|
    requires Inv(c, states[0]) && Lost(c, states[0], a)
    ensures Lost(c, states[i], a)
  {
    var inv := (s: State) => Inv(c, s) && Lost(c, s, a);
    forall j: nat | j + 1 < |states| ensures Carried(inv, states, j) {
      assert CalmAt(c, states, steps, j);
      if inv(states[j]) {
        InvKept(c, states[j], steps[j]);
        QuietKept(c, states[j], steps[j]);
      }
    }
    Invariantly(inv, states, i);
  }

  // ---- When it cannot happen ----

  /** With nothing managed, every control Ingress of the broker is empty, and should be. */
  lemma NothingManaged(c: Config, s: State)
    requires Owned(c.settings.domains, s.b.control) && c.settings.domains == map[]
    ensures DirtyOrSynced(c, s)
  {
    forall key | key in s.target && Labelled(s.target[key]) ensures Synced(c, s, key) {
      NameOfKey(key);
      NothingToCopy(c.settings.domains, s.target[key].tls);
      if ControlName(key) in s.b.control.ingresses {
        var ingress := s.b.control.ingresses[ControlName(key)];
        assert OwnedIngress(c.settings.domains, ControlName(key), ingress);
        var t: seq<IngressTLS> :| ingress.tls == Prefixed(key.ns, t) && Copy(c.settings.domains, t).tls == t;
        NothingToCopy(c.settings.domains, t);
      }
    }
  }

  lemma NothingToCopy(domains: Domains, tls: seq<IngressTLS>)
    requires domains == map[]
    ensures Copy(domains, tls).tls == []
  {
    NoManagedHosts(domains, tls);
  }

  /** No ingress worker takes a key away. */
  ghost predicate AllAwaited(s: State) {
    !s.ingress.q.shuttingDown ==> forall key :: key in s.target && Labelled(s.target[key]) ==> Requeued(s, key)
  }

  lemma AwaitedKept(c: Config, s: State, step: Step)
    requires AllAwaited(s) && s.ingress.workers == [] && Enabled(c, s, step)
    ensures AllAwaited(Next(c, s, step))
  {
    var s' := Next(c, s, step);
    if step.Restart? {
      ListedAreNoticed(s');
    } else if !s'.ingress.q.shuttingDown {
      NotShutBefore(c, s, step);
      forall key | key in s'.target && Labelled(s'.target[key]) ensures Requeued(s', key) {
        if step.Edit? {
          EditKeepsRequeued(c, s, step, key);
        } else {
          KeyStaysAwaited(c, s, step, key);
        }
      }
    }
  }

  lemma NotShutBefore(c: Config, s: State, step: Step)
    requires Enabled(c, s, step) && !step.Restart? && !Next(c, s, step).ingress.q.shuttingDown
    ensures !s.ingress.q.shuttingDown && (!step.Edit? ==> Next(c, s, step).target == s.target)
  {
    if step.Ingress? {
      WQ.ShutdownIsFinal(c.ingressWorkers, s.ingress, step.iact);
    } else if step.Cleaner? {
      CleanerStepShrinks(c, s, step);
    }
  }

  lemma KeyStaysAwaited(c: Config, s: State, step: Step, key: TargetKey)
    requires s.ingress.workers == [] && Enabled(c, s, step) && !step.Edit? && !step.Restart?
    requires !Next(c, s, step).ingress.q.shuttingDown && Requeued(s, key)
    ensures Requeued(Next(c, s, step), key)
  {
    if Noticed(s, key) {
      NoticedKept(c, s, step, key);
    } else {
      WaitingStays(c, s, step, key);
    }
  }

  lemma WaitingStays(c: Config, s: State, step: Step, key: TargetKey)
    requires s.ingress.workers == [] && Enabled(c, s, step) && !step.Edit? && !step.Restart?
    requires !Next(c, s, step).ingress.q.shuttingDown
    requires key in s.ingress.q.dirty || key in s.ingress.q.delayed
    ensures var q := Next(c, s, step).ingress.q; key in q.dirty || key in q.delayed
  {
    if step.Ingress? {
      IdlePoolKeeps(c.ingressWorkers, s.ingress, step.iact, key);
      assert Next(c, s, step).ingress == WQ.Next(c.ingressWorkers, s.ingress, step.iact);
    }
  }

  lemma IdlePoolKeeps(n: nat, p: WQ.Pool<TargetKey>, a: WQ.Act<TargetKey>, key: TargetKey)
    requires p.workers == [] && WQ.Enabled(n, p, a) && (key in p.q.dirty || key in p.q.delayed)
    requires !WQ.Next(n, p, a).q.shuttingDown
    ensures var q := WQ.Next(n, p, a).q; key in q.dirty || key in q.delayed
  {}

  lemma ListedAreNoticed(s: State)
    requires Lists(s, s.notices, s.adds)
    ensures AllAwaited(s)
  {
    forall key | key in s.target && Labelled(s.target[key]) ensures Noticed(s, key) {
      var n :| n in s.notices && n.key == key;
      assert Enqueues(n);
    }
  }

  lemma NobodyTakesKeys(c: Config, states: seq<State>, steps: seq<Step>, i: nat)
    requires Unambiguous(c.settings.domains) && IsRun(c, states, steps) && i < |states| && c.ingressWorkers == 0
    ensures DirtyOrSynced(c, states[i])
  {
    var inv := (s: State) => AllAwaited(s);
    ListedAreNoticed(states[0]);
    forall j: nat | j + 1 < |states| ensures Carried(inv, states, j) {
      EveryRun(c, states, steps, j);
      assert StepAt(c, states, steps, j);
      assert states[j].ingress.workers == [];
      if inv(states[j]) {
        AwaitedKept(c, states[j], steps[j]);
      }
    }
    Invariantly(inv, states, i);
  }

  lemma NoWorkerNoStrike(c: Config, s: State, step: Step)
    requires |s.cleaner.workers| <= 0
    ensures !Blind(c, s, step)
  {
    if step.Cleaner? && step.cact.Run? && WQ.Enabled(c.cleanerWorkers, s.cleaner, step.cact) {
      assert false;
    }
  }

  lemma NobodyStrikes(c: Config, states: seq<State>, steps: seq<Step>, i: nat)
    requires Unambiguous(c.settings.domains) && IsRun(c, states, steps) && i < |states| && c.cleanerWorkers == 0
    ensures DirtyOrSynced(c, states[i])
  {
    forall j: nat | j < |steps| ensures !Blind(c, states[j], steps[j]) {
      EveryRun(c, states, steps, j);
      NoWorkerNoStrike(c, states[j], steps[j]);
    }
    DirtyOrSyncedIff(c, states, steps, i);
  }

  /** Nobody can lose a copy: nothing is managed, or one of the two controllers has no worker. */
  predicate NothingToLose(c: Config) {
    c.settings.domains == map[] || c.ingressWorkers == 0 || c.cleanerWorkers == 0
  }

  /** Labelled Ingresses are dirty or synced in every state of every run exactly then. */
  lemma DirtyOrSyncedIsExact(c: Config)
    requires Unambiguous(c.settings.domains)
    ensures (forall s :: Reached(c, s) ==> DirtyOrSynced(c, s)) <==> NothingToLose(c)
  {
    if NothingToLose(c) {
      forall s | Reached(c, s) ensures DirtyOrSynced(c, s) {
        var states, steps :| IsRun(c, states, steps) && states[|steps|] == s;
        if c.settings.domains == map[] {
          EveryRun(c, states, steps, |steps|);
          NothingManaged(c, s);
        } else if c.ingressWorkers == 0 {
          NobodyTakesKeys(c, states, steps, |steps|);
        } else {
          NobodyStrikes(c, states, steps, |steps|);
        }
      }
    } else {
      var s, a := RelabellingLoses(c);
      LostIsUnsynced(c, s, a);
    }
  }
}
