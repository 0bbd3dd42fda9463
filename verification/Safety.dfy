/** What every run of the protocol keeps, under an unambiguous configuration. */
module Safety {
  import opened Naming
  import opened TLS
  import opened CopySpec
  import opened Prefix
  import opened Clusters
  import opened Protocol
  import opened Runs
  import WQ = WorkQueue

  // ---- The control cluster stays the broker's own ----

  lemma PutKeepsControl(c: Config, control: Control, name: string, ingress: ControlIngress, f: Faults)
    requires IngressesOk(c, control) && OwnedIngress(c.settings.domains, name, ingress)
    requires ProvidersSafe(c) ==> ProviderFits(c.settings.domains, ingress)
    ensures IngressesOk(c, Put(control, name, ingress, f))
  {}

  /** What is there was there before. */
  lemma RemovalKeepsControl(c: Config, control: Control, after: Control)
    requires IngressesOk(c, control)
    requires forall name :: name in after.ingresses ==>
      name in control.ingresses && after.ingresses[name] == control.ingresses[name]
    ensures IngressesOk(c, after)
  {}

  lemma CopyHasProvider(domains: Domains, tls: seq<IngressTLS>)
    requires Unambiguous(domains)
    ensures Copy(domains, tls).tls != [] ==> Copy(domains, tls).provider != ""
  {
    var copy := Copy(domains, tls);
    CopyRefines(domains, tls, copy);
    if copy.tls != [] {
      CopiedHostsServed(domains, tls, copy);
    }
  }

  /** The Ingress that a create or an update would write. */
  lemma Written(c: Config, s: State, key: TargetKey, copy: CopyResult) returns (ingress: ControlIngress)
    requires Unambiguous(c.settings.domains) && key in s.target && copy == Copy(c.settings.domains, s.target[key].tls)
    ensures var ingresses := s.b.control.ingresses; var name := ControlName(key);
      ingress == ControlIngress(Prefixed(key.ns, copy.tls),
        if name in ingresses then ingresses[name].annotations[DNS_PROVIDER_KEY := copy.provider]
        else TemplateAnnotations(c.settings, copy.provider))
    ensures OwnedIngress(c.settings.domains, ControlName(key), ingress) && ProviderFits(c.settings.domains, ingress)
    ensures copy.provider == "" || copy.provider in c.settings.domains.Values
  {
    var ingresses, name := s.b.control.ingresses, ControlName(key);
    var annotations := if name in ingresses then ingresses[name].annotations[DNS_PROVIDER_KEY := copy.provider]
                       else TemplateAnnotations(c.settings, copy.provider);
    ingress := ControlIngress(Prefixed(key.ns, copy.tls), annotations);
    if name in ingresses {
      assert DNS_PROVIDER_KEY in annotations;
    } else {
      TemplateNamesProvider(c.settings, copy.provider, "");
    }
    CopyHasProvider(c.settings.domains, s.target[key].tls);
    CopiedIngressOk(c.settings.domains, key, s.target[key].tls, copy, ingress);
  }

  lemma IngressKeepsControl(c: Config, s: State, key: TargetKey, copy: CopyResult, f: Faults)
    requires Unambiguous(c.settings.domains) && IngressesOk(c, s.b.control)
    requires key in s.target ==> CopyOutcome(c.settings.domains, s.target[key].tls, copy)
    ensures IngressesOk(c, IngressSync(c, s, key, copy, f).broker.control)
  {
    if key in s.target {
      CopyRefines(c.settings.domains, s.target[key].tls, copy);
      var ingress := Written(c, s, key, copy);
      PutKeepsControl(c, s.b.control, ControlName(key), ingress, f);
    } else {
      RemovalKeepsControl(c, s.b.control, IngressSync(c, s, key, copy, f).broker.control);
    }
  }

  lemma SameProvider(domains: Domains, p: string, host: string, q: string)
    requires SingleProvider(domains) && p in domains.Values && q in Providers(domains, host)
    ensures p == q
  {
    var d :| d in domains && domains[d] == p;
    var e :| e in domains && HasSuffix(host, e) && domains[e] == q;
  }

  /** Where providers are safe, the template still holds what the worker has put into it. */
  lemma TemplateHolds(c: Config, s: State, key: TargetKey)
    requires Unambiguous(c.settings.domains) && TemplateOk(c, s) && ProvidersSafe(c)
    requires key in s.making && MakingOk(c, s, key)
    ensures s.b.provider == s.making[key].provider
  {
    var tls :| s.making[key] == Copy(c.settings.domains, tls);
    CopyProviderConfigured(c.settings.domains, tls);
  }

  /** The second half of a create writes an Ingress of the broker's own, under a provider that fits
      if providers are safe. */
  lemma FinishKeepsControl(c: Config, s: State, key: TargetKey, f: Faults)
    requires Unambiguous(c.settings.domains) && IngressesOk(c, s.b.control) && TemplateOk(c, s)
    requires key in s.making && MakingOk(c, s, key)
    ensures IngressesOk(c, FinishCreate(c.settings, s.b, key, s.making[key], f).broker.control)
  {
    var domains, copy := c.settings.domains, s.making[key];
    var tls :| copy == Copy(domains, tls);
    var ingress := ControlIngress(Prefixed(key.ns, copy.tls), TemplateAnnotations(c.settings, s.b.provider));
    TemplateNamesProvider(c.settings, s.b.provider, "");
    CopiedIngressOk(domains, key, tls, copy, ingress);
    if ProvidersSafe(c) {
      TemplateHolds(c, s, key);
    }
    PutKeepsControl(c, s.b.control, ControlName(key), ingress, f);
  }

  lemma OverwriteIsSome(annotations: map<string, string>, template: map<string, string>)
    requires annotations != map[]
    ensures annotations + template != map[]
  {
    var key :| key in annotations;
    assert key in annotations + template;
  }

  lemma CleanerKeepsOwned(c: Config, s: State, name: ManagedName, f: Faults)
    requires Owned(c.settings.domains, s.b.control)
    ensures Owned(c.settings.domains, CleanerSync(c, s, name, f).control)
  {
    var before, after := s.b.control.ingresses, CleanerSync(c, s, name, f).control.ingresses;
    if name in after && after[name] != before[name] {
      OverwriteIsSome(before[name].annotations, TemplateAnnotations(c.settings, s.b.provider));
      assert OwnedIngress(c.settings.domains, name, before[name]);
      assert OwnedIngress(c.settings.domains, name, after[name]);
    }
  }

  lemma CleanerKeepsProviders(c: Config, s: State, name: ManagedName, f: Faults)
    requires ProvidersSafe(c) && TemplateOk(c, s) && c.cleanerWorkers > 0
    requires ProvidersFit(c.settings.domains, s.b.control)
    ensures ProvidersFit(c.settings.domains, CleanerSync(c, s, name, f).control)
  {
    var domains := c.settings.domains;
    var ingresses, after := s.b.control.ingresses, CleanerSync(c, s, name, f).control.ingresses;
    if name in after && after[name] != ingresses[name] {
      var before := ingresses[name];
      OverwriteKeepsProviderIff(c.settings, s.target, s.b, name, f);
      forall t, h | t in before.tls && h in t.hosts && s.b.provider != ""
        ensures s.b.provider in Providers(domains, h)
      {
        SameProvider(domains, s.b.provider, h, before.annotations[DNS_PROVIDER_KEY]);
      }
    }
  }

  lemma RunKeepsControl(c: Config, s: State, key: TargetKey, copy: CopyResult, f: Faults)
    requires Unambiguous(c.settings.domains) && IngressesOk(c, s.b.control) && TemplateOk(c, s)
    requires MakingOk(c, s, key)
    requires key !in s.making && key in s.target ==> CopyOutcome(c.settings.domains, s.target[key].tls, copy)
    ensures IngressesOk(c, IngressRun(c, s, key, copy, f).broker.control)
  {
    if key in s.making {
      FinishKeepsControl(c, s, key, f);
    } else {
      IngressKeepsControl(c, s, key, copy, f);
    }
  }

  lemma SweepKeepsControl(c: Config, s: State, name: ManagedName, f: Faults)
    requires IngressesOk(c, s.b.control) && TemplateOk(c, s) && c.cleanerWorkers > 0
    ensures IngressesOk(c, CleanerRun(c, s, name, f).control)
  {
    if name in s.removing {
      RemovalKeepsControl(c, s.b.control, CleanerRun(c, s, name, f).control);
    } else {
      CleanerKeepsOwned(c, s, name, f);
      if ProvidersSafe(c) {
        CleanerKeepsProviders(c, s, name, f);
      }
    }
  }

  lemma RunStepKeepsControl(c: Config, s: State, w: nat, outcome: WQ.Outcome, copy: CopyResult, f: Faults)
    requires Unambiguous(c.settings.domains) && IngressesOk(c, s.b.control) && TemplateOk(c, s)
    requires Enabled(c, s, Ingress(WQ.Run(w, outcome), copy, f))
    requires MakingOk(c, s, s.ingress.workers[w].key)
    ensures IngressesOk(c, Next(c, s, Ingress(WQ.Run(w, outcome), copy, f)).b.control)
  {
    var key := s.ingress.workers[w].key;
    var control := IngressRun(c, s, key, copy, f).broker.control;
    assert Next(c, s, Ingress(WQ.Run(w, outcome), copy, f)).b.control == control;
    assert IngressesOk(c, control) by {
      RunKeepsControl(c, s, key, copy, f);
    }
  }

  lemma IngressStepKeepsControl(c: Config, s: State, step: Step)
    requires Unambiguous(c.settings.domains) && ControlOk(c, s) && Enabled(c, s, step) && step.Ingress?
    ensures IngressesOk(c, Next(c, s, step).b.control)
  {
    if step.iact.Run? {
      RunStepKeepsControl(c, s, step.iact.w, step.iact.outcome, step.copy, step.f);
    }
  }

  lemma CleanerStepKeepsControl(c: Config, s: State, step: Step)
    requires ControlOk(c, s) && Enabled(c, s, step) && step.Cleaner? && |s.cleaner.workers| <= c.cleanerWorkers
    ensures IngressesOk(c, Next(c, s, step).b.control)
  {
    if step.cact.Run? {
      SweepKeepsControl(c, s, s.cleaner.workers[step.cact.w].key, step.f);
    }
  }

  lemma SameIngresses(c: Config, control: Control, control': Control)
    requires IngressesOk(c, control) && control'.ingresses == control.ingresses
    ensures IngressesOk(c, control')
  {}

  lemma ControlKept(c: Config, s: State, step: Step)
    requires Unambiguous(c.settings.domains) && ControlOk(c, s) && Enabled(c, s, step)
    requires |s.cleaner.workers| <= c.cleanerWorkers
    ensures IngressesOk(c, Next(c, s, step).b.control)
  {
    match step
    case Ingress(_, _, _) => IngressStepKeepsControl(c, s, step);
    case Cleaner(_, _) => CleanerStepKeepsControl(c, s, step);
    case _ => SameIngresses(c, s.b.control, Next(c, s, step).b.control);
  }

  // ---- The two halves of a create ----

  lemma TemplateKept(c: Config, s: State, step: Step)
    requires Unambiguous(c.settings.domains) && TemplateOk(c, s)
    requires |s.ingress.workers| <= c.ingressWorkers && Enabled(c, s, step)
    ensures TemplateOk(c, Next(c, s, step))
  {
    if step.Template? {
      MadeCopy(c, s, step);
    } else {
      OthersKeepTemplate(c, s, step);
    }
  }

  lemma OthersKeepTemplate(c: Config, s: State, step: Step)
    requires Enabled(c, s, step) && !step.Template?
    ensures var provider := Next(c, s, step).b.provider; provider == s.b.provider || provider == ""
  {
    if step.Ingress? && step.iact.Run? {
      RunKeepsTemplate(c, s, s.ingress.workers[step.iact.w].key, step.copy, step.f);
    }
  }

  /** A worker sets the template for a non-empty copy of its target Ingress. */
  lemma MadeCopy(c: Config, s: State, step: Step)
    requires Unambiguous(c.settings.domains) && step.Template? && Enabled(c, s, step)
    ensures step.made == Copy(c.settings.domains, s.target[s.ingress.workers[step.w].key].tls)
    ensures step.made.provider != "" && step.made.provider in c.settings.domains.Values
  {
    var tls := s.target[s.ingress.workers[step.w].key].tls;
    CopyRefines(c.settings.domains, tls, step.made);
    CopyHasProvider(c.settings.domains, tls);
    CopyProviderConfigured(c.settings.domains, tls);
  }

  lemma MakingKept(c: Config, s: State, step: Step, key: TargetKey)
    requires Unambiguous(c.settings.domains) && ControlOk(c, s) && |s.ingress.workers| <= c.ingressWorkers
    requires Enabled(c, s, step) && key in Next(c, s, step).making
    ensures MakingOk(c, Next(c, s, step), key)
  {
    assert MakingOk(c, s, key);
    if step.Template? {
      TemplateKeepsMaking(c, s, step, key);
    } else if step.Ingress? {
      IngressKeepsMaking(c, s, step, key);
    } else if step.Cleaner? {
      CleanerKeepsMaking(c, s, step, key);
    } else {
      OthersKeepMaking(c, s, step, key);
    }
  }

  lemma TemplateKeepsMaking(c: Config, s: State, step: Step, key: TargetKey)
    requires Unambiguous(c.settings.domains) && |s.ingress.workers| <= c.ingressWorkers
    requires step.Template? && Enabled(c, s, step) && key in Next(c, s, step).making
    requires MakingOk(c, s, key)
    ensures MakingOk(c, Next(c, s, step), key)
  {
    MadeCopy(c, s, step);
    assert s.ingress.workers[step.w].Got?;
    if key in s.making {
      assert forall v :: 0 <= v < |s.ingress.workers| && s.ingress.workers[v] == WQ.Got(key) ==> v != step.w;
    } else {
      assert s.ingress.workers[step.w] == WQ.Got(key);
    }
  }

  lemma OthersKeepMaking(c: Config, s: State, step: Step, key: TargetKey)
    requires Enabled(c, s, step) && !step.Template? && !step.Ingress? && !step.Cleaner?
    requires key in Next(c, s, step).making && MakingOk(c, s, key)
    ensures MakingOk(c, Next(c, s, step), key)
  {}

  lemma IngressKeepsMaking(c: Config, s: State, step: Step, key: TargetKey)
    requires step.Ingress? && Enabled(c, s, step) && key in Next(c, s, step).making
    requires key in s.making && MakingOk(c, s, key)
    ensures MakingOk(c, Next(c, s, step), key)
  {
    var a, s' := step.iact, Next(c, s, step);
    var w :| 0 <= w < |s.ingress.workers| && s.ingress.workers[w] == WQ.Got(key);
    WQ.GotKept(c.ingressWorkers, s.ingress, a, w);
    if a.Run? {
      var ran := s.ingress.workers[a.w].key;
      assert ran != key;
      RunKeepsTemplate(c, s, ran, step.copy, step.f);
      RunKeepsAbsent(c, s, ran, key, step.copy, step.f);
    }
  }

  lemma RunKeepsTemplate(c: Config, s: State, key: TargetKey, copy: CopyResult, f: Faults)
    requires key in s.making || !Creates(s, key, copy)
    ensures IngressRun(c, s, key, copy, f).broker.provider == s.b.provider
  {}

  lemma RunKeepsAbsent(c: Config, s: State, key: TargetKey, other: TargetKey, copy: CopyResult, f: Faults)
    requires key != other && ControlName(other) !in s.b.control.ingresses
    ensures ControlName(other) !in IngressRun(c, s, key, copy, f).broker.control.ingresses
  {
    RunAddsOwn(c, s, key, copy, f);
    OtherName(key, other);
  }

  lemma CleanerKeepsMaking(c: Config, s: State, step: Step, key: TargetKey)
    requires step.Cleaner? && Enabled(c, s, step) && key in s.making && MakingOk(c, s, key)
    ensures MakingOk(c, Next(c, s, step), key)
  {
    CleanerStepShrinks(c, s, step);
  }

  lemma CleanerRunIsNext(c: Config, s: State, step: Step)
    requires step.Cleaner? && step.cact.Run? && Enabled(c, s, step)
    ensures var s' := Next(c, s, step);
      && s'.b.control == CleanerRun(c, s, s.cleaner.workers[step.cact.w].key, step.f).control
      && s'.target == s.target
  {}

  /** The cleaner creates nothing and minds its own business. */
  lemma CleanerStepShrinks(c: Config, s: State, step: Step)
    requires step.Cleaner? && Enabled(c, s, step)
    ensures var s' := Next(c, s, step);
      && s'.b.control.ingresses.Keys <= s.b.control.ingresses.Keys
      && s'.ingress == s.ingress && s'.making == s.making && s'.b.provider == s.b.provider
      && s'.target == s.target && s'.notices == s.notices && s'.adds == s.adds
  {
    if step.cact.Run? {
      RunShrinks(c, s, s.cleaner.workers[step.cact.w].key, step.f);
    }
  }

  lemma RunShrinks(c: Config, s: State, name: ManagedName, f: Faults)
    ensures CleanerRun(c, s, name, f).control.ingresses.Keys <= s.b.control.ingresses.Keys
  {}

  /** A run adds no control Ingress but its own. */
  lemma RunAddsOwn(c: Config, s: State, key: TargetKey, copy: CopyResult, f: Faults)
    ensures IngressRun(c, s, key, copy, f).broker.control.ingresses.Keys
      <= s.b.control.ingresses.Keys + {ControlName(key)}
  {}

  lemma FreshKept(c: Config, s: State, step: Step)
    requires Unambiguous(c.settings.domains) && Inv(c, s) && Enabled(c, s, step)
    ensures MakingFresh(c, Next(c, s, step))
  {
    var s' := Next(c, s, step);
    if !s'.ingress.q.shuttingDown {
      forall key | key in s'.making && key in s'.target && Labelled(s'.target[key])
        ensures Requeued(s', key) || s'.making[key] == Copy(c.settings.domains, s'.target[key].tls)
      {
        if key !in s.making {
          MadeCopy(c, s, step);
        } else {
          assert MakingOk(c, s, key);
          StaysFresh(c, s, step, key);
        }
      }
    }
  }

  lemma StaysFresh(c: Config, s: State, step: Step, key: TargetKey)
    requires PoolsOk(c, s) && MakingFresh(c, s) && Enabled(c, s, step) && key in s.making
    requires exists w :: 0 <= w < |s.ingress.workers| && s.ingress.workers[w] == WQ.Got(key)
    requires var s' := Next(c, s, step);
      !s'.ingress.q.shuttingDown && key in s'.making && key in s'.target && Labelled(s'.target[key])
    ensures var s' := Next(c, s, step);
      Requeued(s', key) || s'.making[key] == Copy(c.settings.domains, s'.target[key].tls)
  {
    if step.Edit? {
      EditKeepsRequeued(c, s, step, key);
    } else if Requeued(s, key) {
      RequeuedKept(c, s, step, key);
    } else if step.Ingress? {
      WQ.ShutdownIsFinal(c.ingressWorkers, s.ingress, step.iact);
    }
  }

  lemma EditKeepsRequeued(c: Config, s: State, step: Step, key: TargetKey)
    requires step.Edit? && key in Next(c, s, step).target && Labelled(Next(c, s, step).target[key])
    ensures var s' := Next(c, s, step);
      || Requeued(s', key)
      || (key in s.target && Labelled(s.target[key]) && s.target[key].tls == s'.target[key].tls && !Requeued(s, key))
  {
    var s' := Next(c, s, step);
    var n := Notice(step.key, At(s.target, step.key), step.edited);
    assert n in s'.notices;
    assert Noticed(s, key) ==> Noticed(s', key);
    if !(key == step.key && Enqueues(n)) {
      assert key in s.target && Labelled(s.target[key]) && s.target[key].tls == s'.target[key].tls;
    }
  }

  /** Nobody takes a key that a worker holds. */
  lemma RequeuedKept(c: Config, s: State, step: Step, key: TargetKey)
    requires PoolsOk(c, s) && Enabled(c, s, step) && !step.Edit? && !step.Restart?
    requires !Next(c, s, step).ingress.q.shuttingDown && Requeued(s, key)
    requires exists w :: 0 <= w < |s.ingress.workers| && s.ingress.workers[w] == WQ.Got(key)
    ensures Requeued(Next(c, s, step), key)
  {
    if Noticed(s, key) {
      NoticedKept(c, s, step, key);
    } else {
      GotIsProcessing(s.ingress, key);
      WaitingInPool(c, s, step, key);
    }
  }

  lemma GotIsProcessing(p: WQ.Pool<TargetKey>, key: TargetKey)
    requires WQ.HeldAreProcessing(p) && exists w :: 0 <= w < |p.workers| && p.workers[w] == WQ.Got(key)
    ensures key in p.q.processing
  {
    var w :| 0 <= w < |p.workers| && p.workers[w] == WQ.Got(key);
    assert WQ.Holds(p.workers[w], key);
  }

  lemma WaitingInPool(c: Config, s: State, step: Step, key: TargetKey)
    requires s.ingress.q.Ok() && Enabled(c, s, step) && !step.Restart?
    requires !Next(c, s, step).ingress.q.shuttingDown && key in s.ingress.q.processing
    requires key in s.ingress.q.dirty || key in s.ingress.q.delayed
    ensures var q := Next(c, s, step).ingress.q; key in q.dirty || key in q.delayed
  {
    if step.Ingress? {
      WQ.WaitingKept(c.ingressWorkers, s.ingress, step.iact, key);
      assert Next(c, s, step).ingress == WQ.Next(c.ingressWorkers, s.ingress, step.iact);
    }
  }

  lemma NoticedKept(c: Config, s: State, step: Step, key: TargetKey)
    requires Enabled(c, s, step) && !step.Edit? && !step.Restart?
    requires !Next(c, s, step).ingress.q.shuttingDown && Noticed(s, key)
    ensures Requeued(Next(c, s, step), key)
  {
    var s' := Next(c, s, step);
    var n :| n in s.notices && n.key == key && Enqueues(n);
    if step.Notify? {
      assert n == s.notices[0] || n in s.notices[1..];
      assert n in s'.notices || key in s'.ingress.q.delayed;
    } else {
      assert n in s'.notices;
    }
  }

  /** Undisturbed, the two halves are the sync that the code is. */
  lemma TwoHalvesMakeSync(c: Config, s: State, w: nat, copy: CopyResult, any: CopyResult, f: Faults)
    requires Enabled(c, s, Template(w, copy))
    ensures var key, s' := s.ingress.workers[w].key, Next(c, s, Template(w, copy));
      IngressRun(c, s', key, any, f) == IngressSync(c, s, key, copy, f)
  {}

  // ---- The two halves of a removal ----

  lemma RemovingKept(c: Config, s: State, step: Step, name: ManagedName)
    requires Owned(c.settings.domains, s.b.control) && Enabled(c, s, step) && name in Next(c, s, step).removing
    requires RemovingOk(c, s, name)
    ensures RemovingOk(c, Next(c, s, step), name)
  {
    if step.Condemn? {
      CondemnKeepsRemoving(c, s, step, name);
    } else if step.Cleaner? {
      CleanerKeepsRemoving(c, s, step, name);
    } else {
      OthersKeepRemoving(c, s, step);
    }
  }

  lemma OthersKeepRemoving(c: Config, s: State, step: Step)
    requires Enabled(c, s, step) && !step.Condemn? && !step.Cleaner? && !step.Restart?
    ensures Next(c, s, step).removing == s.removing && Next(c, s, step).cleaner.workers == s.cleaner.workers
  {}

  lemma CleanerKeepsRemoving(c: Config, s: State, step: Step, name: ManagedName)
    requires Enabled(c, s, step) && step.Cleaner? && RemovingOk(c, s, name) && name in Next(c, s, step).removing
    ensures RemovingOk(c, Next(c, s, step), name)
  {
    var s' := Next(c, s, step);
    assert name in s.removing && s'.removing[name] == s.removing[name];
    var w :| 0 <= w < |s.cleaner.workers| && s.cleaner.workers[w] == WQ.Got(name);
    WQ.GotKept(c.cleanerWorkers, s.cleaner, step.cact, w);
    assert s'.cleaner.workers[w] == WQ.Got(name);
  }

  lemma CondemnIsNext(c: Config, s: State, step: Step)
    requires Enabled(c, s, step) && step.Condemn?
    ensures step.v < |s.cleaner.workers| && s.cleaner.workers[step.v].Got?
    ensures var name, s' := s.cleaner.workers[step.v].key, Next(c, s, step);
      && name !in s.removing && name in s.b.control.ingresses
      && s' == s.(removing := s.removing[name := s.b.control.ingresses[name]])
  {}

  lemma CondemnKeepsRemoving(c: Config, s: State, step: Step, name: ManagedName)
    requires Owned(c.settings.domains, s.b.control) && Enabled(c, s, step) && step.Condemn?
    requires name in Next(c, s, step).removing && RemovingOk(c, s, name)
    ensures RemovingOk(c, Next(c, s, step), name)
  {
    CondemnIsNext(c, s, step);
    NewRemovalOk(c, s, Next(c, s, step), step.v, name);
  }

  lemma NewRemovalOk(c: Config, s: State, s': State, w: nat, name: ManagedName)
    requires Owned(c.settings.domains, s.b.control) && RemovingOk(c, s, name)
    requires w < |s.cleaner.workers| && s.cleaner.workers[w].Got?
    requires var condemned := s.cleaner.workers[w].key;
      && condemned in s.b.control.ingresses
      && s' == s.(removing := s.removing[condemned := s.b.control.ingresses[condemned]])
    ensures RemovingOk(c, s', name)
  {
    if name == s.cleaner.workers[w].key {
      assert s.cleaner.workers[w] == WQ.Got(name);
      OwnedAt(c.settings.domains, s.b.control, name);
    }
  }

  lemma OwnedAt(domains: Domains, control: Control, name: string)
    requires Owned(domains, control) && name in control.ingresses && FilterAccepts(name)
    ensures OwnedIngress(domains, name, control.ingresses[name])
  {}

  /** Undisturbed, the two halves are the sync that the code is. */
  lemma TwoHalvesMakeSweep(c: Config, s: State, w: nat, f: Faults)
    requires Enabled(c, s, Condemn(w))
    ensures var name, s' := s.cleaner.workers[w].key, Next(c, s, Condemn(w));
      CleanerRun(c, s', name, f) == CleanerSync(c, s, name, f)
  {}

  // ---- The cleaner never forgets ----

  /** A run that forgets a name leaves no control Ingress of that name. */
  lemma ForgottenIsGone(c: Config, s: State, name: ManagedName, f: Faults)
    requires name !in s.removing ==> !Orphaned(s, name)
    requires CleanerRun(c, s, name, f).err.None? && !CleanerRun(c, s, name, f).requeue
    ensures name !in CleanerRun(c, s, name, f).control.ingresses
  {}

  lemma CleanerKeepsCovered(c: Config, s: State, step: Step)
    requires Covered(s) && step.Cleaner? && Enabled(c, s, step)
    ensures Covered(Next(c, s, step))
  {
    var a, s' := step.cact, Next(c, s, step);
    CleanerStepShrinks(c, s, step);
    if !s'.cleaner.q.shuttingDown {
      forall name: ManagedName | name in s'.b.control.ingresses
        ensures WQ.Pending(s'.cleaner, name) || name in s'.adds
      {
        if WQ.Pending(s.cleaner, name) {
          if a.Run? && s.cleaner.workers[a.w].key == name && a.outcome == WQ.Forget {
            ForgottenIsGone(c, s, name, step.f);
            assert false;
          } else {
            WQ.PendingKept(c.cleanerWorkers, s.cleaner, a, name);
          }
        }
      }
    }
  }

  lemma NotifyAddKeepsCovered(c: Config, s: State)
    requires Covered(s) && s.adds != []
    ensures Covered(Next(c, s, NotifyAdd))
  {
    var s' := Next(c, s, NotifyAdd);
    if !s.cleaner.q.shuttingDown {
      WQ.AddMakesPending(s.cleaner, s.adds[0]);
      forall name: ManagedName | name in s'.b.control.ingresses
        ensures WQ.Pending(s'.cleaner, name) || name in s'.adds
      {
        assert name in s.adds ==> name == s.adds[0] || name in s.adds[1..];
        assert s'.cleaner.workers == s.cleaner.workers;
      }
    }
  }

  /** A new control Ingress is announced to the cleaner. */
  lemma RunAnnounces(c: Config, s: State, step: Step)
    requires step.Ingress? && step.iact.Run? && Enabled(c, s, step)
    ensures var s' := Next(c, s, step);
      && s'.cleaner == s.cleaner && s.adds <= s'.adds
      && forall name: ManagedName :: name in s'.b.control.ingresses ==> name in s.b.control.ingresses || name in s'.adds
  {
    var key := s.ingress.workers[step.iact.w].key;
    RunAddsOwn(c, s, key, step.copy, step.f);
  }

  lemma IngressKeepsCovered(c: Config, s: State, step: Step)
    requires Covered(s) && step.Ingress? && Enabled(c, s, step)
    ensures Covered(Next(c, s, step))
  {
    if step.iact.Run? {
      RunAnnounces(c, s, step);
    }
  }

  lemma CoveredKept(c: Config, s: State, step: Step)
    requires Covered(s) && Enabled(c, s, step)
    ensures Covered(Next(c, s, step))
  {
    match step
    case Cleaner(_, _) => CleanerKeepsCovered(c, s, step);
    case NotifyAdd => NotifyAddKeepsCovered(c, s);
    case Ingress(_, _, _) => IngressKeepsCovered(c, s, step);
    case _ =>
  }

  // ---- Every run ----

  lemma InvKept(c: Config, s: State, step: Step)
    requires Unambiguous(c.settings.domains) && Inv(c, s) && Enabled(c, s, step)
    ensures Inv(c, Next(c, s, step))
  {
    ControlKept(c, s, step);
    TemplateKept(c, s, step);
    forall key: TargetKey ensures MakingOk(c, Next(c, s, step), key) {
      if key in Next(c, s, step).making {
        MakingKept(c, s, step, key);
      }
    }
    forall name: ManagedName ensures RemovingOk(c, Next(c, s, step), name) {
      if name in Next(c, s, step).removing {
        RemovingKept(c, s, step, name);
      }
    }
    FreshKept(c, s, step);
    CoveredKept(c, s, step);
    PoolsKept(c, s, step);
  }

  lemma PoolsKept(c: Config, s: State, step: Step)
    requires PoolsOk(c, s) && Enabled(c, s, step)
    ensures PoolsOk(c, Next(c, s, step))
  {
    match step
    case Ingress(a, _, _) => WQ.PoolKept(c.ingressWorkers, s.ingress, a);
    case Cleaner(a, _) => WQ.PoolKept(c.cleanerWorkers, s.cleaner, a);
    case Notify => WQ.PoolKept(c.ingressWorkers, s.ingress, WQ.AddDelayed(s.notices[0].key));
    case NotifyAdd => WQ.PoolKept(c.cleanerWorkers, s.cleaner, WQ.AddNow(s.adds[0]));
    case _ =>
  }

  /** In no state of a run does a sync write to a nil annotation map. */
  lemma NoNilMapWrite(c: Config, s: State, key: TargetKey, copy: CopyResult, name: ManagedName, f: Faults)
    requires Inv(c, s)
    ensures IngressRun(c, s, key, copy, f).err != Some(NilMapWrite)
    ensures CleanerRun(c, s, name, f).err != Some(NilMapWrite)
  {
    IngressWritesNoNilMap(c, s, key, copy, f);
    CleanerWritesNoNilMap(c, s, name, f);
  }

  lemma IngressWritesNoNilMap(c: Config, s: State, key: TargetKey, copy: CopyResult, f: Faults)
    requires Owned(c.settings.domains, s.b.control)
    ensures IngressRun(c, s, key, copy, f).err != Some(NilMapWrite)
  {
    NameOfKey(key);
    OwnedIsWritable(c.settings.domains, s.b.control, ControlName(key));
  }

  lemma CleanerWritesNoNilMap(c: Config, s: State, name: ManagedName, f: Faults)
    requires Owned(c.settings.domains, s.b.control)
    ensures CleanerRun(c, s, name, f).err != Some(NilMapWrite)
  {
    OwnedIsWritable(c.settings.domains, s.b.control, name);
  }

  lemma OwnedIsWritable(domains: Domains, control: Control, name: string)
    requires Owned(domains, control) && FilterAccepts(name)
    ensures name in control.ingresses ==> control.ingresses[name].annotations != map[]
  {
    assert name in control.ingresses ==> OwnedIngress(domains, name, control.ingresses[name]);
  }

  /** A broker starts with empty queues and the first lists of its informers. The control cluster
      may hold the Ingresses of an earlier broker with the same configuration, and any others
      that the filter does not let through. */
  ghost predicate Initial(c: Config, s: State) {
    && Owned(c.settings.domains, s.b.control)
    && s.b.provider == "" && s.making == map[] && s.removing == map[] && ProvidersFit(c.settings.domains, s.b.control)
    && s.ingress == WQ.Fresh() && s.cleaner == WQ.Fresh()
    && Lists(s, s.notices, s.adds)
  }

  ghost predicate StepAt(c: Config, states: seq<State>, steps: seq<Step>, i: nat)
    requires |states| == |steps| + 1 && i < |steps|
  {
    Enabled(c, states[i], steps[i]) && states[i + 1] == Next(c, states[i], steps[i])
  }

  ghost predicate IsRun(c: Config, states: seq<State>, steps: seq<Step>) {
    && |states| == |steps| + 1 && Initial(c, states[0])
    && forall i: nat :: i < |steps| ==> StepAt(c, states, steps, i)
  }

  lemma InitialInv(c: Config, s: State)
    requires Initial(c, s)
    ensures Inv(c, s)
  {}

  /** The main theorem: in every state of every run, the control cluster is the broker's own, what the
      workers are about to write is current or will be looked at again, the cleaner has every control
      Ingress in view, and provider annotations fit unless two users of the template can get between
      each other. */
  lemma EveryRun(c: Config, states: seq<State>, steps: seq<Step>, i: nat)
    requires Unambiguous(c.settings.domains) && IsRun(c, states, steps) && i < |states|
    ensures Inv(c, states[i])
  {
    var inv := (s: State) => Inv(c, s);
    InitialInv(c, states[0]);
    forall j: nat | j + 1 < |states| ensures Carried(inv, states, j) {
      InvAt(c, states, steps, j);
    }
    Invariantly(inv, states, i);
  }

  lemma InvAt(c: Config, states: seq<State>, steps: seq<Step>, j: nat)
    requires Unambiguous(c.settings.domains) && IsRun(c, states, steps) && j < |steps|
    ensures Inv(c, states[j]) ==> Inv(c, states[j + 1])
  {
    assert StepAt(c, states, steps, j);
    if Inv(c, states[j]) {
      InvKept(c, states[j], steps[j]);
    }
  }
}
