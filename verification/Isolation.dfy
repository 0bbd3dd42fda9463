/** No target namespace can disturb another one, and a certificate comes back where it was asked for. */
module Isolation {
  import opened Naming
  import opened TLS
  import opened CopySpec
  import opened Prefix
  import opened Clusters
  import opened Protocol
  import opened Safety
  import opened Dirty

  predicate SameAt<V(==)>(before: map<string, V>, after: map<string, V>, k: string) {
    (k in before <==> k in after) && (k in before && k in after ==> before[k] == after[k])
  }

  /** Whatever differs between the two is named for `ns`. */
  ghost predicate TouchesOnly(before: Control, after: Control, ns: string) {
    && (forall name :: !SameAt(before.ingresses, after.ingresses, name) ==> BrokerMade(name) && TargetOf(name).ns == ns)
    && (forall secret :: !SameAt(before.secrets, after.secrets, secret) ==>
          exists s :: secret == CreateNameForControlCluster(ns, s))
  }

  lemma ListedSecretIsNamed(ns: string, t: seq<IngressTLS>, n: nat, secret: string)
    requires n <= |t| && secret in SecretNames(Prefixed(ns, t)[..n])
    ensures exists s :: secret == CreateNameForControlCluster(ns, s)
  {
    var i :| 0 <= i < n && Prefixed(ns, t)[..n][i].secretName == secret;
    assert secret == CreateNameForControlCluster(ns, t[i].secretName);
  }

  lemma CleanUpFrame(control: Control, name: string, tls: seq<IngressTLS>, f: Faults, secret: string)
    requires !SameAt(control.secrets, CleanUp(control, name, tls, f).secrets, secret)
    ensures var n := Landed(f, 1 + |tls|); n > 0 && secret in SecretNames(tls[..n - 1])
  {}

  lemma RemovalTouchesOnly(domains: Domains, control: Control, name: string, ingress: ControlIngress, f: Faults)
    requires OwnedIngress(domains, name, ingress)
    ensures TouchesOnly(control, CleanUp(control, name, ingress.tls, f), TargetOf(name).ns)
  {
    var ns, after := TargetOf(name).ns, CleanUp(control, name, ingress.tls, f);
    var t: seq<IngressTLS> :| ingress.tls == Prefixed(ns, t) && Copy(domains, t).tls == t;
    forall secret | !SameAt(control.secrets, after.secrets, secret)
      ensures exists s :: secret == CreateNameForControlCluster(ns, s)
    {
      CleanUpFrame(control, name, ingress.tls, f, secret);
      assert |ingress.tls| == |t|;
      ListedSecretIsNamed(ns, t, Landed(f, 1 + |ingress.tls|) - 1, secret);
    }
  }

  lemma PutTouchesOnly(control: Control, key: TargetKey, ingress: ControlIngress, f: Faults)
    ensures TouchesOnly(control, Put(control, ControlName(key), ingress, f), key.ns)
  {
    NameOfKey(key);
  }

  /** A run of the ingress controller touches only what is named for the namespace of its key,
      whether it creates, updates or cleans up, and wherever it fails. */
  lemma IngressTouchesOnly(c: Config, s: State, key: TargetKey, copy: CopyResult, f: Faults)
    requires Owned(c.settings.domains, s.b.control)
    ensures TouchesOnly(s.b.control, IngressRun(c, s, key, copy, f).broker.control, key.ns)
  {
    if key in s.making {
      PutTouchesOnly(s.b.control, key,
        ControlIngress(Prefixed(key.ns, s.making[key].tls), TemplateAnnotations(c.settings, s.b.provider)), f);
    } else {
      SyncTouchesOnly(c, s, key, copy, f);
    }
  }

  lemma SyncTouchesOnly(c: Config, s: State, key: TargetKey, copy: CopyResult, f: Faults)
    requires Owned(c.settings.domains, s.b.control)
    ensures TouchesOnly(s.b.control, IngressSync(c, s, key, copy, f).broker.control, key.ns)
  {
    var name, ingresses := ControlName(key), s.b.control.ingresses;
    NameOfKey(key);
    if key !in s.target {
      if name in ingresses {
        assert OwnedIngress(c.settings.domains, name, ingresses[name]);
        RemovalTouchesOnly(c.settings.domains, s.b.control, name, ingresses[name], f);
      }
    } else if name in ingresses {
      PutTouchesOnly(s.b.control, key,
        ControlIngress(Prefixed(key.ns, copy.tls), ingresses[name].annotations[DNS_PROVIDER_KEY := copy.provider]), f);
    } else {
      PutTouchesOnly(s.b.control, key,
        ControlIngress(Prefixed(key.ns, copy.tls), TemplateAnnotations(c.settings, copy.provider)), f);
    }
  }

  /** So does the cleaner, and it never touches what is not the broker's; a removal decided before
      touches only what the Ingress listed then. */
  lemma CleanerTouchesOnly(c: Config, s: State, name: ManagedName, f: Faults)
    requires Owned(c.settings.domains, s.b.control)
    requires OwnRemoval(c, s, name)
    ensures TouchesOnly(s.b.control, CleanerRun(c, s, name, f).control, TargetOf(name).ns)
  {
    if name in s.removing {
      RemovalTouchesOnly(c.settings.domains, s.b.control, name, s.removing[name], f);
    } else if name in s.b.control.ingresses {
      SweepTouchesOnly(c, s, name, f);
    }
  }

  lemma SweepTouchesOnly(c: Config, s: State, name: ManagedName, f: Faults)
    requires Owned(c.settings.domains, s.b.control) && name in s.b.control.ingresses
    ensures TouchesOnly(s.b.control, CleanerSync(c, s, name, f).control, TargetOf(name).ns)
  {
    assert OwnedIngress(c.settings.domains, name, s.b.control.ingresses[name]);
    RemovalTouchesOnly(c.settings.domains, s.b.control, name, s.b.control.ingresses[name], f);
  }

  ghost predicate TouchesOneNamespace(before: Control, after: Control) {
    exists ns :: TouchesOnly(before, after, ns)
  }

  /** In a state of any run, one step of the broker touches one namespace of the control cluster. */
  lemma StepTouchesOneNamespace(c: Config, s: State, step: Step)
    requires Inv(c, s) && Enabled(c, s, step) && !step.Issue?
    ensures TouchesOneNamespace(s.b.control, Next(c, s, step).b.control)
  {
    if step.Ingress? {
      IngressStepTouches(c, s, step);
    } else if step.Cleaner? {
      CleanerStepTouches(c, s, step);
    } else {
      OthersTouchNothing(c, s, step);
    }
  }

  /** What is being removed under this name was the broker's own. */
  ghost predicate OwnRemoval(c: Config, s: State, name: ManagedName) {
    name in s.removing ==> OwnedIngress(c.settings.domains, name, s.removing[name])
  }

  lemma IsOwnRemoval(c: Config, s: State, name: ManagedName)
    requires forall name: ManagedName :: RemovingOk(c, s, name)
    ensures OwnRemoval(c, s, name)
  {
    assert RemovingOk(c, s, name);
  }

  lemma OthersTouchNothing(c: Config, s: State, step: Step)
    requires Enabled(c, s, step) && !step.Issue? && !step.Ingress? && !step.Cleaner?
    ensures TouchesOneNamespace(s.b.control, Next(c, s, step).b.control)
  {
    NothingTouched(s.b.control);
  }

  lemma NothingTouched(control: Control)
    ensures TouchesOneNamespace(control, control)
  {
    assert TouchesOnly(control, control, "");
  }

  lemma IngressStepTouches(c: Config, s: State, step: Step)
    requires Owned(c.settings.domains, s.b.control) && Enabled(c, s, step) && step.Ingress?
    ensures TouchesOneNamespace(s.b.control, Next(c, s, step).b.control)
  {
    if step.iact.Run? {
      IngressTouchesOnly(c, s, s.ingress.workers[step.iact.w].key, step.copy, step.f);
    } else {
      NothingTouched(s.b.control);
    }
  }

  lemma CleanerStepTouches(c: Config, s: State, step: Step)
    requires Owned(c.settings.domains, s.b.control) && Enabled(c, s, step) && step.Cleaner?
    requires forall name: ManagedName :: RemovingOk(c, s, name)
    ensures TouchesOneNamespace(s.b.control, Next(c, s, step).b.control)
  {
    if step.cact.Run? {
      var name := s.cleaner.workers[step.cact.w].key;
      IsOwnRemoval(c, s, name);
      CleanerRunIsNext(c, s, step);
      CleanerRunTouches(c, s, step.f, name);
    } else {
      NothingTouched(s.b.control);
    }
  }

  lemma CleanerRunTouches(c: Config, s: State, f: Faults, name: ManagedName)
    requires Owned(c.settings.domains, s.b.control) && OwnRemoval(c, s, name)
    ensures TouchesOneNamespace(s.b.control, CleanerRun(c, s, name, f).control)
  {
    CleanerTouchesOnly(c, s, name, f);
  }

  // ---- Secrets ----

  /** Two different broker-made control secrets are never written to one target secret. */
  lemma SecretsApart(name: string, other: string)
    requires BrokerMade(name) && BrokerMade(other) && TargetOf(name) == TargetOf(other)
    ensures name == other
  {
    KeyOfName(name);
    KeyOfName(other);
  }

  /** Without the broker's prefix they may be: both of these pass the filter, and the later one
      to be synchronised wins. */
  lemma SecretsCollide(head: string, ns: string, name: string)
    requires SEPARATOR !in head && SEPARATOR !in ns && |ns| > 0 && |name| > 0 && head != MANAGED_CERT
    ensures var foreign := head + [SEPARATOR] + ns + [SEPARATOR] + name;
      var own := CreateNameForControlCluster(ns, name);
      foreign != own && FilterAccepts(foreign) && FilterAccepts(own) && TargetOf(foreign) == TargetOf(own)
  {
    HeadsCollide(head, MANAGED_CERT, ns, name);
  }

  // ---- A certificate's round trip ----

  /** An entry with a managed host is copied with its managed hosts, under its secret name. */
  lemma {:induction false} EntryCopied(domains: Domains, tls: seq<IngressTLS>, entry: IngressTLS, host: string)
    requires entry in tls && host in entry.hosts && Managed(domains, host)
    ensures IngressTLS(Keep(domains, entry.hosts), entry.secretName) in FilterTLS(domains, tls)
  {
    var last := tls[|tls| - 1];
    KeptAreManaged(domains, last.hosts);
    var front := tls[..|tls| - 1];
    assert tls == front + [last];
    if entry in front {
      EntryCopied(domains, front, entry, host);
      assert FilterTLS(domains, front) <= FilterTLS(domains, tls);
    } else {
      var t := IngressTLS(Keep(domains, last.hosts), last.secretName);
      assert host in t.hosts && t in FilterTLS(domains, tls);
    }
  }

  /** After an ingress sync, the control Ingress asks for a certificate for the managed hosts of the
      entry, under its secret name prefixed. */
  lemma SyncRequestsCertificate(
    c: Config, s: State, key: TargetKey, copy: CopyResult, f: Faults, entry: IngressTLS, host: string)
    requires Unambiguous(c.settings.domains) && Owned(c.settings.domains, s.b.control)
    requires key in s.target && CopyOutcome(c.settings.domains, s.target[key].tls, copy) && copy != NOTHING
    requires entry in s.target[key].tls && host in entry.hosts && Managed(c.settings.domains, host)
    requires IngressSync(c, s, key, copy, f).err.None?
    ensures var control := IngressSync(c, s, key, copy, f).broker.control;
      && ControlName(key) in control.ingresses
      && var tls := control.ingresses[ControlName(key)].tls;
      && IngressTLS(Keep(c.settings.domains, entry.hosts), CreateNameForControlCluster(key.ns, entry.secretName)) in tls
      && CreateNameForControlCluster(key.ns, entry.secretName) in SecretNames(tls)
  {
    var domains := c.settings.domains;
    RunSyncs(c, s, key, copy, f);
    CopyRefines(domains, s.target[key].tls, copy);
    CopyNothing(domains, s.target[key].tls);
    EntryCopied(domains, s.target[key].tls, entry, host);
    var t := IngressTLS(Keep(domains, entry.hosts), entry.secretName);
    var i :| 0 <= i < |copy.tls| && copy.tls[i] == t;
    var tls := IngressSync(c, s, key, copy, f).broker.control.ingresses[ControlName(key)].tls;
    assert tls == Prefixed(key.ns, copy.tls);
    assert tls[i] in tls && tls[i].secretName == CreateNameForControlCluster(key.ns, entry.secretName);
    assert tls[i].hosts == t.hosts;
  }

  /** The round trip. A labelled Ingress in `ns` has an entry with secret name `s` and a managed
      host, and its providers do not conflict. After an ingress sync the control Ingress names a
      secret; once Cert-Manager has stored `data` under that name, a secret sync makes the target
      secret (ns, s) exactly `data`, whether or not it existed, and changes no other target secret. */
  lemma RoundTrip(
    c: Config, s: State, key: TargetKey, copy: CopyResult, f: Faults, g: Faults, entry: IngressTLS, host: string,
    data: SecretData)
    requires Unambiguous(c.settings.domains) && Owned(c.settings.domains, s.b.control)
    requires key in s.target && Labelled(s.target[key])
    requires CopyOutcome(c.settings.domains, s.target[key].tls, copy)
    requires !ProvidersDiffer(c.settings.domains, s.target[key].tls)
    requires entry in s.target[key].tls && entry.secretName != ""
    requires host in entry.hosts && Managed(c.settings.domains, host)
    requires IngressSync(c, s, key, copy, f).err.None?
    requires g.budget >= 2
    ensures var control := IngressSync(c, s, key, copy, f).broker.control;
      var name := CreateNameForControlCluster(key.ns, entry.secretName);
      var issued := control.secrets[name := data];
      && ControlName(key) in control.ingresses && name in SecretNames(control.ingresses[ControlName(key)].tls)
      && FilterAccepts(name)
      && SyncSecret(s.target, issued, s.targetSecrets, name, g)
           == (s.targetSecrets[Key(key.ns, entry.secretName) := data], None)
  {
    var name := CreateNameForControlCluster(key.ns, entry.secretName);
    CopyNothing(c.settings.domains, s.target[key].tls);
    CopyRefines(c.settings.domains, s.target[key].tls, copy);
    assert Listed(c.settings.domains, s.target[key].tls, host);
    SyncRequestsCertificate(c, s, key, copy, f, entry, host);
    SplitUndoesCreate(key.ns, entry.secretName);
    assert entry.secretName in SecretNames(s.target[key].tls);
    assert HasIngress(s.target, key.ns, entry.secretName);
  }

  /** A secret sync writes exactly when a labelled Ingress of the secret's own namespace asks for it,
      and writes that secret only. It ends with an error or with the issued data in place; after an
      error the target secret is the old one or the issued one, never anything else. */
  lemma SecretsServed(target: map<Key, TargetIngress>, controlSecrets: map<string, SecretData>,
                      targetSecrets: map<Key, SecretData>, name: ManagedName, f: Faults)
    ensures var (after, err) := SyncSecret(target, controlSecrets, targetSecrets, name, f);
      var key := TargetOf(name);
      var asked := name in controlSecrets && exists k ::
        k in target && k.ns == key.ns && Labelled(target[k]) && key.name in SecretNames(target[k].tls);
      && (!asked ==> after == targetSecrets && err == None)
      && (asked ==> after == targetSecrets || after == targetSecrets[key := controlSecrets[name]])
      && (asked && err == None ==> after == targetSecrets[key := controlSecrets[name]])
  {
    var key := TargetOf(name);
    assert key.ns != "";
    assert HasIngress(target, key.ns, key.name) <==> exists k ::
      k in target && k.ns == key.ns && Labelled(target[k]) && key.name in SecretNames(target[k].tls);
  }
}
