/** The two-cluster protocol as a state machine: users edit the target cluster, informers deliver
    notices, the workers of the ingress controller and of the cleaner take steps, API calls fail,
    and the broker restarts. One synchronisation is one step, except that a create sets the shared
    template in a step of its own, and that the cleaner decides on a removal in one step and carries
    it out in another; everything between steps is interleaved. */
module Protocol {
  import opened Naming
  import opened TLS
  import opened CopySpec
  import opened Prefix
  import opened Clusters
  import WQ = WorkQueue

  /** Namespaces have no dot, and neither part of a target object's name is empty. */
  predicate ValidKey(k: Key) {
    |k.ns| > 0 && SEPARATOR !in k.ns && |k.name| > 0
  }

  type TargetKey = k: Key | ValidKey(k) witness Key("a", "b")

  /** What the control cluster's informer filter lets through. */
  type ManagedName = s: string | FilterAccepts(s) witness ".a.b"

  /** A change of the target cluster's cache whose handler call is still to come. */
  datatype Notice = Notice(key: TargetKey, before: Option<TargetIngress>, after: Option<TargetIngress>)

  datatype Config = Config(settings: Settings, ingressWorkers: nat, cleanerWorkers: nat)

  /** `target` is the cache of the target cluster's Ingresses, `b` the control cluster and the
      shared template, `making` what the workers are about to create that have set the template's
      field but not yet read it back, `removing` the control Ingresses that the cleaner's workers have
      found to be orphans and are about to remove, `adds` the undelivered additions to the control
      cluster. */
  datatype State = State(
    target: map<TargetKey, TargetIngress>,
    b: Broker,
    making: map<TargetKey, CopyResult>,
    removing: map<ManagedName, ControlIngress>,
    targetSecrets: map<Key, SecretData>,
    ingress: WQ.Pool<TargetKey>,
    cleaner: WQ.Pool<ManagedName>,
    notices: seq<Notice>,
    adds: seq<ManagedName>)

  datatype Step =
    | Edit(key: TargetKey, edited: Option<TargetIngress>)
    | Notify
    | NotifyAdd
    | Template(w: nat, made: CopyResult)
    | Ingress(iact: WQ.Act<TargetKey>, copy: CopyResult, f: Faults)
    | Condemn(v: nat)
    | Cleaner(cact: WQ.Act<ManagedName>, f: Faults)
    | Issue(secret: string, data: SecretData)
    | Secret(name: ManagedName, f: Faults)
    | Restart(listed: seq<Notice>, present: seq<ManagedName>)

  /** The filtering handler in front of `OnAdd`, `OnUpdate` and `OnDelete`: does this notice
      put its key into the queue? An update between labelled Ingresses does if their TLS differs. */
  predicate Enqueues(n: Notice) {
    match (n.before, n.after)
    case (None, None) => false
    case (None, Some(new')) => Labelled(new')
    case (Some(old'), None) => Labelled(old')
    case (Some(old'), Some(new')) =>
      if Labelled(new') && Labelled(old') then old'.tls != new'.tls else Labelled(new') || Labelled(old')
  }

  function At(target: map<TargetKey, TargetIngress>, key: TargetKey): Option<TargetIngress> {
    if key in target then Some(target[key]) else None
  }

  function IngressSync(c: Config, s: State, key: TargetKey, copy: CopyResult, f: Faults): SyncResult {
    SyncIngress(c.settings, s.target, s.b, key, copy, f)
  }

  /** What a worker does that has got `key`: the second half of a create, or a whole sync. */
  function IngressRun(c: Config, s: State, key: TargetKey, copy: CopyResult, f: Faults): SyncResult {
    if key in s.making then FinishCreate(c.settings, s.b, key, s.making[key], f) else IngressSync(c, s, key, copy, f)
  }

  /** The sync is one that creates: it sets the template's field before anything else. */
  predicate Creates(s: State, key: TargetKey, copy: CopyResult) {
    key in s.target && ControlName(key) !in s.b.control.ingresses && copy.tls != []
  }

  function CleanerSync(c: Config, s: State, name: ManagedName, f: Faults): CleanResult {
    SyncCleaner(c.settings, s.target, s.b, name, f)
  }

  ghost predicate HasCounterpart(s: State, name: ManagedName) {
    TargetOf(name) in s.target && Labelled(s.target[TargetOf(name)])
  }

  /** A managed control Ingress that the cleaner would remove. */
  ghost predicate Orphaned(s: State, name: ManagedName) {
    name in s.b.control.ingresses && !HasCounterpart(s, name)
  }

  /** What a worker of the cleaner does that has got `name`: a removal decided before, of the Ingress
      as it was then, or a whole sync. */
  function CleanerRun(c: Config, s: State, name: ManagedName, f: Faults): CleanResult {
    if name in s.removing then Remove(s.b.control, name, s.removing[name], f) else CleanerSync(c, s, name, f)
  }

  /** The broker's first lists: one addition per target Ingress and per managed control Ingress. */
  ghost predicate Lists(s: State, listed: seq<Notice>, present: seq<ManagedName>) {
    && (forall n :: n in listed ==> n.before.None? && n.key in s.target && n.after == Some(s.target[n.key]))
    && (forall key :: key in s.target ==> exists n :: n in listed && n.key == key)
    && (forall name: ManagedName :: name in present <==> name in s.b.control.ingresses)
  }

  ghost predicate Enabled(c: Config, s: State, step: Step) {
    match step
    case Edit(_, _) => true
    case Notify => s.notices != []
    case NotifyAdd => s.adds != []
    case Template(w, copy) =>
      && w < |s.ingress.workers| && s.ingress.workers[w].Got?
      && var key := s.ingress.workers[w].key;
      && key !in s.making && Creates(s, key, copy)
      && CopyOutcome(c.settings.domains, s.target[key].tls, copy)
    case Ingress(a, copy, f) =>
      && !a.AddNow? && !a.AddDelayed? && WQ.Enabled(c.ingressWorkers, s.ingress, a)
      && (a.Run? ==>
            var key := s.ingress.workers[a.w].key;
            && (key !in s.making ==>
                  && (key in s.target ==> CopyOutcome(c.settings.domains, s.target[key].tls, copy))
                  && !Creates(s, key, copy))
            && a.outcome == WQ.OutcomeOf(IngressRun(c, s, key, copy, f).err.Some?, false))
    case Condemn(w) =>
      && w < |s.cleaner.workers| && s.cleaner.workers[w].Got?
      && var name := s.cleaner.workers[w].key;
      name !in s.removing && Orphaned(s, name)
    case Cleaner(a, f) =>
      && !a.AddNow? && !a.AddDelayed? && WQ.Enabled(c.cleanerWorkers, s.cleaner, a)
      && (a.Run? ==>
            var name := s.cleaner.workers[a.w].key;
            var r := CleanerRun(c, s, name, f);
            && (name !in s.removing ==> !Orphaned(s, name))
            && a.outcome == WQ.OutcomeOf(r.err.Some?, r.requeue))
    case Issue(_, _) => true
    case Secret(_, _) => true
    case Restart(listed, present) => Lists(s, listed, present)
  }

  ghost function Next(c: Config, s: State, step: Step): State
    requires Enabled(c, s, step)
  {
    match step
    case Edit(key, edited) =>
      s.(target := if edited.Some? then s.target[key := edited.value] else s.target - {key},
         notices := s.notices + [Notice(key, At(s.target, key), edited)])
    case Notify =>
      var n := s.notices[0];
      s.(notices := s.notices[1..],
         ingress := if Enqueues(n) then s.ingress.(q := s.ingress.q.AddLater(n.key)) else s.ingress)
    case NotifyAdd =>
      s.(adds := s.adds[1..], cleaner := s.cleaner.(q := s.cleaner.q.Add(s.adds[0])))
    case Template(w, copy) =>
      s.(b := s.b.(provider := copy.provider), making := s.making[s.ingress.workers[w].key := copy])
    case Ingress(a, copy, f) =>
      var s' := s.(ingress := WQ.Next(c.ingressWorkers, s.ingress, a));
      if !a.Run? then s' else
        var key := s.ingress.workers[a.w].key;
        var b' := IngressRun(c, s, key, copy, f).broker;
        s'.(b := b', making := s.making - {key}, adds := s.adds + Created(s.b.control, b'.control, ControlName(key)))
    case Condemn(w) =>
      var name := s.cleaner.workers[w].key;
      s.(removing := s.removing[name := s.b.control.ingresses[name]])
    case Cleaner(a, f) =>
      var s' := s.(cleaner := WQ.Next(c.cleanerWorkers, s.cleaner, a));
      if !a.Run? then s' else
        var name := s.cleaner.workers[a.w].key;
        s'.(b := s.b.(control := CleanerRun(c, s, name, f).control), removing := s.removing - {name})
    case Issue(secret, data) =>
      s.(b := s.b.(control := s.b.control.(secrets := s.b.control.secrets[secret := data])))
    case Secret(name, f) =>
      s.(targetSecrets := SyncSecret(s.target, s.b.control.secrets, s.targetSecrets, name, f).0)
    case Restart(listed, present) =>
      s.(b := s.b.(provider := ""), making := map[], removing := map[],
         ingress := WQ.Fresh(), cleaner := WQ.Fresh(), notices := listed, adds := present)
  }

  function Created(before: Control, after: Control, name: string): seq<ManagedName> {
    if name in after.ingresses && name !in before.ingresses && FilterAccepts(name) then [name] else []
  }

  // ---- Invariants of the control cluster ----

  /** A copied list, under the names of one namespace. */
  ghost predicate Image(domains: Domains, ns: string, tls: seq<IngressTLS>) {
    exists t :: tls == Prefixed(ns, t) && Copy(domains, t).tls == t
  }

  ghost predicate OwnedIngress(domains: Domains, name: string, ingress: ControlIngress) {
    && BrokerMade(name)
    && Image(domains, TargetOf(name).ns, ingress.tls)
    && ingress.annotations != map[]
  }

  /** Every control Ingress that the filter lets through is the broker's own: its name and secret
      names are made for one namespace, its list is one the broker would copy, and its
      annotations can be written. */
  ghost predicate Owned(domains: Domains, control: Control) {
    forall name :: name in control.ingresses && FilterAccepts(name) ==>
      OwnedIngress(domains, name, control.ingresses[name])
  }

  predicate SingleProvider(domains: Domains) {
    forall d, e :: d in domains && e in domains ==> domains[d] == domains[e]
  }

  ghost predicate ProvidersFit(domains: Domains, control: Control) {
    forall name :: name in control.ingresses && FilterAccepts(name) ==> ProviderFits(domains, control.ingresses[name])
  }

  // ---- Invariants of the queues ----

  ghost predicate Noticed(s: State, key: TargetKey) {
    exists n :: n in s.notices && n.key == key && Enqueues(n)
  }

  ghost predicate Synced(c: Config, s: State, key: TargetKey)
    requires key in s.target
  {
    Replicated(s.b.control, key, Copy(c.settings.domains, s.target[key].tls).tls)
  }

  /** Every labelled target Ingress is replicated, or somebody will still look at it. */
  ghost predicate DirtyOrSynced(c: Config, s: State) {
    !s.ingress.q.shuttingDown ==>
      forall key :: key in s.target && Labelled(s.target[key]) ==>
        WQ.Pending(s.ingress, key) || Noticed(s, key) || Synced(c, s, key)
  }

  /** The cleaner never forgets a control Ingress. */
  ghost predicate Covered(s: State) {
    !s.cleaner.q.shuttingDown ==>
      forall name: ManagedName :: name in s.b.control.ingresses ==> WQ.Pending(s.cleaner, name) || name in s.adds
  }

  ghost predicate PoolsOk(c: Config, s: State) {
    WQ.PoolOk(c.ingressWorkers, s.ingress) && WQ.PoolOk(c.cleanerWorkers, s.cleaner)
  }

  // ---- Invariants of the template ----

  /** Nobody can put a provider into the template between its use for another one: there is only one
      provider, or nobody creates, or one worker alone uses the template. */
  predicate ProvidersSafe(c: Config) {
    || SingleProvider(c.settings.domains)
    || c.ingressWorkers == 0
    || (c.ingressWorkers == 1 && (!c.settings.updateIngresses || c.cleanerWorkers == 0))
  }

  ghost predicate TemplateOk(c: Config, s: State) {
    && (s.b.provider == "" || s.b.provider in c.settings.domains.Values)
    && (c.ingressWorkers == 0 ==> s.b.provider == "")
  }

  /** What a worker is about to create: a copied list that nobody has created meanwhile. */
  ghost predicate MakingOk(c: Config, s: State, key: TargetKey) {
    key in s.making ==>
    && (exists w :: 0 <= w < |s.ingress.workers| && s.ingress.workers[w] == WQ.Got(key))
    && ControlName(key) !in s.b.control.ingresses
    && s.making[key].tls != [] && (exists tls :: s.making[key] == Copy(c.settings.domains, tls))
    && s.b.provider != ""
    && (c.ingressWorkers == 1 ==> s.b.provider == s.making[key].provider)
  }

  ghost predicate Requeued(s: State, key: TargetKey) {
    key in s.ingress.q.dirty || key in s.ingress.q.delayed || Noticed(s, key)
  }

  /** It is what the target Ingress asks for, or somebody will look at that Ingress again. */
  ghost predicate MakingFresh(c: Config, s: State) {
    !s.ingress.q.shuttingDown ==>
      forall key :: key in s.making && key in s.target && Labelled(s.target[key]) ==>
        Requeued(s, key) || s.making[key] == Copy(c.settings.domains, s.target[key].tls)
  }

  ghost predicate IngressesOk(c: Config, control: Control) {
    Owned(c.settings.domains, control) && (ProvidersSafe(c) ==> ProvidersFit(c.settings.domains, control))
  }

  /** A removal that a worker of the cleaner has decided on, of an Ingress that was the broker's own. */
  ghost predicate RemovingOk(c: Config, s: State, name: ManagedName) {
    name in s.removing ==>
    && (exists w :: 0 <= w < |s.cleaner.workers| && s.cleaner.workers[w] == WQ.Got(name))
    && OwnedIngress(c.settings.domains, name, s.removing[name])
  }

  ghost predicate ControlOk(c: Config, s: State) {
    IngressesOk(c, s.b.control) && TemplateOk(c, s) && forall key: TargetKey :: MakingOk(c, s, key)
  }

  /** What holds in every state of every run. */
  ghost predicate Inv(c: Config, s: State) {
    && ControlOk(c, s) && MakingFresh(c, s)
    && (forall name: ManagedName :: RemovingOk(c, s, name))
    && Covered(s) && PoolsOk(c, s)
  }

  /** No removal is under way that should not be. */
  ghost predicate Sighted(s: State) {
    forall name: ManagedName :: name in s.removing ==> !HasCounterpart(s, name)
  }

  /** What holds as long as no Ingress regains its label between the decision to remove its copy and
      the removal. */
  ghost predicate Sound(c: Config, s: State) {
    Inv(c, s) && DirtyOrSynced(c, s) && Sighted(s)
  }

  // ---- Names ----

  lemma NameOfKey(key: TargetKey)
    ensures FilterAccepts(ControlName(key)) && BrokerMade(ControlName(key)) && TargetOf(ControlName(key)) == key
  {
    SplitUndoesCreate(key.ns, key.name);
  }

  lemma KeyOfName(name: string)
    requires BrokerMade(name)
    ensures ValidKey(TargetOf(name)) && ControlName(TargetOf(name)) == name
  {
    var ns, n :| |ns| > 0 && |n| > 0 && SEPARATOR !in ns && name == CreateNameForControlCluster(ns, n);
    SplitUndoesCreate(ns, n);
  }

  lemma OtherName(key: TargetKey, other: TargetKey)
    requires key != other
    ensures ControlName(key) != ControlName(other)
  {
    NameOfKey(key);
    NameOfKey(other);
  }

  // ---- Steps of the ingress controller ----

  lemma PrefixedHosts(ns: string, t: seq<IngressTLS>)
    ensures forall e, h :: e in Prefixed(ns, t) && h in e.hosts ==> exists e' :: e' in t && h in e'.hosts
    ensures Prefixed(ns, t) == [] <==> t == []
  {
    var tls := Prefixed(ns, t);
    forall e, h | e in tls && h in e.hosts ensures exists e' :: e' in t && h in e'.hosts {
      var i :| 0 <= i < |tls| && tls[i] == e;
      assert t[i] in t && h in t[i].hosts;
    }
    assert |tls| == |t|;
  }

  /** What a write of a copied list puts into the control cluster. */
  lemma CopiedIngressOk(
    domains: Domains, key: TargetKey, tls: seq<IngressTLS>, copy: CopyResult, ingress: ControlIngress)
    requires Unambiguous(domains) && copy == Copy(domains, tls)
    requires ingress.tls == Prefixed(key.ns, copy.tls) && ingress.annotations != map[]
    ensures OwnedIngress(domains, ControlName(key), ingress)
    ensures copy.provider == "" || copy.provider in domains.Values
    ensures copy.tls != [] ==> copy.provider != ""
    ensures (copy.tls != [] ==>
               DNS_PROVIDER_KEY in ingress.annotations && ingress.annotations[DNS_PROVIDER_KEY] == copy.provider)
            ==> ProviderFits(domains, ingress)
  {
    NameOfKey(key);
    CopyIdempotent(domains, tls);
    CopyRefines(domains, tls, copy);
    PrefixedHosts(key.ns, copy.tls);
    if copy.tls != [] {
      CopiedHostsServed(domains, tls, copy);
      CopyProviderConfigured(domains, tls);
    }
  }

  lemma CopyProviderConfigured(domains: Domains, tls: seq<IngressTLS>)
    requires Copy(domains, tls) != NOTHING
    ensures Copy(domains, tls).provider in domains.Values
  {
    var hosts := ManagedHosts(domains, tls);
    ManagedHostsAreManaged(domains, tls);
    assert hosts[0] in hosts && Managed(domains, hosts[0]);
    var d :| d in domains && HasSuffix(hosts[0], d);
    assert domains[d] in Providers(domains, hosts[0]);
  }
}
