/** What one synchronisation does to the two clusters, as a function of their state, of the
    outcome of `copyTLS` and of the API failure it meets. */
module Clusters {
  import opened Naming
  import opened TLS
  import opened CopySpec
  import opened Prefix

  const GARDEN_PURPOSE := "garden.sapcloud.io/purpose"
  const DNS_PROVIDER_KEY := "certmanager.k8s.io/acme-dns01-provider"

  datatype Key = Key(ns: string, name: string)
  type SecretData = map<string, string>

  datatype TargetIngress = TargetIngress(labels: map<string, string>, tls: seq<IngressTLS>)

  /** The API server drops empty lists and maps, so an empty `tls` or `annotations` is nil when read back. */
  datatype ControlIngress = ControlIngress(tls: seq<IngressTLS>, annotations: map<string, string>)

  datatype Control = Control(ingresses: map<string, ControlIngress>, secrets: map<string, SecretData>)

  /** The annotations of the template that never change; none of them names a provider. */
  type Base = m: map<string, string> | m != map[] && DNS_PROVIDER_KEY !in m witness SomeBase()

  function SomeBase(): (m: map<string, string>)
    ensures m != map[] && DNS_PROVIDER_KEY !in m
  {
    var m := map["a" := ""];
    assert "a" in m;
    m
  }

  datatype Settings = Settings(domains: Domains, updateIngresses: bool, base: Base)

  /** The control cluster and the provider field of the shared template. */
  datatype Broker = Broker(control: Control, provider: string)

  datatype Error = ApiError | NilMapWrite

  datatype SyncResult = SyncResult(broker: Broker, err: Option<Error>, events: seq<Recorded>)

  /** `requeue` and `err` are the two results of the cleaner's `syncHandler`. */
  datatype CleanResult = CleanResult(control: Control, requeue: bool, err: Option<Error>)

  /** `FilterOnIngressLables`. */
  predicate Labelled(ingress: TargetIngress) {
    GARDEN_PURPOSE in ingress.labels && ingress.labels[GARDEN_PURPOSE] == MANAGED_CERT
  }

  function ControlName(key: Key): string {
    CreateNameForControlCluster(key.ns, key.name)
  }

  function TargetOf(controlName: string): Key {
    var (ns, name) := SplitNamespace(controlName);
    Key(ns, name)
  }

  // ---- API failures ----

  /** The first `budget` API calls succeed and the next one fails; `lands` tells whether the
      failed call was carried out before its error came back. A sync stops at its first error. */
  datatype Faults = Faults(budget: nat, lands: bool)

  function Landed(f: Faults, calls: nat): nat {
    var done := f.budget + if f.lands then 1 else 0;
    if done < calls then done else calls
  }

  function ErrorAfter(f: Faults, calls: nat): Option<Error> {
    if f.budget >= calls then None else Some(ApiError)
  }

  // ---- Clean-up ----

  function SecretNames(tls: seq<IngressTLS>): set<string> {
    set t | t in tls :: t.secretName
  }

  /** `CleanUpIngressAndTLSSecrets`: removes a prefix of [the Ingress, its listed secrets]. */
  function CleanUp(control: Control, name: string, tls: seq<IngressTLS>, f: Faults): Control {
    var n := Landed(f, 1 + |tls|);
    if n == 0 then control
    else Control(control.ingresses - {name}, control.secrets - SecretNames(tls[..n - 1]))
  }

  // ---- Ingress replication ----

  function Put(control: Control, name: string, ingress: ControlIngress, f: Faults): Control {
    if Landed(f, 1) == 1 then control.(ingresses := control.ingresses[name := ingress]) else control
  }

  function TemplateAnnotations(cfg: Settings, provider: string): map<string, string> {
    if |provider| > 0 then cfg.base[DNS_PROVIDER_KEY := provider] else cfg.base
  }

  function CreateIngress(cfg: Settings, b: Broker, key: Key, copy: CopyResult, f: Faults): SyncResult {
    if |copy.tls| < 1 then SyncResult(b, None, [])
    else FinishCreate(cfg, b.(provider := copy.provider), key, copy, f)
  }

  /** What is left of a create once the template's field has been set: the annotations are taken
      from the template as it is by now. */
  function FinishCreate(cfg: Settings, b: Broker, key: Key, copy: CopyResult, f: Faults): SyncResult {
    var ingress := ControlIngress(Prefixed(key.ns, copy.tls), TemplateAnnotations(cfg, b.provider));
    var err := ErrorAfter(f, 1);
    SyncResult(b.(control := Put(b.control, ControlName(key), ingress, f)), err, if err.None? then [Initiated] else [])
  }

  /** The test of `deepEqual`, on the lists as they are read back. */
  predicate UpToDate(target: TargetIngress, control: ControlIngress, ns: string) {
    control.tls != [] && control.tls == Prefixed(ns, target.tls)
  }

  function UpdateIngress(
    b: Broker, key: Key, target: TargetIngress, control: ControlIngress, copy: CopyResult, f: Faults): SyncResult {
    if UpToDate(target, control, key.ns) then SyncResult(b, None, [])
    else if control.annotations == map[] then SyncResult(b, Some(NilMapWrite), [])
    else
      var ingress := ControlIngress(Prefixed(key.ns, copy.tls), control.annotations[DNS_PROVIDER_KEY := copy.provider]);
      var err := ErrorAfter(f, 1);
      SyncResult(b.(control := Put(b.control, ControlName(key), ingress, f)), err,
                 if err.None? then [UpdateRequested] else [])
  }

  function SyncIngress(
    cfg: Settings, target: map<Key, TargetIngress>, b: Broker, key: Key, copy: CopyResult, f: Faults): SyncResult {
    var name := ControlName(key);
    var ingresses := b.control.ingresses;
    if key !in target then
      if name !in ingresses then SyncResult(b, None, [])
      else SyncResult(b.(control := CleanUp(b.control, name, ingresses[name].tls, f)),
                      ErrorAfter(f, 1 + |ingresses[name].tls|), [])
    else if name !in ingresses then CreateIngress(cfg, b, key, copy, f)
    else UpdateIngress(b, key, target[key], ingresses[name], copy, f)
  }

  // ---- Cleaner ----

  function SyncCleaner(
    cfg: Settings, target: map<Key, TargetIngress>, b: Broker, name: string, f: Faults): CleanResult {
    var control := b.control;
    if name !in control.ingresses then CleanResult(control, false, None) else
      var ingress := control.ingresses[name];
      var key := TargetOf(name);
      if key !in target || !Labelled(target[key]) then Remove(control, name, ingress, f)
      else if !cfg.updateIngresses then CleanResult(control, true, None)
      else if ingress.annotations == map[] then CleanResult(control, true, Some(NilMapWrite))
      else
        var annotated := ingress.(annotations := ingress.annotations + TemplateAnnotations(cfg, b.provider));
        CleanResult(Put(control, name, annotated, f), true, ErrorAfter(f, 1))
  }

  /** What is left of a removal once it has been decided on for `ingress`; what is not there any more
      counts as deleted. */
  function Remove(control: Control, name: string, ingress: ControlIngress, f: Faults): CleanResult {
    CleanResult(CleanUp(control, name, ingress.tls, f), false, ErrorAfter(f, 1 + |ingress.tls|))
  }

  // ---- Secrets ----

  /** `hasIngressInTargetCluster` over the labelled Ingresses of `ns`; the empty namespace lists all. */
  predicate HasIngress(target: map<Key, TargetIngress>, ns: string, secretName: string) {
    exists k ::
      k in target && (ns == "" || k.ns == ns) && Labelled(target[k]) && secretName in SecretNames(target[k].tls)
  }

  /** In terms of the labels and entries: some Ingress of the namespace, or of any if that is empty, has
      the purpose label and names the secret in an entry. */
  lemma HasIngressIff(target: map<Key, TargetIngress>, ns: string, secretName: string)
    ensures HasIngress(target, ns, secretName) <==>
      exists k, i ::
        && k in target && (k.ns == ns || ns == "")
        && ("garden.sapcloud.io/purpose", "managed-cert") in target[k].labels.Items
        && 0 <= i < |target[k].tls| && target[k].tls[i].secretName == secretName
  {
    if k, i :| k in target && (k.ns == ns || ns == "") && Labelled(target[k])
               && 0 <= i < |target[k].tls| && target[k].tls[i].secretName == secretName
    {
      assert target[k].tls[i] in target[k].tls && secretName in SecretNames(target[k].tls);
    }
  }

  /** Create, then update if the secret exists already. */
  function Replicate(
    targetSecrets: map<Key, SecretData>, key: Key, data: SecretData, f: Faults): (map<Key, SecretData>, Option<Error>) {
    var calls := if key in targetSecrets then 2 else 1;
    (if Landed(f, calls) == calls then targetSecrets[key := data] else targetSecrets, ErrorAfter(f, calls))
  }

  function SyncSecret(
    target: map<Key, TargetIngress>, controlSecrets: map<string, SecretData>,
    targetSecrets: map<Key, SecretData>, name: string, f: Faults): (map<Key, SecretData>, Option<Error>)
  {
    var key := TargetOf(name);
    if name !in controlSecrets || !HasIngress(target, key.ns, key.name) then (targetSecrets, None)
    else Replicate(targetSecrets, key, controlSecrets[name], f)
  }

  /** A sync of a secret that is wanted makes one call for a new target secret and two for an existing one.
      It ends without an error exactly if it can afford them, and writes exactly if the last one was
      carried out. */
  lemma SecretSyncNeedsCalls(
    target: map<Key, TargetIngress>, controlSecrets: map<string, SecretData>,
    targetSecrets: map<Key, SecretData>, name: string, f: Faults)
    requires name in controlSecrets && HasIngress(target, TargetOf(name).ns, TargetOf(name).name)
    ensures var (after, err) := SyncSecret(target, controlSecrets, targetSecrets, name, f);
      var needed := if TargetOf(name) in targetSecrets then 2 else 1;
      && (err.None? <==> f.budget >= needed)
      && (f.budget + (if f.lands then 1 else 0) < needed ==> after == targetSecrets)
      && (f.budget + (if f.lands then 1 else 0) >= needed ==>
            after == targetSecrets[TargetOf(name) := controlSecrets[name]])
  {}

  // ---- What one ingress sync achieves ----

  /** The control cluster holds exactly the copied entries for `key`. */
  predicate Replicated(control: Control, key: Key, copied: seq<IngressTLS>) {
    var name := ControlName(key);
    if name in control.ingresses then control.ingresses[name].tls == Prefixed(key.ns, copied) else copied == []
  }

  /** A sync without error brings the control cluster in line with the copied entries, except for
      one family of states: the control Ingress already equals the prefixed target list although
      copying would change that list. */
  lemma SyncReplicatesIff(
    cfg: Settings, target: map<Key, TargetIngress>, b: Broker, key: Key, copy: CopyResult, f: Faults)
    requires key in target
    requires SyncIngress(cfg, target, b, key, copy, f).err.None?
    ensures var name := ControlName(key);
      var stale := name in b.control.ingresses && UpToDate(target[key], b.control.ingresses[name], key.ns)
                   && copy.tls != target[key].tls;
      Replicated(SyncIngress(cfg, target, b, key, copy, f).broker.control, key, copy.tls) <==> !stale
  {
    var name := ControlName(key);
    if name in b.control.ingresses && UpToDate(target[key], b.control.ingresses[name], key.ns)
       && copy.tls != target[key].tls {
      if Prefixed(key.ns, copy.tls) == Prefixed(key.ns, target[key].tls) {
        PrefixedInjective(key.ns, copy.tls, target[key].tls);
      }
    }
  }

  /** That family is not empty. A control Ingress made under an earlier configuration stays as it
      is when a domain is no longer managed. */
  lemma StaleAfterReconfiguration(cfg: Settings, ns: string, name: string, host: string, secret: string)
    requires !Managed(cfg.domains, host)
    ensures var key := Key(ns, name); var tls := [IngressTLS([host], secret)];
      var target := map[key := TargetIngress(map[GARDEN_PURPOSE := MANAGED_CERT], tls)];
      var b := Broker(Control(map[ControlName(key) := ControlIngress(Prefixed(ns, tls), map["a" := "b"])], map[]), "");
      forall copy, f :: CopyOutcome(cfg.domains, tls, copy) ==>
        var r := SyncIngress(cfg, target, b, key, copy, f);
        copy == NOTHING && r.err.None? && r.broker == b && !Replicated(r.broker.control, key, copy.tls)
  {
    var key, tls := Key(ns, name), [IngressTLS([host], secret)];
    assert tls[..0] == [] && [host][..0] == [];
    assert Keep(cfg.domains, [host]) == [];
    assert ManagedHosts(cfg.domains, tls) == [];
    KeepNothing(cfg.domains, tls);
    assert |Prefixed(ns, tls)| == 1;
  }

  /** How many API calls an undisturbed ingress sync makes. */
  function Writes(target: map<Key, TargetIngress>, b: Broker, key: Key, copy: CopyResult): nat {
    var name := ControlName(key);
    if key !in target then (if name in b.control.ingresses then 1 + |b.control.ingresses[name].tls| else 0)
    else if name !in b.control.ingresses then (if copy.tls == [] then 0 else 1)
    else if UpToDate(target[key], b.control.ingresses[name], key.ns) then 0 else 1
  }

  /** `Writes` counts the API calls: a sync ends without an error exactly when it can afford them. */
  lemma SyncNeedsWrites(
    cfg: Settings, target: map<Key, TargetIngress>, b: Broker, key: Key, copy: CopyResult, f: Faults)
    requires Writable(b.control, key)
    ensures SyncIngress(cfg, target, b, key, copy, f).err.None? <==> f.budget >= Writes(target, b, key, copy)
  {}

  /** The annotations of a control Ingress can be written. */
  predicate Writable(control: Control, key: Key) {
    ControlName(key) in control.ingresses ==> control.ingresses[ControlName(key)].annotations != map[]
  }

  /** Synchronising again changes nothing in the control cluster. */
  lemma SyncIdempotent(
    cfg: Settings, target: map<Key, TargetIngress>, b: Broker, key: Key, copy: CopyResult, f: Faults, g: Faults)
    requires copy.tls != [] ==> copy.provider != ""
    requires SyncIngress(cfg, target, b, key, copy, f).err.None?
    ensures var b' := SyncIngress(cfg, target, b, key, copy, f).broker;
      SyncIngress(cfg, target, b', key, copy, g).broker.control == b'.control
  {
    var name := ControlName(key);
    var b' := SyncIngress(cfg, target, b, key, copy, f).broker;
    if key in target && name in b'.control.ingresses {
      var ingress := b'.control.ingresses[name];
      if !UpToDate(target[key], ingress, key.ns) {
        assert ingress.annotations[DNS_PROVIDER_KEY] == copy.provider && ingress.tls == Prefixed(key.ns, copy.tls);
        assert ingress.annotations[DNS_PROVIDER_KEY := copy.provider] == ingress.annotations;
        assert b'.control.ingresses[name := ingress] == b'.control.ingresses;
      }
    }
  }

  /** But it may write: after a sync that had to write, the next one calls the API server again, for
      an identical Ingress, exactly when the control Ingress exists and filtering had removed
      something, or everything. */
  lemma NextSyncWritesIff(
    cfg: Settings, target: map<Key, TargetIngress>, b: Broker, key: Key, copy: CopyResult, f: Faults)
    requires key in target && Writable(b.control, key)
    requires SyncIngress(cfg, target, b, key, copy, f).err.None?
    ensures var name := ControlName(key);
      var b' := SyncIngress(cfg, target, b, key, copy, f).broker;
      var settled := name in b.control.ingresses && UpToDate(target[key], b.control.ingresses[name], key.ns);
      SyncIngress(cfg, target, b', key, copy, Faults(0, false)).err == Some(ApiError)
      <==> !settled && name in b'.control.ingresses && (copy.tls == [] || copy.tls != target[key].tls)
  {
    var name := ControlName(key);
    var settled := name in b.control.ingresses && UpToDate(target[key], b.control.ingresses[name], key.ns);
    var b' := SyncIngress(cfg, target, b, key, copy, f).broker;
    if !settled && name in b'.control.ingresses {
      var ingress := b'.control.ingresses[name];
      assert ingress.tls == Prefixed(key.ns, copy.tls);
      if name in b.control.ingresses {
        assert DNS_PROVIDER_KEY in ingress.annotations;
      } else {
        TemplateNamesProvider(cfg, copy.provider, "");
      }
      assert |ingress.tls| == |copy.tls|;
      if ingress.tls == Prefixed(key.ns, target[key].tls) {
        PrefixedInjective(key.ns, copy.tls, target[key].tls);
      }
    }
  }

  /** A sync that finds no control Ingress makes one exactly if something is copied and the call gets
      through: with the copied list, the annotations of the settings, and the provider if there is one,
      which the template remembers. */
  lemma CreateMakes(
    cfg: Settings, target: map<Key, TargetIngress>, b: Broker, key: Key, copy: CopyResult, f: Faults)
    requires key in target && ControlName(key) !in b.control.ingresses
    ensures var name := ControlName(key); var b' := SyncIngress(cfg, target, b, key, copy, f).broker;
      && b'.control.secrets == b.control.secrets && b'.control.ingresses - {name} == b.control.ingresses
      && (name in b'.control.ingresses <==> copy.tls != [] && Landed(f, 1) == 1)
      && b'.provider == (if copy.tls != [] then copy.provider else b.provider)
      && (name in b'.control.ingresses ==>
            var made := b'.control.ingresses[name];
            && made.tls == Prefixed(key.ns, copy.tls)
            && made.annotations.Items
                 == cfg.base.Items + if copy.provider == "" then {} else {(DNS_PROVIDER_KEY, copy.provider)})
  {
    var name := ControlName(key);
    var b' := SyncIngress(cfg, target, b, key, copy, f).broker;
    assert b.control.ingresses - {name} == b.control.ingresses;
    if name in b'.control.ingresses {
      AnnotationItems(cfg, copy.provider);
    }
  }

  lemma AnnotationItems(cfg: Settings, provider: string)
    ensures TemplateAnnotations(cfg, provider).Items
         == cfg.base.Items + if provider == "" then {} else {(DNS_PROVIDER_KEY, provider)}
  {
    var items := cfg.base.Items + if provider == "" then {} else {(DNS_PROVIDER_KEY, provider)};
    forall item: (string, string) ensures item in TemplateAnnotations(cfg, provider).Items <==> item in items {
      if item.0 == DNS_PROVIDER_KEY {
        assert (DNS_PROVIDER_KEY, item.1) !in cfg.base.Items;
      }
    }
  }

  /** What a sync may change in an existing control Ingress: the TLS list, which becomes the copied one,
      and the annotation of the provider, even to the empty one; every other annotation stays. It does
      so exactly if the lists differ, the annotations can be written and the call gets through. */
  lemma UpdateChanges(
    cfg: Settings, target: map<Key, TargetIngress>, b: Broker, key: Key, copy: CopyResult, f: Faults)
    requires key in target && ControlName(key) in b.control.ingresses
    ensures var name := ControlName(key); var control := SyncIngress(cfg, target, b, key, copy, f).broker.control;
      var before := b.control.ingresses[name];
      && control.secrets == b.control.secrets && control.ingresses - {name} == b.control.ingresses - {name}
      && name in control.ingresses
      && var after := control.ingresses[name];
      && after.annotations - {DNS_PROVIDER_KEY} == before.annotations - {DNS_PROVIDER_KEY}
      && (if UpToDate(target[key], before, key.ns) || before.annotations == map[] || Landed(f, 1) == 0
          then after == before
          else after.tls == Prefixed(key.ns, copy.tls)
               && (DNS_PROVIDER_KEY, copy.provider) in after.annotations.Items)
  {
    var name, before := ControlName(key), b.control.ingresses[ControlName(key)];
    var after := SyncIngress(cfg, target, b, key, copy, f).broker.control.ingresses[name];
    if after != before {
      assert DNS_PROVIDER_KEY in after.annotations && after.annotations[DNS_PROVIDER_KEY] == copy.provider;
    }
  }

  /** The recorder is told of a request when a sync without error has made the control Ingress appear, of
      an update when one without error has met an outdated control Ingress, and of nothing else. */
  lemma SyncRecords(
    cfg: Settings, target: map<Key, TargetIngress>, b: Broker, key: Key, copy: CopyResult, f: Faults)
    ensures var name := ControlName(key); var r := SyncIngress(cfg, target, b, key, copy, f);
      var appeared := name !in b.control.ingresses && name in r.broker.control.ingresses;
      var outdated := key in target && name in b.control.ingresses
                      && !UpToDate(target[key], b.control.ingresses[name], key.ns);
      && (r.events == [Initiated] <==> r.err.None? && appeared)
      && (r.events == [UpdateRequested] <==> r.err.None? && outdated)
      && (r.events == [] || r.events == [Initiated] || r.events == [UpdateRequested])
  {}

  /** An update decided on a control Ingress from an outdated list replicates exactly when the
      outdated one is not up to date, or the stored one holds the copied entries by chance. */
  lemma StaleUpdateIff(
    cfg: Settings, target: map<Key, TargetIngress>, b: Broker, seen: ControlIngress,
    key: Key, copy: CopyResult, f: Faults)
    requires key in target && ControlName(key) in b.control.ingresses
    requires UpdateIngress(b, key, target[key], seen, copy, f).err.None?
    ensures Replicated(UpdateIngress(b, key, target[key], seen, copy, f).broker.control, key, copy.tls)
      <==> (!UpToDate(target[key], seen, key.ns)
            || b.control.ingresses[ControlName(key)].tls == Prefixed(key.ns, copy.tls))
  {}

  // ---- What a clean-up leaves behind ----

  /** A clean-up without error leaves neither the Ingress nor any secret it listed. */
  lemma CleanUpRemovesAll(control: Control, name: string, tls: seq<IngressTLS>, f: Faults)
    requires ErrorAfter(f, 1 + |tls|).None?
    ensures CleanUp(control, name, tls, f) == Control(control.ingresses - {name}, control.secrets - SecretNames(tls))
  {
    assert tls[..|tls|] == tls;
  }

  /** A clean-up that stops half-way is never finished: once the Ingress is gone, neither
      controller finds it, so its remaining secrets stay. */
  lemma InterruptedCleanUpLeaks(
    cfg: Settings, target: map<Key, TargetIngress>, b: Broker, key: Key, f: Faults, g: Faults, copy: CopyResult)
    requires key !in target && ControlName(key) in b.control.ingresses && SEPARATOR !in key.ns
    requires Landed(f, 1 + |b.control.ingresses[ControlName(key)].tls|) > 0
    ensures var name := ControlName(key); var tls := b.control.ingresses[name].tls;
      var stopped := SyncIngress(cfg, target, b, key, copy, f);
      && SyncIngress(cfg, target, stopped.broker, key, copy, g) == SyncResult(stopped.broker, None, [])
      && SyncCleaner(cfg, target, stopped.broker, name, g) == CleanResult(stopped.broker.control, false, None)
      && stopped.broker.control.secrets.Keys
           == b.control.secrets.Keys - SecretNames(tls[..Landed(f, 1 + |tls|) - 1])
  {}

  // ---- What the cleaner may touch ----

  /** The cleaner removes a control Ingress exactly when its target is gone or no longer labelled
      and the deletion got through, and changes no TLS list. */
  lemma CleanerRemovesIff(cfg: Settings, target: map<Key, TargetIngress>, b: Broker, name: string, f: Faults)
    requires name in b.control.ingresses
    ensures var after := SyncCleaner(cfg, target, b, name, f).control.ingresses;
      && (name !in after <==> (TargetOf(name) !in target || !Labelled(target[TargetOf(name)])) && Landed(f, 1) == 1)
      && (name in after ==> after[name].tls == b.control.ingresses[name].tls)
      && after - {name} == b.control.ingresses - {name}
  {}

  /** In terms of the labels: if the call gets through, what remains after the cleaner's sync is what has
      a target Ingress with the purpose label and its one value. That, and only that, is looked at again. */
  lemma CleanerKeepsByLabel(cfg: Settings, target: map<Key, TargetIngress>, b: Broker, name: string, f: Faults)
    requires name in b.control.ingresses && Landed(f, 1) == 1
    ensures var r := SyncCleaner(cfg, target, b, name, f); var key := TargetOf(name);
      var wanted := key in target && ("garden.sapcloud.io/purpose", "managed-cert") in target[key].labels.Items;
      && (name in r.control.ingresses <==> wanted)
      && (r.requeue <==> wanted)
      && (wanted ==> r.control.secrets == b.control.secrets)
      && (wanted && !cfg.updateIngresses ==> r.control == b.control && r.err.None?)
  {}

  /** The cleaner trusts every name it can decode: it deletes a foreign Ingress whose name only
      looks like one of the broker's. */
  lemma CleanerDeletesForeign(
    cfg: Settings, target: map<Key, TargetIngress>, b: Broker, head: string, ns: string, name: string, f: Faults)
    requires SEPARATOR !in head && SEPARATOR !in ns && Key(ns, name) !in target
    requires head + [SEPARATOR] + ns + [SEPARATOR] + name in b.control.ingresses && f.budget > 0
    ensures head + [SEPARATOR] + ns + [SEPARATOR] + name
        !in SyncCleaner(cfg, target, b, head + [SEPARATOR] + ns + [SEPARATOR] + name, f).control.ingresses
  {
    SplitThree(head, ns, name);
  }

  // ---- Notifications ----

  /** An update between labelled Ingresses may be dropped exactly when their TLS lists agree: then, and
      only then, no control Ingress tells them apart. */
  lemma DroppedUpdateIff(before: TargetIngress, after: TargetIngress, ns: string)
    ensures before.tls == after.tls
      <==> forall ingress: ControlIngress :: UpToDate(before, ingress, ns) <==> UpToDate(after, ingress, ns)
  {
    if before.tls != after.tls {
      var one, other := if before.tls != [] then before else after, if before.tls != [] then after else before;
      var ingress := ControlIngress(Prefixed(ns, one.tls), map[]);
      assert |ingress.tls| == |one.tls|;
      if UpToDate(other, ingress, ns) {
        PrefixedInjective(ns, one.tls, other.tls);
      }
    }
  }

  // ---- Providers ----

  /** The template names a provider exactly when its field is not empty, and nothing else in the
      annotations depends on that field. */
  lemma TemplateNamesProvider(cfg: Settings, provider: string, other: string)
    ensures var annotations := TemplateAnnotations(cfg, provider);
      && (DNS_PROVIDER_KEY in annotations <==> provider != "")
      && (provider != "" ==> annotations[DNS_PROVIDER_KEY] == provider)
      && annotations - {DNS_PROVIDER_KEY} == TemplateAnnotations(cfg, other) - {DNS_PROVIDER_KEY}
      && annotations != map[]
  {
    assert provider != "" ==> DNS_PROVIDER_KEY in TemplateAnnotations(cfg, provider);
  }

  /** The cleaner's overwrite gives every annotation of the template its value, and the provider's too if
      the template names one; all other annotations, the TLS list and everything else stay. */
  lemma OverwriteChanges(cfg: Settings, target: map<Key, TargetIngress>, b: Broker, name: string, f: Faults)
    requires name in b.control.ingresses && b.control.ingresses[name].annotations != map[]
    requires cfg.updateIngresses && Landed(f, 1) == 1
    requires TargetOf(name) in target && Labelled(target[TargetOf(name)])
    ensures var control := SyncCleaner(cfg, target, b, name, f).control; var before := b.control.ingresses[name];
      && control.secrets == b.control.secrets && control.ingresses - {name} == b.control.ingresses - {name}
      && name in control.ingresses && control.ingresses[name].tls == before.tls
      && var after := control.ingresses[name].annotations;
      && cfg.base.Items <= after.Items
      && (b.provider != "" ==> (DNS_PROVIDER_KEY, b.provider) in after.Items)
      && (b.provider == "" ==> after - cfg.base.Keys == before.annotations - cfg.base.Keys)
      && after - (cfg.base.Keys + {DNS_PROVIDER_KEY}) == before.annotations - (cfg.base.Keys + {DNS_PROVIDER_KEY})
  {
    var before := b.control.ingresses[name].annotations;
    var after := SyncCleaner(cfg, target, b, name, f).control.ingresses[name].annotations;
    assert forall a :: a in cfg.base ==> a in after && after[a] == cfg.base[a];
    if b.provider != "" {
      assert DNS_PROVIDER_KEY in after && after[DNS_PROVIDER_KEY] == b.provider;
    }
  }

  /** Every host of the Ingress is served by the provider its annotation names. */
  ghost predicate ProviderFits(domains: Domains, ingress: ControlIngress) {
    ingress.tls != [] ==>
      && DNS_PROVIDER_KEY in ingress.annotations
      && ingress.annotations[DNS_PROVIDER_KEY] != ""
      && forall t, h :: t in ingress.tls && h in t.hosts ==>
         ingress.annotations[DNS_PROVIDER_KEY] in Providers(domains, h)
  }

  /** The cleaner's overwrite keeps the provider exactly when the shared template holds no
      provider, or one that serves the hosts of this Ingress too. */
  lemma OverwriteKeepsProviderIff(cfg: Settings, target: map<Key, TargetIngress>, b: Broker, name: string, f: Faults)
    requires name in b.control.ingresses && cfg.updateIngresses && Landed(f, 1) == 1
    requires TargetOf(name) in target && Labelled(target[TargetOf(name)])
    requires var ingress := b.control.ingresses[name];
      ProviderFits(cfg.domains, ingress) && ingress.annotations != map[]
    ensures var before := b.control.ingresses[name];
      var serves := forall t, h :: t in before.tls && h in t.hosts ==> b.provider in Providers(cfg.domains, h);
      ProviderFits(cfg.domains, SyncCleaner(cfg, target, b, name, f).control.ingresses[name])
      <==> b.provider == "" || serves
  {
    var before := b.control.ingresses[name];
    var after := SyncCleaner(cfg, target, b, name, f).control.ingresses[name];
    assert after.tls == before.tls;
    if b.provider != "" {
      assert after.annotations[DNS_PROVIDER_KEY] == b.provider;
    } else {
      assert DNS_PROVIDER_KEY in before.annotations ==>
        after.annotations[DNS_PROVIDER_KEY] == before.annotations[DNS_PROVIDER_KEY];
    }
  }
}
