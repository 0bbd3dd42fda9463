/** The handlers as code over mutable clusters, each proved against its function in `Clusters`. */
module Handlers {
  import opened Naming
  import opened TLS
  import opened Prefix
  import opened Clusters
  import opened Protocol
  import WQ = WorkQueue

  // ---- The clusters ----

  /** An Ingress in the informer's cache: its TLS list is a slice that all readers share. */
  datatype CachedIngress = CachedIngress(labels: map<string, string>, tls: array?<IngressTLS>)

  class TargetCluster {
    var ingresses: map<Key, CachedIngress>
    var secrets: map<Key, SecretData>
    var faults: Faults

    ghost function Slices(): set<object>
      reads this`ingresses
    {
      set k | k in ingresses && ingresses[k].tls != null :: ingresses[k].tls
    }

    ghost function View(): map<Key, TargetIngress>
      reads this`ingresses, Slices()
    {
      map k | k in ingresses :: TargetIngress(ingresses[k].labels, Elements(ingresses[k].tls))
    }

    method CreateSecret(key: Key, data: SecretData) returns (err: Option<Error>, exists_: bool)
      modifies this`secrets, this`faults
      ensures faults == Spent(old(faults)) && err == ErrorAfter(old(faults), 1)
      ensures err.None? ==> exists_ == (key in old(secrets))
      ensures secrets ==
        if key !in old(secrets) && Landed(old(faults), 1) == 1 then old(secrets)[key := data] else old(secrets)
    {
      exists_ := key in secrets;
      err := ErrorAfter(faults, 1);
      if !exists_ && (faults.budget > 0 || faults.lands) {
        secrets := secrets[key := data];
      }
      faults := Spent(faults);
    }

    method UpdateSecret(key: Key, data: SecretData) returns (err: Option<Error>)
      modifies this`secrets, this`faults
      ensures faults == Spent(old(faults)) && err == ErrorAfter(old(faults), 1)
      ensures secrets == if Landed(old(faults), 1) == 1 then old(secrets)[key := data] else old(secrets)
    {
      err := ErrorAfter(faults, 1);
      if faults.budget > 0 || faults.lands {
        secrets := secrets[key := data];
      }
      faults := Spent(faults);
    }
  }

  function Spent(f: Faults): Faults {
    if f.budget > 0 then f.(budget := f.budget - 1) else f
  }

  class ControlCluster {
    var ingresses: map<string, ControlIngress>
    var secrets: map<string, SecretData>
    var faults: Faults

    function Contents(): Control
      reads this
    {
      Control(ingresses, secrets)
    }

    /** Creates or updates an Ingress. */
    method PutIngress(name: string, ingress: ControlIngress) returns (err: Option<Error>)
      modifies this
      ensures Contents() == Put(old(Contents()), name, ingress, old(faults))
      ensures err == ErrorAfter(old(faults), 1) && faults == Spent(old(faults))
    {
      err := ErrorAfter(faults, 1);
      if faults.budget > 0 || faults.lands {
        ingresses := ingresses[name := ingress];
      }
      faults := Spent(faults);
    }

    method DeleteIngress(name: string) returns (err: Option<Error>)
      modifies this
      ensures secrets == old(secrets)
      ensures ingresses == if Landed(old(faults), 1) == 1 then old(ingresses) - {name} else old(ingresses)
      ensures err == ErrorAfter(old(faults), 1) && faults == Spent(old(faults))
    {
      err := ErrorAfter(faults, 1);
      if faults.budget > 0 || faults.lands {
        ingresses := ingresses - {name};
      }
      faults := Spent(faults);
    }

    method DeleteSecret(name: string) returns (err: Option<Error>)
      modifies this
      ensures ingresses == old(ingresses)
      ensures secrets == if Landed(old(faults), 1) == 1 then old(secrets) - {name} else old(secrets)
      ensures err == ErrorAfter(old(faults), 1) && faults == Spent(old(faults))
    {
      err := ErrorAfter(faults, 1);
      if faults.budget > 0 || faults.lands {
        secrets := secrets - {name};
      }
      faults := Spent(faults);
    }

    /** `CleanUpIngressAndTLSSecrets`; deleting what is not there is no error. */
    method CleanUpIngressAndTLSSecrets(name: string, tls: seq<IngressTLS>) returns (err: Option<Error>)
      modifies this
      ensures Contents() == CleanUp(old(Contents()), name, tls, old(faults))
      ensures err == ErrorAfter(old(faults), 1 + |tls|)
    {
      err := DeleteIngress(name);
      if err.Some? {
        assert tls[..0] == [];
        return;
      }
      for i := 0 to |tls|
        invariant old(faults).budget >= 1 + i && faults == Faults(old(faults).budget - 1 - i, old(faults).lands)
        invariant ingresses == old(ingresses) - {name}
        invariant secrets == old(secrets) - SecretNames(tls[..i])
      {
        OneMoreSecret(tls, i);
        err := DeleteSecret(tls[i].secretName);
        if err.Some? {
          return;
        }
      }
      assert tls[..|tls|] == tls;
      err := None;
    }
  }

  lemma OneMoreSecret(tls: seq<IngressTLS>, i: nat)
    requires i < |tls|
    ensures SecretNames(tls[..i + 1]) == SecretNames(tls[..i]) + {tls[i].secretName}
  {
    assert tls[..i + 1] == tls[..i] + [tls[i]];
  }

  function BaseAnnotations(ingressClass: string, issuerName: string, challengeType: string): Base {
    var base := map[
      "kubernetes.io/ingress.class" := ingressClass,
      "kubernetes.io/tls-acme" := "true",
      "certmanager.k8s.io/cluster-issuer" := issuerName,
      "certmanager.k8s.io/acme-challenge-type" := challengeType];
    assert "kubernetes.io/tls-acme" in base;
    base
  }

  /** `IngressTemplate`: one object, shared by the ingress controller and the cleaner. */
  class IngressTemplate {
    const domains: Domains
    const updateIngresses: bool
    const ingressClass: string
    const issuerName: string
    const challengeType: string
    var dns01Provider: string

    constructor (
      domains: Domains, updateIngresses: bool, ingressClass: string, issuerName: string, challengeType: string)
      ensures this.domains == domains && this.updateIngresses == updateIngresses
      ensures this.ingressClass == ingressClass && this.issuerName == issuerName && this.challengeType == challengeType
      ensures dns01Provider == ""
    {
      this.domains, this.updateIngresses := domains, updateIngresses;
      this.ingressClass, this.issuerName, this.challengeType := ingressClass, issuerName, challengeType;
      dns01Provider := "";
    }

    function Cfg(): Settings {
      Settings(domains, updateIngresses, BaseAnnotations(ingressClass, issuerName, challengeType))
    }

    method CreateIngressAnnotations() returns (annotations: map<string, string>)
      ensures annotations == TemplateAnnotations(Cfg(), dns01Provider)
    {
      annotations := BaseAnnotations(ingressClass, issuerName, challengeType);
      if |dns01Provider| > 0 {
        annotations := annotations[DNS_PROVIDER_KEY := dns01Provider];
      }
    }

    /** Remembers the provider in the template. */
    method CreateControlIngress(dnsProvider: string, tls: array<IngressTLS>) returns (ingress: ControlIngress)
      modifies this
      ensures dns01Provider == dnsProvider
      ensures ingress == ControlIngress(tls[..], TemplateAnnotations(Cfg(), dnsProvider))
      ensures ("kubernetes.io/ingress.class", ingressClass) in ingress.annotations.Items
      ensures ("kubernetes.io/tls-acme", "true") in ingress.annotations.Items
      ensures ("certmanager.k8s.io/cluster-issuer", issuerName) in ingress.annotations.Items
      ensures ("certmanager.k8s.io/acme-challenge-type", challengeType) in ingress.annotations.Items
      ensures dnsProvider != "" ==>
        ("certmanager.k8s.io/acme-dns01-provider", dnsProvider) in ingress.annotations.Items
    {
      dns01Provider := dnsProvider;
      var annotations := CreateIngressAnnotations();
      ingress := ControlIngress(tls[..], annotations);
    }
  }

  /** A list as it is decoded from the API server: the empty list is nil. */
  method Decode(tls: seq<IngressTLS>) returns (slice: array?<IngressTLS>)
    ensures slice != null ==> fresh(slice)
    ensures Elements(slice) == tls && (slice == null <==> tls == [])
  {
    if tls == [] {
      slice := null;
    } else {
      slice := new IngressTLS[|tls|](i requires 0 <= i < |tls| => tls[i]);
      assert slice[..] == tls;
    }
  }

  // ---- The ingress controller ----

  lemma SomeOutcome(domains: Domains, tls: seq<IngressTLS>) returns (copy: CopyResult)
    ensures CopyOutcome(domains, tls, copy)
  {
    ManagedHostsAreManaged(domains, tls);
    var picks := ManagedHostsArePicked(domains, ManagedHosts(domains, tls));
    copy := Judge(domains, tls, picks);
  }

  /** What a sync of `key` was told of its Ingress: nothing unless it had to copy. */
  ghost predicate Logged(
    domains: Domains, target: map<Key, TargetIngress>, control: Control, key: Key, copy: CopyResult, log: seq<Recorded>)
    {
    if key !in target then log == []
    else if ControlName(key) in control.ingresses && UpToDate(target[key], control.ingresses[ControlName(key)], key.ns)
    then CopyOutcome(domains, target[key].tls, copy) && log == []
    else CopyLog(domains, target[key].tls, copy, log)
  }

  class IngressHandler {
    const control: ControlCluster
    const target: TargetCluster
    const template: IngressTemplate
    var recorded: seq<Recorded>

    constructor (control: ControlCluster, target: TargetCluster, template: IngressTemplate)
      ensures this.control == control && this.target == target && this.template == template && recorded == []
    {
      this.control, this.target, this.template, recorded := control, target, template, [];
    }

    function State(): Broker
      reads control, template
    {
      Broker(control.Contents(), template.dns01Provider)
    }

    /** `copyTLS`, then `prefixWithNamespace` on the fresh slice it returns. */
    method CopyPrefixed(
      ns: string, tls: seq<IngressTLS>) returns (slice: array?<IngressTLS>, copy: CopyResult, ghost log: seq<Recorded>)
      modifies this
      ensures CopyLog(template.domains, tls, copy, log) && recorded == old(recorded) + log
      ensures slice != null ==> fresh(slice)
      ensures Elements(slice) == Prefixed(ns, copy.tls) && (slice == null <==> copy.tls == [])
    {
      var complaints;
      copy, complaints := CopyTLS(template.domains, tls);
      log := complaints;
      recorded := recorded + complaints;
      slice := Decode(copy.tls);
      if slice != null {
        PrefixWithNamespace(slice, ns);
      }
    }

    method CreateIngress(
      key: Key, source: CachedIngress) returns (err: Option<Error>, ghost copy: CopyResult, ghost log: seq<Recorded>)
      modifies this, control, template
      ensures CopyLog(template.domains, old(Elements(source.tls)), copy, log)
      ensures var r := Clusters.CreateIngress(template.Cfg(), old(State()), key, copy, old(control.faults));
        State() == r.broker && err == r.err && recorded == old(recorded) + log + r.events
    {
      var tls, result, complaints := CopyPrefixed(key.ns, Elements(source.tls));
      copy, log := result, complaints;
      if |result.tls| < 1 {
        return None, copy, log;
      }
      var controlIngress := template.CreateControlIngress(result.provider, tls);
      err := control.PutIngress(ControlName(key), controlIngress);
      if err.None? {
        recorded := recorded + [Initiated];
      }
    }

    method UpdateIngress(key: Key, targetIng: CachedIngress, controlIng: ControlIngress)
      returns (err: Option<Error>, ghost copy: CopyResult, ghost log: seq<Recorded>)
      modifies this, control
      ensures var tls := old(Elements(targetIng.tls));
        if UpToDate(TargetIngress(targetIng.labels, tls), controlIng, key.ns)
        then CopyOutcome(template.domains, tls, copy) && log == []
        else CopyLog(template.domains, tls, copy, log)
      ensures var r := Clusters.UpdateIngress(old(State()), key,
          TargetIngress(targetIng.labels, old(Elements(targetIng.tls))), controlIng, copy, old(control.faults));
        State() == r.broker && err == r.err && recorded == old(recorded) + log + r.events
    {
      var controlTLS := Decode(controlIng.tls);
      var equal := DeepEqual(targetIng.tls, controlTLS, key.ns);
      if equal {
        copy := SomeOutcome(template.domains, Elements(targetIng.tls));
        return None, copy, [];
      }
      var updatedTLS, result, complaints := CopyPrefixed(key.ns, Elements(targetIng.tls));
      copy, log := result, complaints;
      if controlIng.annotations == map[] {
        return Some(NilMapWrite), copy, log;
      }
      var updatedIng :=
        ControlIngress(Elements(updatedTLS), controlIng.annotations[DNS_PROVIDER_KEY := result.provider]);
      err := control.PutIngress(ControlName(key), updatedIng);
      if err.None? {
        recorded := recorded + [UpdateRequested];
      }
    }

    /** The dispatch of `Sync`. It changes the control cluster as the function says, for one
        outcome of `copyTLS`; the cached Ingresses of the target cluster are as they were. */
    method SyncKey(k: Key) returns (err: Option<Error>, ghost copy: CopyResult, ghost log: seq<Recorded>)
      modifies this, control, template
      ensures target.View() == old(target.View())
      ensures Logged(template.domains, old(target.View()), old(control.Contents()), k, copy, log)
      ensures var r := SyncIngress(template.Cfg(), old(target.View()), old(State()), k, copy, old(control.faults));
        State() == r.broker && err == r.err && recorded == old(recorded) + log + r.events
    {
      copy, log := NOTHING, [];
      var controlIngressName := ControlName(k);
      if k !in target.ingresses {
        err := CleanUpIngressAndSecrets(controlIngressName);
      } else if controlIngressName !in control.ingresses {
        err, copy, log := CreateIngress(k, target.ingresses[k]);
      } else {
        err, copy, log := UpdateIngress(k, target.ingresses[k], control.ingresses[controlIngressName]);
      }
    }

    /** `Sync`: a key that cannot be parsed is dropped. */
    method Sync(key: string) returns (err: Option<Error>, ghost copy: CopyResult, ghost log: seq<Recorded>)
      modifies this, control, template
      ensures target.View() == old(target.View())
      ensures SplitMetaKey(key).None? ==> err == None && State() == old(State()) && recorded == old(recorded)
      ensures SplitMetaKey(key).Some? ==>
        var k := Key(SplitMetaKey(key).value.0, SplitMetaKey(key).value.1);
        var r := SyncIngress(template.Cfg(), old(target.View()), old(State()), k, copy, old(control.faults));
        && Logged(template.domains, old(target.View()), old(control.Contents()), k, copy, log)
        && State() == r.broker && err == r.err && recorded == old(recorded) + log + r.events
    {
      copy, log := NOTHING, [];
      var parsed := SplitMetaKey(key);
      if parsed.None? {
        return None, copy, log;
      }
      err, copy, log := SyncKey(Key(parsed.value.0, parsed.value.1));
    }

    method CleanUpIngressAndSecrets(name: string) returns (err: Option<Error>)
      modifies control
      ensures name !in old(control.ingresses) ==> err == None && control.Contents() == old(control.Contents())
      ensures name in old(control.ingresses) ==>
        var tls := old(control.ingresses)[name].tls;
        && control.Contents() == CleanUp(old(control.Contents()), name, tls, old(control.faults))
        && err == ErrorAfter(old(control.faults), 1 + |tls|)
    {
      if name !in control.ingresses {
        return None;
      }
      err := control.CleanUpIngressAndTLSSecrets(name, control.ingresses[name].tls);
    }
  }

  // ---- The cleaner ----

  class CleanerController {
    const control: ControlCluster
    const target: TargetCluster
    const template: IngressTemplate

    constructor (control: ControlCluster, target: TargetCluster, template: IngressTemplate)
      ensures this.control == control && this.target == target && this.template == template
    {
      this.control, this.target, this.template := control, target, template;
    }

    function State(): Broker
      reads control, template
    {
      Broker(control.Contents(), template.dns01Provider)
    }

    /** Overwrites the annotations named by the template, in whatever order the map is visited. */
    method Overwrite(
      annotations: map<string, string>, template: map<string, string>) returns (result: map<string, string>)
      ensures result == annotations + template
    {
      result := annotations;
      var unvisited := template.Keys;
      while unvisited != {}
        invariant unvisited <= template.Keys
        invariant result.Keys == annotations.Keys + (template.Keys - unvisited)
        invariant forall k :: k in result ==>
          result[k] == if k in template && k !in unvisited then template[k] else annotations[k]
        decreases |unvisited|
      {
        var annotation :| annotation in unvisited;
        unvisited := unvisited - {annotation};
        result := result[annotation := template[annotation]];
      }
    }

    /** `syncHandler`. A key that cannot be parsed is looked at again. */
    method SyncHandler(key: string) returns (requeue: bool, err: Option<Error>)
      modifies control
      ensures SplitMetaKey(key).None? ==> requeue && err == None && State() == old(State())
      ensures SplitMetaKey(key).Some? ==>
        var name := SplitMetaKey(key).value.1;
        var r := SyncCleaner(template.Cfg(), target.View(), old(State()), name, old(control.faults));
        && control.Contents() == r.control && err == r.err
        && (err.None? ==> requeue == r.requeue)
      ensures target.View() == old(target.View())
    {
      var parsed := SplitMetaKey(key);
      if parsed.None? {
        return true, None;
      }
      var name := parsed.value.1;
      var targetKey := TargetOf(name);
      if name !in control.ingresses {
        return false, None;
      }
      var controlIngress := control.ingresses[name];
      if targetKey !in target.ingresses || !Labelled(TargetIngress(target.ingresses[targetKey].labels, [])) {
        err := control.CleanUpIngressAndTLSSecrets(name, controlIngress.tls);
        return false, err;
      }
      if template.updateIngresses {
        err := Annotate(name, controlIngress);
        return true, err;
      }
      return true, None;
    }

    /** Writes the Ingress back under the annotations of the template; writing to a nil map panics. */
    method Annotate(name: string, controlIngress: ControlIngress) returns (err: Option<Error>)
      modifies control
      ensures controlIngress.annotations == map[] ==>
        err == Some(NilMapWrite) && control.Contents() == old(control.Contents())
      ensures controlIngress.annotations != map[] ==>
        var overwritten := controlIngress.annotations + TemplateAnnotations(template.Cfg(), template.dns01Provider);
        && control.Contents() ==
             Put(old(control.Contents()), name, controlIngress.(annotations := overwritten), old(control.faults))
        && err == ErrorAfter(old(control.faults), 1)
    {
      var annotations := template.CreateIngressAnnotations();
      if controlIngress.annotations == map[] {
        return Some(NilMapWrite);
      }
      var overwritten := Overwrite(controlIngress.annotations, annotations);
      err := control.PutIngress(name, controlIngress.(annotations := overwritten));
    }
  }

  // ---- The secret controller ----

  ghost predicate Asks(ingresses: seq<TargetIngress>, secretName: string) {
    exists i :: 0 <= i < |ingresses| && secretName in SecretNames(ingresses[i].tls)
  }

  class SecretHandler {
    const control: ControlCluster
    const target: TargetCluster

    constructor (control: ControlCluster, target: TargetCluster)
      ensures this.control == control && this.target == target
    {
      this.control, this.target := control, target;
    }

    /** The lister: the labelled Ingresses of a namespace in any order, or of all for the empty one. */
    method List(ns: string) returns (list: seq<TargetIngress>)
      ensures forall secretName :: Asks(list, secretName) <==> HasIngress(target.View(), ns, secretName)
    {
      list := [];
      ghost var view := target.View();
      ghost var from: seq<Key> := [];
      var unvisited := target.ingresses.Keys;
      while unvisited != {}
        invariant unvisited <= target.ingresses.Keys && |from| == |list|
        invariant forall i :: 0 <= i < |list| ==>
          from[i] in view && (ns == "" || from[i].ns == ns) && Labelled(view[from[i]]) && list[i] == view[from[i]]
        invariant forall k ::
          k in view && k !in unvisited && (ns == "" || k.ns == ns) && Labelled(view[k]) ==> view[k] in list
        decreases |unvisited|
      {
        var k :| k in unvisited;
        unvisited := unvisited - {k};
        var ingress := TargetIngress(target.ingresses[k].labels, Elements(target.ingresses[k].tls));
        if (ns == "" || k.ns == ns) && Labelled(ingress) {
          list, from := list + [ingress], from + [k];
        }
      }
    }

    method HasIngressInTargetCluster(ingresses: seq<TargetIngress>, secretName: string) returns (found: bool)
      ensures found <==> Asks(ingresses, secretName)
    {
      for i := 0 to |ingresses|
        invariant forall k :: 0 <= k < i ==> secretName !in SecretNames(ingresses[k].tls)
      {
        var tls := ingresses[i].tls;
        for j := 0 to |tls|
          invariant forall k :: 0 <= k < j ==> tls[k].secretName != secretName
        {
          if tls[j].secretName == secretName {
            assert tls[j] in tls;
            return true;
          }
        }
      }
      return false;
    }

    method ReplicateSecretToTargetCluster(name: string, data: SecretData) returns (err: Option<Error>)
      modifies target`secrets, target`faults
      ensures (target.secrets, err) == Replicate(old(target.secrets), TargetOf(name), data, old(target.faults))
    {
      var key := TargetOf(name);
      var present: bool;
      err, present := target.CreateSecret(key, data);
      if err.None? && present {
        err := target.UpdateSecret(key, data);
      }
    }

    /** `Sync` for a key that could be parsed. */
    method SyncNamed(name: string) returns (err: Option<Error>)
      modifies target`secrets, target`faults
      ensures (target.secrets, err)
           == SyncSecret(old(target.View()), control.secrets, old(target.secrets), name, old(target.faults))
    {
      if name !in control.secrets {
        return None;
      }
      var targetKey := TargetOf(name);
      ghost var view := target.View();
      var available := List(targetKey.ns);
      assert Asks(available, targetKey.name) <==> HasIngress(view, targetKey.ns, targetKey.name);
      var found := HasIngressInTargetCluster(available, targetKey.name);
      if !found {
        return None;
      }
      err := ReplicateSecretToTargetCluster(name, control.secrets[name]);
    }

    method Sync(key: string) returns (err: Option<Error>)
      modifies target`secrets, target`faults
      ensures SplitMetaKey(key).None? ==> err == None && target.secrets == old(target.secrets)
      ensures SplitMetaKey(key).Some? ==>
        (target.secrets, err)
          == SyncSecret(old(target.View()), control.secrets, old(target.secrets),
                        SplitMetaKey(key).value.1, old(target.faults))
    {
      var parsed := SplitMetaKey(key);
      if parsed.None? {
        return None;
      }
      err := SyncNamed(parsed.value.1);
    }
  }

  // ---- Notifications of the target cluster ----

  class EventHandler {
    const queue: WQ.Controller<TargetKey>

    constructor (queue: WQ.Controller<TargetKey>)
      ensures this.queue == queue
    {
      this.queue := queue;
    }

    method OnAdd(key: TargetKey)
      modifies queue
      ensures queue.Contents() == old(queue.Contents()).AddLater(key)
    {
      queue.AddAfter(key);
    }

    method OnUpdate(key: TargetKey, old': TargetIngress, new': TargetIngress)
      modifies queue
      ensures queue.Contents() ==
        if old'.tls == new'.tls then old(queue.Contents()) else old(queue.Contents()).AddLater(key)
    {
      if old'.tls == new'.tls {
        return;
      }
      OnAdd(key);
    }

    method OnDelete(key: TargetKey)
      modifies queue
      ensures queue.Contents() == old(queue.Contents()).AddLater(key)
    {
      queue.AddAfter(key);
    }

    /** The label filter in front of the handler: an Ingress that gains the label is an addition,
        one that loses it a deletion. */
    method Deliver(n: Notice)
      modifies queue
      ensures queue.Contents() == if Enqueues(n) then old(queue.Contents()).AddLater(n.key) else old(queue.Contents())
    {
      match (n.before, n.after)
      case (None, None) =>
      case (None, Some(new')) =>
        if Labelled(new') {
          OnAdd(n.key);
        }
      case (Some(old'), None) =>
        if Labelled(old') {
          OnDelete(n.key);
        }
      case (Some(old'), Some(new')) =>
        if Labelled(new') && Labelled(old') {
          OnUpdate(n.key, old', new');
        } else if Labelled(new') {
          OnAdd(n.key);
        } else if Labelled(old') {
          OnDelete(n.key);
        }
    }
  }
}
