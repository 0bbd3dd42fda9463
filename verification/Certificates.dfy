/** Certificates over whole runs: what a target secret holds was issued for it, and what is issued
    comes back to the Ingress that asked for it. */
module Certificates {
  import opened Naming
  import opened TLS
  import opened CopySpec
  import opened Clusters
  import opened Protocol
  import opened Safety
  import opened Dirty
  import opened Isolation
  import WQ = WorkQueue

  // ---- Where secrets come from ----

  /** Before state `i` Cert-Manager stored `data` under `name`, or it was there from the start. */
  ghost predicate Stored(states: seq<State>, steps: seq<Step>, i: nat, name: string, data: SecretData)
    requires |states| == |steps| + 1 && i < |states|
  {
    || (name in states[0].b.control.secrets && states[0].b.control.secrets[name] == data)
    || exists j :: 0 <= j < i && steps[j] == Issue(name, data)
  }

  /** Nothing in `after` is new or changed. */
  ghost predicate Shrinks(before: map<string, SecretData>, after: map<string, SecretData>) {
    forall name :: name in after ==> name in before && after[name] == before[name]
  }

  /** No step of the broker writes a control secret. */
  lemma OnlyIssuingWrites(c: Config, s: State, step: Step, name: string)
    requires Enabled(c, s, step) && name in Next(c, s, step).b.control.secrets
    ensures var data := Next(c, s, step).b.control.secrets[name];
      step == Issue(name, data) || (name in s.b.control.secrets && s.b.control.secrets[name] == data)
  {
    if step.Ingress? {
      IngressStepDeletes(c, s, step);
    } else if step.Cleaner? {
      CleanerStepDeletes(c, s, step);
    }
  }

  lemma IngressStepDeletes(c: Config, s: State, step: Step)
    requires Enabled(c, s, step) && step.Ingress?
    ensures Shrinks(s.b.control.secrets, Next(c, s, step).b.control.secrets)
  {
    if step.iact.Run? {
      RunDeletesOnly(c, s, s.ingress.workers[step.iact.w].key, step.copy, step.f);
    }
  }

  lemma CleanerStepDeletes(c: Config, s: State, step: Step)
    requires Enabled(c, s, step) && step.Cleaner?
    ensures Shrinks(s.b.control.secrets, Next(c, s, step).b.control.secrets)
  {
    if step.cact.Run? {
      SweepDeletesOnly(c, s, s.cleaner.workers[step.cact.w].key, step.f);
    }
  }

  lemma RunDeletesOnly(c: Config, s: State, key: TargetKey, copy: CopyResult, f: Faults)
    ensures Shrinks(s.b.control.secrets, IngressRun(c, s, key, copy, f).broker.control.secrets)
  {}

  lemma SweepDeletesOnly(c: Config, s: State, name: ManagedName, f: Faults)
    ensures Shrinks(s.b.control.secrets, CleanerRun(c, s, name, f).control.secrets)
  {}

  lemma {:induction false} ControlSecretsAreStored(
    c: Config, states: seq<State>, steps: seq<Step>, i: nat, name: string)
    requires IsRun(c, states, steps) && i < |states| && name in states[i].b.control.secrets
    ensures Stored(states, steps, i, name, states[i].b.control.secrets[name])
    decreases i
  {
    if i > 0 {
      assert StepAt(c, states, steps, i - 1);
      OnlyIssuingWrites(c, states[i - 1], steps[i - 1], name);
      if steps[i - 1] != Issue(name, states[i].b.control.secrets[name]) {
        ControlSecretsAreStored(c, states, steps, i - 1, name);
      }
    }
  }

  /** A target secret changes only by a sync of a control secret that is named for it, to its data. */
  lemma OnlySecretSyncsWrite(c: Config, s: State, step: Step, k: Key)
    requires Enabled(c, s, step) && k in Next(c, s, step).targetSecrets
    ensures var data := Next(c, s, step).targetSecrets[k];
      || (k in s.targetSecrets && s.targetSecrets[k] == data)
      || (step.Secret? && TargetOf(step.name) == k
          && step.name in s.b.control.secrets && s.b.control.secrets[step.name] == data)
  {}

  /** `data` was in the target secret from the start, or stored before under a name that decodes to it. */
  ghost predicate Issued(states: seq<State>, steps: seq<Step>, i: nat, k: Key, data: SecretData)
    requires |states| == |steps| + 1 && i < |states|
  {
    || (k in states[0].targetSecrets && states[0].targetSecrets[k] == data)
    || exists name: ManagedName :: TargetOf(name) == k && Stored(states, steps, i, name, data)
  }

  lemma IssuedStays(states: seq<State>, steps: seq<Step>, i: nat, k: Key, data: SecretData)
    requires |states| == |steps| + 1 && 0 < i < |states| && Issued(states, steps, i - 1, k, data)
    ensures Issued(states, steps, i, k, data)
  {
    assert forall name: ManagedName ::
      Stored(states, steps, i - 1, name, data) ==> Stored(states, steps, i, name, data);
  }

  /** In every run, whatever fails: a target secret holds what it held at the start, or data that
      Cert-Manager has stored under a control name that decodes to it. */
  lemma {:induction false} TargetSecretsAreIssued(c: Config, states: seq<State>, steps: seq<Step>, i: nat, k: Key)
    requires IsRun(c, states, steps) && i < |states| && k in states[i].targetSecrets
    ensures Issued(states, steps, i, k, states[i].targetSecrets[k])
    decreases i
  {
    if i > 0 {
      var s, step, data := states[i - 1], steps[i - 1], states[i].targetSecrets[k];
      assert StepAt(c, states, steps, i - 1);
      OnlySecretSyncsWrite(c, s, step, k);
      if k in s.targetSecrets && s.targetSecrets[k] == data {
        TargetSecretsAreIssued(c, states, steps, i - 1, k);
      } else {
        ControlSecretsAreStored(c, states, steps, i - 1, step.name);
        assert Stored(states, steps, i - 1, step.name, data);
      }
      IssuedStays(states, steps, i, k, data);
    }
  }

  // ---- A certificate comes back ----

  /** Nobody is going to look at the Ingress: what there was to do has been done. */
  ghost predicate Settled(s: State, key: TargetKey) {
    !s.ingress.q.shuttingDown && !WQ.Pending(s.ingress, key) && !Noticed(s, key)
  }

  /** In every state of a run: a labelled Ingress at rest has had its certificate requested. */
  lemma SettledIsRequested(c: Config, s: State, key: TargetKey, entry: IngressTLS, host: string)
    requires Unambiguous(c.settings.domains) && Sound(c, s) && Settled(s, key)
    requires key in s.target && Labelled(s.target[key]) && !ProvidersDiffer(c.settings.domains, s.target[key].tls)
    requires entry in s.target[key].tls && host in entry.hosts && Managed(c.settings.domains, host)
    ensures ControlName(key) in s.b.control.ingresses
    ensures CreateNameForControlCluster(key.ns, entry.secretName)
         in SecretNames(s.b.control.ingresses[ControlName(key)].tls)
  {
    var domains, tls := c.settings.domains, s.target[key].tls;
    assert Synced(c, s, key);
    assert Listed(domains, tls, host);
    CopyNothing(domains, tls);
    EntryCopied(domains, tls, entry, host);
    var copied := Copy(domains, tls).tls;
    var t := IngressTLS(Keep(domains, entry.hosts), entry.secretName);
    var i :| 0 <= i < |copied| && copied[i] == t;
    var prefixed := s.b.control.ingresses[ControlName(key)].tls;
    assert prefixed[i] in prefixed && prefixed[i].secretName == CreateNameForControlCluster(key.ns, entry.secretName);
  }

  /** A labelled Ingress of the namespace lists the secret. */
  ghost predicate Wanted(s: State, k: Key) {
    exists key ::
      key in s.target && key.ns == k.ns && Labelled(s.target[key]) && k.name in SecretNames(s.target[key].tls)
  }

  /** After step `i` and up to state `j` the control secret is there and nobody stores other data. */
  ghost predicate Kept(states: seq<State>, steps: seq<Step>, i: nat, j: nat, name: string)
    requires |states| == |steps| + 1 && j <= |steps|
  {
    && (forall m :: i < m < j ==> !(steps[m].Issue? && steps[m].secret == name))
    && (forall m :: i < m <= j ==> name in states[m].b.control.secrets)
  }

  lemma {:induction false} StoredStays(
    c: Config, states: seq<State>, steps: seq<Step>, i: nat, j: nat, name: string, data: SecretData)
    requires IsRun(c, states, steps) && i < j <= |steps| && steps[i] == Issue(name, data)
    requires Kept(states, steps, i, j, name)
    ensures name in states[j].b.control.secrets && states[j].b.control.secrets[name] == data
    decreases j
  {
    var m := j - 1;
    assert StepAt(c, states, steps, m);
    assert states[m + 1] == Next(c, states[m], steps[m]) && name in states[m + 1].b.control.secrets;
    if i < m {
      StoredStays(c, states, steps, i, m, name, data);
      OnlyIssuingWrites(c, states[m], steps[m], name);
    }
  }

  /** A secret sync that meets no failure delivers. */
  lemma SyncDelivers(c: Config, s: State, name: ManagedName, f: Faults)
    requires name in s.b.control.secrets && Wanted(s, TargetOf(name)) && f.budget >= 2
    ensures Next(c, s, Secret(name, f)).targetSecrets == s.targetSecrets[TargetOf(name) := s.b.control.secrets[name]]
  {
    SecretsServed(s.target, s.b.control.secrets, s.targetSecrets, name, f);
  }

  lemma DeliveredKept(c: Config, s: State, step: Step, k: Key)
    requires Enabled(c, s, step) && k in s.targetSecrets && !(step.Secret? && TargetOf(step.name) == k)
    ensures k in Next(c, s, step).targetSecrets && Next(c, s, step).targetSecrets[k] == s.targetSecrets[k]
  {
    if step.Secret? {
      SyncSpares(s, step.name, step.f, k);
    } else {
      OthersSpareSecrets(c, s, step);
    }
  }

  lemma SyncSpares(s: State, name: ManagedName, f: Faults, k: Key)
    requires TargetOf(name) != k && k in s.targetSecrets
    ensures var after := SyncSecret(s.target, s.b.control.secrets, s.targetSecrets, name, f).0;
      k in after && after[k] == s.targetSecrets[k]
  {}

  lemma OthersSpareSecrets(c: Config, s: State, step: Step)
    requires Enabled(c, s, step) && !step.Secret?
    ensures Next(c, s, step).targetSecrets == s.targetSecrets
  {}

  lemma {:induction false} DeliveredStays(
    c: Config, states: seq<State>, steps: seq<Step>, j: nat, l: nat, k: Key, data: SecretData)
    requires IsRun(c, states, steps) && j <= l <= |steps|
    requires k in states[j].targetSecrets && states[j].targetSecrets[k] == data
    requires forall m :: j <= m < l ==> !(steps[m].Secret? && TargetOf(steps[m].name) == k)
    ensures k in states[l].targetSecrets && states[l].targetSecrets[k] == data
    decreases l
  {
    if l > j {
      assert StepAt(c, states, steps, l - 1);
      DeliveredStays(c, states, steps, j, l - 1, k, data);
      DeliveredKept(c, states[l - 1], steps[l - 1], k);
    }
  }

  /** The round trip, over runs. At step `i` Cert-Manager stores `data` for an entry of a labelled
      Ingress at rest; the Ingress did ask for it under that name. At step `j` a secret sync meets no
      failure, with the data neither replaced nor cleaned up before. From then on the target secret
      that the entry names holds exactly `data`, until the next sync for that secret. */
  lemma CertificateComesBack(
    c: Config, states: seq<State>, steps: seq<Step>, i: nat, j: nat, l: nat,
    key: TargetKey, entry: IngressTLS, host: string, name: ManagedName, data: SecretData, f: Faults)
    requires Unambiguous(c.settings.domains) && IsRun(c, states, steps) && i < j < l <= |steps|
    requires Steady(states, steps, i) && Settled(states[i], key)
    requires key in states[i].target && Labelled(states[i].target[key])
    requires !ProvidersDiffer(c.settings.domains, states[i].target[key].tls)
    requires entry in states[i].target[key].tls && entry.secretName != ""
    requires host in entry.hosts && Managed(c.settings.domains, host)
    requires name == CreateNameForControlCluster(key.ns, entry.secretName)
    requires steps[i] == Issue(name, data) && Kept(states, steps, i, j, name)
    requires steps[j] == Secret(name, f) && f.budget >= 2 && Wanted(states[j], Key(key.ns, entry.secretName))
    requires forall m :: j < m < l ==> !(steps[m].Secret? && TargetOf(steps[m].name) == Key(key.ns, entry.secretName))
    ensures ControlName(key) in states[i].b.control.ingresses
    ensures name in SecretNames(states[i].b.control.ingresses[ControlName(key)].tls)
    ensures var k := Key(key.ns, entry.secretName);
      k in states[l].targetSecrets && states[l].targetSecrets[k] == data
  {
    var k := Key(key.ns, entry.secretName);
    SplitUndoesCreate(key.ns, entry.secretName);
    SteadyRunsAreSound(c, states, steps, i);
    SettledIsRequested(c, states[i], key, entry, host);
    StoredStays(c, states, steps, i, j, name, data);
    assert StepAt(c, states, steps, j);
    SyncDelivers(c, states[j], name, f);
    DeliveredStays(c, states, steps, j + 1, l, k, data);
  }
}
