/** Labelled Ingresses are dirty or synced: exactly until a removal strikes an Ingress that has
    regained its label. */
module Dirty {
  import opened Naming
  import opened TLS
  import opened CopySpec
  import opened Prefix
  import opened Clusters
  import opened Protocol
  import opened Safety
  import opened Runs
  import WQ = WorkQueue

  // ---- Steps outside the cleaner ----

  /** An edit leaves a labelled Ingress either as it was or announced by a notice. */
  lemma EditKeepsAgreement(c: Config, s: State, step: Step)
    requires step.Edit? && DirtyOrSynced(c, s)
    ensures DirtyOrSynced(c, Next(c, s, step))
  {
    var s' := Next(c, s, step);
    if !s.ingress.q.shuttingDown {
      var n := Notice(step.key, At(s.target, step.key), step.edited);
      assert n in s'.notices;
      forall key | key in s'.target && Labelled(s'.target[key])
        ensures WQ.Pending(s'.ingress, key) || Noticed(s', key) || Synced(c, s', key)
      {
        if !(key == step.key && Enqueues(n)) {
          assert key in s.target && Labelled(s.target[key]) && s.target[key].tls == s'.target[key].tls;
          assert Noticed(s, key) ==> Noticed(s', key);
        }
      }
    }
  }

  lemma NotifyKeepsAgreement(c: Config, s: State)
    requires s.notices != [] && DirtyOrSynced(c, s)
    ensures DirtyOrSynced(c, Next(c, s, Notify))
  {
    var s' := Next(c, s, Notify);
    if !s.ingress.q.shuttingDown {
      forall key | key in s'.target && Labelled(s'.target[key])
        ensures WQ.Pending(s'.ingress, key) || Noticed(s', key) || Synced(c, s', key)
      {
        if Noticed(s, key) {
          var n :| n in s.notices && n.key == key && Enqueues(n);
          assert n == s.notices[0] || n in s'.notices;
        } else if WQ.Pending(s.ingress, key) {
          assert s'.ingress.workers == s.ingress.workers;
        }
      }
    }
  }

  /** A successful run leaves its key synced; the up-to-date branch relies on the control list
      being one that copying does not change. */
  lemma RunSyncs(c: Config, s: State, key: TargetKey, copy: CopyResult, f: Faults)
    requires Unambiguous(c.settings.domains) && Owned(c.settings.domains, s.b.control)
    requires key in s.target && CopyOutcome(c.settings.domains, s.target[key].tls, copy)
    requires IngressSync(c, s, key, copy, f).err.None?
    ensures Replicated(IngressSync(c, s, key, copy, f).broker.control, key,
                Copy(c.settings.domains, s.target[key].tls).tls)
  {
    var domains, name := c.settings.domains, ControlName(key);
    CopyRefines(domains, s.target[key].tls, copy);
    SyncReplicatesIff(c.settings, s.target, s.b, key, copy, f);
    if name in s.b.control.ingresses && UpToDate(s.target[key], s.b.control.ingresses[name], key.ns) {
      NameOfKey(key);
      assert OwnedIngress(domains, name, s.b.control.ingresses[name]);
      var t :| s.b.control.ingresses[name].tls == Prefixed(key.ns, t) && Copy(domains, t).tls == t;
      PrefixedInjective(key.ns, t, s.target[key].tls);
    }
  }

  /** A run for one key leaves the control Ingresses of all other keys alone. */
  lemma RunFrames(
    c: Config, s: State, key: TargetKey, other: TargetKey, copy: CopyResult, f: Faults, copied: seq<IngressTLS>)
    requires key != other
    ensures Replicated(IngressSync(c, s, key, copy, f).broker.control, other, copied)
      <==> Replicated(s.b.control, other, copied)
  {
    OtherName(key, other);
  }

  /** The same for the second half of a create. */
  lemma FinishFrames(c: Config, s: State, key: TargetKey, other: TargetKey, f: Faults, copied: seq<IngressTLS>)
    requires key != other && key in s.making
    ensures Replicated(FinishCreate(c.settings, s.b, key, s.making[key], f).broker.control, other, copied)
       <==> Replicated(s.b.control, other, copied)
  {
    OtherName(key, other);
  }

  /** A run that ends without an error leaves its key synced, or somebody will look at it again. */
  lemma RunSettles(c: Config, s: State, step: Step)
    requires Unambiguous(c.settings.domains) && Owned(c.settings.domains, s.b.control) && MakingFresh(c, s)
    requires step.Ingress? && Enabled(c, s, step)
    requires step.iact.Run? && step.iact.outcome == WQ.Forget && !s.ingress.q.shuttingDown
    requires var key := s.ingress.workers[step.iact.w].key; key in s.target && Labelled(s.target[key])
    ensures var key, s' := s.ingress.workers[step.iact.w].key, Next(c, s, step);
      Requeued(s', key) || Synced(c, s', key)
  {
    var key, s' := s.ingress.workers[step.iact.w].key, Next(c, s, step);
    if key !in s.making {
      RunSyncs(c, s, key, step.copy, step.f);
    } else {
      assert Requeued(s, key) ==> Requeued(s', key) by {
        assert Noticed(s, key) ==> Noticed(s', key);
      }
    }
  }

  lemma RunKeepsOthers(c: Config, s: State, step: Step, key: TargetKey)
    requires step.Ingress? && Enabled(c, s, step) && step.iact.Run? && s.ingress.workers[step.iact.w].key != key
    requires key in s.target
    ensures Synced(c, Next(c, s, step), key) <==> Synced(c, s, key)
  {
    var ran, copied := s.ingress.workers[step.iact.w].key, Copy(c.settings.domains, s.target[key].tls).tls;
    if ran in s.making {
      FinishFrames(c, s, ran, key, step.f, copied);
    } else {
      RunFrames(c, s, ran, key, step.copy, step.f, copied);
    }
  }

  lemma IngressKeepsAgreement(c: Config, s: State, step: Step)
    requires Unambiguous(c.settings.domains) && Owned(c.settings.domains, s.b.control) && MakingFresh(c, s)
    requires DirtyOrSynced(c, s) && step.Ingress? && Enabled(c, s, step)
    ensures DirtyOrSynced(c, Next(c, s, step))
  {
    var a, s' := step.iact, Next(c, s, step);
    if !s'.ingress.q.shuttingDown {
      forall key | key in s'.target && Labelled(s'.target[key])
        ensures WQ.Pending(s'.ingress, key) || Noticed(s', key) || Synced(c, s', key)
      {
        assert Noticed(s, key) ==> Noticed(s', key);
        if !a.Run? {
          if WQ.Pending(s.ingress, key) {
            WQ.PendingKept(c.ingressWorkers, s.ingress, a, key);
          }
        } else if s.ingress.workers[a.w].key != key {
          RunKeepsOthers(c, s, step, key);
          if WQ.Pending(s.ingress, key) {
            WQ.PendingKept(c.ingressWorkers, s.ingress, a, key);
          }
        } else if a.outcome == WQ.Forget {
          RunSettles(c, s, step);
        } else {
          assert WQ.Carries(s'.ingress.workers[a.w], key);
        }
      }
    }
  }

  // ---- The cleaner ----

  /** A whole sync of the cleaner removes nothing that has a labelled counterpart, and changes no list. */
  lemma CleanerFrames(c: Config, s: State, name: ManagedName, f: Faults, key: TargetKey, copied: seq<IngressTLS>)
    requires key in s.target && Labelled(s.target[key]) && Replicated(s.b.control, key, copied)
    ensures Replicated(CleanerSync(c, s, name, f).control, key, copied)
  {
    if ControlName(key) != name {
      SyncSparesOthers(c, s, name, f, ControlName(key));
    } else if name in s.b.control.ingresses {
      NameOfKey(key);
      CleanerRemovesIff(c.settings, s.target, s.b, name, f);
    }
  }

  lemma SyncSparesOthers(c: Config, s: State, name: ManagedName, f: Faults, other: string)
    requires other != name
    ensures SameIngress(s.b.control, CleanerSync(c, s, name, f).control, other)
  {}

  lemma RemoveSparesOthers(control: Control, name: string, ingress: ControlIngress, f: Faults, other: string)
    requires other != name
    ensures SameIngress(control, Remove(control, name, ingress, f).control, other)
  {}

  predicate SameIngress(before: Control, after: Control, name: string) {
    && (name in after.ingresses <==> name in before.ingresses)
    && (name in before.ingresses && name in after.ingresses ==> after.ingresses[name] == before.ingresses[name])
  }

  /** The removal of an Ingress whose label has come back, while nobody is going to look at that
      Ingress again. */
  ghost predicate Blind(c: Config, s: State, step: Step) {
    && step.Cleaner? && step.cact.Run? && Enabled(c, s, step) && Landed(step.f, 1) == 1
    && var name := s.cleaner.workers[step.cact.w].key; var key := TargetOf(name);
    && name in s.removing && HasCounterpart(s, name)
    && ValidKey(key) && ControlName(key) == name
    && !s.ingress.q.shuttingDown && !WQ.Pending(s.ingress, key) && !Noticed(s, key)
    && Copy(c.settings.domains, s.target[key].tls).tls != []
  }

  lemma CleanerRunKeeps(c: Config, s: State, step: Step, key: TargetKey)
    requires step.Cleaner? && step.cact.Run? && Enabled(c, s, step)
    requires key in s.target && Labelled(s.target[key]) && Synced(c, s, key)
    requires var name := s.cleaner.workers[step.cact.w].key;
      || name !in s.removing || ControlName(key) != name || Landed(step.f, 1) == 0
      || Copy(c.settings.domains, s.target[key].tls).tls == []
    ensures Synced(c, Next(c, s, step), key)
  {
    var name := s.cleaner.workers[step.cact.w].key;
    if name !in s.removing {
      CleanerFrames(c, s, name, step.f, key, Copy(c.settings.domains, s.target[key].tls).tls);
    } else if ControlName(key) != name {
      RemoveSparesOthers(s.b.control, name, s.removing[name], step.f, ControlName(key));
    }
  }

  lemma CleanerKeepsAgreement(c: Config, s: State, step: Step)
    requires DirtyOrSynced(c, s) && step.Cleaner? && Enabled(c, s, step) && !Blind(c, s, step)
    ensures DirtyOrSynced(c, Next(c, s, step))
  {
    var s' := Next(c, s, step);
    CleanerStepShrinks(c, s, step);
    assert forall key :: Noticed(s, key) ==> Noticed(s', key);
    if !s.ingress.q.shuttingDown {
      forall key | key in s.target && Labelled(s.target[key]) && !WQ.Pending(s.ingress, key) && !Noticed(s, key)
        ensures Synced(c, s', key)
      {
        NameOfKey(key);
        if step.cact.Run? {
          CleanerRunKeeps(c, s, step, key);
        }
      }
    }
  }

  lemma BlindBreaks(c: Config, s: State, step: Step)
    requires Blind(c, s, step)
    ensures !DirtyOrSynced(c, Next(c, s, step))
  {
    var name := s.cleaner.workers[step.cact.w].key;
    CleanerStepShrinks(c, s, step);
    CleanerRunIsNext(c, s, step);
    LostIsNeither(c, Next(c, s, step), TargetOf(name));
  }

  lemma LostIsNeither(c: Config, s: State, key: TargetKey)
    requires key in s.target && Labelled(s.target[key]) && Copy(c.settings.domains, s.target[key].tls).tls != []
    requires !s.ingress.q.shuttingDown && !WQ.Pending(s.ingress, key) && !Noticed(s, key)
    requires ControlName(key) !in s.b.control.ingresses
    ensures !DirtyOrSynced(c, s)
  {
    assert !Synced(c, s, key);
  }

  lemma AgreementKept(c: Config, s: State, step: Step)
    requires Unambiguous(c.settings.domains) && Inv(c, s) && DirtyOrSynced(c, s)
    requires Enabled(c, s, step) && !Blind(c, s, step)
    ensures DirtyOrSynced(c, Next(c, s, step))
  {
    var s' := Next(c, s, step);
    match step
    case Edit(_, _) => EditKeepsAgreement(c, s, step);
    case Notify => NotifyKeepsAgreement(c, s);
    case Ingress(_, _, _) => IngressKeepsAgreement(c, s, step);
    case Cleaner(_, _) => CleanerKeepsAgreement(c, s, step);
    case Restart(_, _) => AllNoticed(c, s');
    case _ =>
      assert forall key :: Noticed(s, key) ==> Noticed(s', key);
  }

  /** The first lists announce every labelled Ingress. */
  lemma AllNoticed(c: Config, s: State)
    requires Lists(s, s.notices, s.adds)
    ensures DirtyOrSynced(c, s)
  {
    forall key | key in s.target && Labelled(s.target[key]) ensures Noticed(s, key) {
      var n :| n in s.notices && n.key == key;
      assert Enqueues(n);
    }
  }

  // ---- Every run ----

  lemma StepAgreesIff(c: Config, s: State, step: Step)
    requires Unambiguous(c.settings.domains) && Inv(c, s) && DirtyOrSynced(c, s) && Enabled(c, s, step)
    ensures DirtyOrSynced(c, Next(c, s, step)) <==> !Blind(c, s, step)
  {
    if Blind(c, s, step) {
      BlindBreaks(c, s, step);
    } else {
      AgreementKept(c, s, step);
    }
  }

  ghost function DirtyOrSyncedAt(c: Config, states: seq<State>): seq<bool> {
    seq(|states|, i requires 0 <= i < |states| => DirtyOrSynced(c, states[i]))
  }

  ghost function BlindAt(c: Config, states: seq<State>, steps: seq<Step>): seq<bool>
    requires |states| == |steps| + 1
  {
    seq(|steps|, i requires 0 <= i < |steps| => Blind(c, states[i], steps[i]))
  }

  lemma AgreesAt(c: Config, states: seq<State>, steps: seq<Step>, j: nat)
    requires Unambiguous(c.settings.domains) && IsRun(c, states, steps) && j < |steps|
    ensures SwitchAt(DirtyOrSyncedAt(c, states), BlindAt(c, states, steps), j)
  {
    EveryRun(c, states, steps, j);
    assert StepAt(c, states, steps, j);
    if DirtyOrSynced(c, states[j]) {
      StepAgreesIff(c, states[j], steps[j]);
    }
  }

  /** In every run: labelled Ingresses are dirty or synced in all states so far, exactly if no removal
      was blind so far. */
  lemma DirtyOrSyncedIff(c: Config, states: seq<State>, steps: seq<Step>, i: nat)
    requires Unambiguous(c.settings.domains) && IsRun(c, states, steps) && i < |states|
    ensures (forall j: nat :: j <= i ==> DirtyOrSynced(c, states[j]))
       <==> (forall j: nat :: j < i ==> !Blind(c, states[j], steps[j]))
  {
    var good, bad := DirtyOrSyncedAt(c, states), BlindAt(c, states, steps);
    AllNoticed(c, states[0]);
    forall j: nat | j < |bad| ensures SwitchAt(good, bad, j) {
      AgreesAt(c, states, steps, j);
    }
    GoodUntilBad(good, bad, i);
    assert forall j: nat :: j <= i ==> good[j] == DirtyOrSynced(c, states[j]);
    assert forall j: nat :: j < i ==> bad[j] == Blind(c, states[j], steps[j]);
  }

  /** A user gives an Ingress its label back while the cleaner is removing its copy. */
  predicate Relabels(s: State, step: Step) {
    && step.Edit? && FilterAccepts(ControlName(step.key)) && ControlName(step.key) in s.removing
    && step.edited.Some? && Labelled(step.edited.value)
  }

  lemma SightedKept(c: Config, s: State, step: Step)
    requires Inv(c, s) && Sighted(s) && Enabled(c, s, step) && !Relabels(s, step)
    ensures Sighted(Next(c, s, step))
  {
    var s' := Next(c, s, step);
    if step.Edit? {
      forall name: ManagedName | name in s'.removing ensures !HasCounterpart(s', name) {
        assert RemovingOk(c, s, name) && !HasCounterpart(s, name);
        KeyOfName(name);
      }
    } else if step.Cleaner? {
      CleanerStepShrinks(c, s, step);
    }
  }

  /** Every step but such an edit keeps what is sound. */
  lemma SoundKept(c: Config, s: State, step: Step)
    requires Unambiguous(c.settings.domains) && Sound(c, s) && Enabled(c, s, step) && !Relabels(s, step)
    ensures Sound(c, Next(c, s, step))
  {
    InvKept(c, s, step);
    SightedKept(c, s, step);
    AgreementKept(c, s, step);
  }

  /** No such edit among the first `i` steps. */
  ghost predicate Steady(states: seq<State>, steps: seq<Step>, i: nat)
    requires |states| == |steps| + 1 && i <= |steps|
  {
    forall j :: 0 <= j < i ==> !Relabels(states[j], steps[j])
  }

  /** So in every run in which no Ingress regains its label between decision and removal, every state
      is sound. */
  lemma SteadyRunsAreSound(c: Config, states: seq<State>, steps: seq<Step>, i: nat)
    requires Unambiguous(c.settings.domains) && IsRun(c, states, steps) && i < |states| && Steady(states, steps, i)
    ensures Sound(c, states[i])
  {
    var inv, first := (s: State) => Sound(c, s), states[..i + 1];
    InitialInv(c, states[0]);
    AllNoticed(c, states[0]);
    forall j: nat | j + 1 < |first| ensures Carried(inv, first, j) {
      assert StepAt(c, states, steps, j);
      if inv(first[j]) {
        SoundKept(c, states[j], steps[j]);
      }
    }
    Invariantly(inv, first, i);
  }
}
