/** The notices of the target cluster are acted upon: what happens to a labelled Ingress is looked at,
    and the copy of a deleted one is removed by the ingress controller itself. */
module Deletions {
  import opened Naming
  import opened TLS
  import opened CopySpec
  import opened Clusters
  import opened Protocol
  import opened Safety
  import opened Convergence
  import WQ = WorkQueue

  // ---- Which notices are acted upon ----

  /** It is there and has the purpose label, with its one value. */
  predicate Opted(ingress: Option<TargetIngress>) {
    ingress.Some? && (GARDEN_PURPOSE, MANAGED_CERT) in ingress.value.labels.Items
  }

  /** An Ingress that is or was labelled has appeared, vanished, gained or lost its label, or changed its
      TLS list. */
  predicate Matters(before: Option<TargetIngress>, after: Option<TargetIngress>) {
    && (Opted(before) || Opted(after))
    && (Opted(before) && Opted(after) ==> before.value.tls != after.value.tls)
  }

  lemma EnqueuesIff(n: Notice)
    ensures Enqueues(n) <==> Matters(n.before, n.after)
  {}

  // ---- They stay on the agenda ----

  ghost predicate OnAgenda(s: State, key: TargetKey) {
    WQ.Pending(s.ingress, key) || Noticed(s, key)
  }

  /** A run of this key that will not be repeated. */
  predicate Answers(s: State, step: Step, key: TargetKey) {
    && step.Ingress? && step.iact.Run? && step.iact.outcome == WQ.Forget
    && step.iact.w < |s.ingress.workers| && s.ingress.workers[step.iact.w] == WQ.Got(key)
  }

  lemma EditIsNoticed(c: Config, s: State, key: TargetKey, edited: Option<TargetIngress>)
    requires Matters(At(s.target, key), edited)
    ensures Noticed(Next(c, s, Edit(key, edited)), key)
  {
    var n := Notice(key, At(s.target, key), edited);
    EnqueuesIff(n);
    assert n in Next(c, s, Edit(key, edited)).notices;
  }

  lemma IngressKeepsAgenda(c: Config, s: State, step: Step, key: TargetKey)
    requires Enabled(c, s, step) && step.Ingress? && !Answers(s, step, key) && OnAgenda(s, key)
    requires !Next(c, s, step).ingress.q.shuttingDown
    ensures OnAgenda(Next(c, s, step), key)
  {
    assert Noticed(s, key) ==> Noticed(Next(c, s, step), key);
    if WQ.Pending(s.ingress, key) {
      WQ.PendingKept(c.ingressWorkers, s.ingress, step.iact, key);
    }
  }

  lemma NotifyKeepsAgenda(c: Config, s: State, key: TargetKey)
    requires s.notices != [] && OnAgenda(s, key) && !s.ingress.q.shuttingDown
    ensures OnAgenda(Next(c, s, Notify), key)
  {
    var s' := Next(c, s, Notify);
    assert s'.ingress.workers == s.ingress.workers;
    if Noticed(s, key) {
      var n :| n in s.notices && n.key == key && Enqueues(n);
      assert n == s.notices[0] || n in s'.notices;
    }
  }

  lemma OthersKeepAgenda(c: Config, s: State, step: Step, key: TargetKey)
    requires Enabled(c, s, step) && OnAgenda(s, key) && !step.Ingress? && !step.Notify? && !step.Restart?
    ensures OnAgenda(Next(c, s, step), key)
  {
    var s' := Next(c, s, step);
    assert s'.ingress == s.ingress && s.notices <= s'.notices;
    assert Noticed(s, key) ==> Noticed(s', key);
  }

  lemma AgendaKept(c: Config, s: State, step: Step, key: TargetKey)
    requires Enabled(c, s, step) && OnAgenda(s, key) && !step.Restart? && !Answers(s, step, key)
    requires !Next(c, s, step).ingress.q.shuttingDown
    ensures OnAgenda(Next(c, s, step), key)
  {
    if step.Ingress? {
      IngressKeepsAgenda(c, s, step, key);
    } else if step.Notify? {
      NotifyKeepsAgenda(c, s, key);
    } else {
      OthersKeepAgenda(c, s, step, key);
    }
  }

  lemma ShutdownStays(c: Config, s: State, step: Step)
    requires Enabled(c, s, step) && !step.Restart? && !Next(c, s, step).ingress.q.shuttingDown
    ensures !s.ingress.q.shuttingDown
  {
    if step.Ingress? {
      WQ.ShutdownIsFinal(c.ingressWorkers, s.ingress, step.iact);
      assert Next(c, s, step).ingress == WQ.Next(c.ingressWorkers, s.ingress, step.iact);
    } else if step.Notify? {
      NotifyIsNext(c, s);
    } else {
      assert Next(c, s, step).ingress == s.ingress;
    }
  }

  lemma NotifyIsNext(c: Config, s: State)
    requires s.notices != []
    ensures Next(c, s, Notify).ingress.q.shuttingDown == s.ingress.q.shuttingDown
  {}

  predicate PassesBy(states: seq<State>, steps: seq<Step>, key: TargetKey, i: nat)
    requires |states| == |steps| + 1 && i < |steps|
  {
    !steps[i].Restart? && !Answers(states[i], steps[i], key)
  }

  /** No restart and no run that answers this key among the steps from `i` to `j`. */
  ghost predicate Unanswered(states: seq<State>, steps: seq<Step>, key: TargetKey, i: nat, j: nat)
    requires |states| == |steps| + 1 && i <= j <= |steps|
  {
    forall m: nat :: i <= m < j ==> PassesBy(states, steps, key, m)
  }

  /** Step `i` is an edit of this Ingress that matters. */
  predicate EditMatters(states: seq<State>, steps: seq<Step>, i: nat, key: TargetKey)
    requires |states| == |steps| + 1 && i < |steps|
  {
    steps[i].Edit? && steps[i].key == key && Matters(At(states[i].target, key), steps[i].edited)
  }

  lemma EditAt(c: Config, states: seq<State>, steps: seq<Step>, i: nat, key: TargetKey)
    requires IsRun(c, states, steps) && i < |steps| && EditMatters(states, steps, i, key)
    ensures OnAgenda(states[i + 1], key)
  {
    assert StepAt(c, states, steps, i);
    EditIsNoticed(c, states[i], key, steps[i].edited);
  }

  lemma AgendaAt(c: Config, states: seq<State>, steps: seq<Step>, i: nat, key: TargetKey)
    requires IsRun(c, states, steps) && i < |steps| && PassesBy(states, steps, key, i)
    requires !states[i + 1].ingress.q.shuttingDown
    ensures !states[i].ingress.q.shuttingDown && (OnAgenda(states[i], key) ==> OnAgenda(states[i + 1], key))
  {
    assert StepAt(c, states, steps, i);
    ShutdownStays(c, states[i], steps[i]);
    if OnAgenda(states[i], key) {
      AgendaKept(c, states[i], steps[i], key);
    }
  }

  lemma {:induction false} AgendaIsKept(
    c: Config, states: seq<State>, steps: seq<Step>, i: nat, j: nat, key: TargetKey)
    requires IsRun(c, states, steps) && i <= j < |states| && OnAgenda(states[i], key)
    requires Unanswered(states, steps, key, i, j) && !states[j].ingress.q.shuttingDown
    ensures OnAgenda(states[j], key)
    decreases j
  {
    if i < j {
      AgendaAt(c, states, steps, j - 1, key);
      AgendaIsKept(c, states, steps, i, j - 1, key);
    }
  }

  /** After an edit that matters, the key is pending or announced in every state, until a run of that key
      ends without an error, or the queue shuts down, or the broker restarts. */
  lemma NoticeIsKept(c: Config, states: seq<State>, steps: seq<Step>, i: nat, j: nat, key: TargetKey)
    requires IsRun(c, states, steps) && i < j < |states| && EditMatters(states, steps, i, key)
    requires Unanswered(states, steps, key, i + 1, j) && !states[j].ingress.q.shuttingDown
    ensures OnAgenda(states[j], key)
  {
    EditAt(c, states, steps, i, key);
    AgendaIsKept(c, states, steps, i + 1, j, key);
  }

  // ---- Deletions are answered ----

  /** The target Ingress is gone, and so is its copy unless somebody will look at the key; nobody makes a
      new copy without looking again. */
  ghost predicate Answered(s: State, key: TargetKey) {
    && key !in s.target
    && (key in s.making ==> Requeued(s, key))
    && (OnAgenda(s, key) || ControlName(key) !in s.b.control.ingresses)
  }

  /** A run without an error of the key of a missing Ingress leaves no copy. */
  lemma RunRemoves(c: Config, s: State, key: TargetKey, copy: CopyResult, f: Faults)
    requires key !in s.target && key !in s.making && IngressRun(c, s, key, copy, f).err.None?
    ensures ControlName(key) !in IngressRun(c, s, key, copy, f).broker.control.ingresses
  {}

  /** A run for a missing Ingress makes no copy. */
  lemma RunMakesNone(c: Config, s: State, ran: TargetKey, key: TargetKey, copy: CopyResult, f: Faults)
    requires key !in s.target && key !in s.making && ControlName(key) !in s.b.control.ingresses
    ensures ControlName(key) !in IngressRun(c, s, ran, copy, f).broker.control.ingresses
  {
    if ran != key {
      RunKeepsAbsent(c, s, ran, key, copy, f);
    }
  }

  lemma RequeuedIsOnAgenda(s: State, key: TargetKey)
    requires Requeued(s, key)
    ensures OnAgenda(s, key)
  {}

  lemma RequeuedUnlessRun(c: Config, s: State, step: Step, key: TargetKey)
    requires PoolsOk(c, s) && MakingOk(c, s, key) && Enabled(c, s, step) && !step.Restart? && !step.Edit?
    requires key in s.making && Requeued(s, key) && !Next(c, s, step).ingress.q.shuttingDown
    ensures Requeued(Next(c, s, step), key)
  {
    RequeuedKept(c, s, step, key);
  }

  /** The run that could have let the key go. */
  lemma AnsweringRun(c: Config, s: State, step: Step, key: TargetKey)
    requires Enabled(c, s, step) && Answers(s, step, key) && Answered(s, key) && key !in s.making
    ensures ControlName(key) !in Next(c, s, step).b.control.ingresses
  {
    RunRemoves(c, s, key, step.copy, step.f);
  }

  lemma IngressStepMakesNone(c: Config, s: State, step: Step, key: TargetKey)
    requires Enabled(c, s, step) && step.Ingress? && key !in s.target && key !in s.making
    requires ControlName(key) !in s.b.control.ingresses
    ensures ControlName(key) !in Next(c, s, step).b.control.ingresses
  {
    if step.iact.Run? {
      RunMakesNone(c, s, s.ingress.workers[step.iact.w].key, key, step.copy, step.f);
    }
  }

  lemma StepMakesNone(c: Config, s: State, step: Step, key: TargetKey)
    requires Enabled(c, s, step) && key !in s.target && key !in s.making
    requires ControlName(key) !in s.b.control.ingresses
    ensures ControlName(key) !in Next(c, s, step).b.control.ingresses
  {
    if step.Ingress? {
      IngressStepMakesNone(c, s, step, key);
    } else if step.Cleaner? {
      CleanerStepShrinks(c, s, step);
    }
  }

  lemma StillGone(c: Config, s: State, step: Step, key: TargetKey)
    requires Enabled(c, s, step) && key in Next(c, s, step).making && key !in s.target
    ensures key in s.making && !step.Restart?
  {}

  lemma AnsweredKept(c: Config, s: State, step: Step, key: TargetKey)
    requires PoolsOk(c, s) && MakingOk(c, s, key) && Enabled(c, s, step) && !step.Restart?
    requires Answered(s, key) && key !in Next(c, s, step).target && !Next(c, s, step).ingress.q.shuttingDown
    ensures Answered(Next(c, s, step), key)
  {
    var s' := Next(c, s, step);
    if key in s'.making {
      StillGone(c, s, step, key);
    }
    if key in s.making {
      MakingStaysRequeued(c, s, step, key);
      RequeuedIsOnAgenda(s', key);
    } else if Answers(s, step, key) {
      AnsweringRun(c, s, step, key);
    } else if OnAgenda(s, key) {
      AgendaKept(c, s, step, key);
    } else {
      StepMakesNone(c, s, step, key);
    }
  }

  lemma MakingStaysRequeued(c: Config, s: State, step: Step, key: TargetKey)
    requires PoolsOk(c, s) && MakingOk(c, s, key) && Enabled(c, s, step) && !step.Restart?
    requires key in s.making && Requeued(s, key) && !Next(c, s, step).ingress.q.shuttingDown
    ensures Requeued(Next(c, s, step), key)
  {
    if step.Edit? {
      assert Noticed(s, key) ==> Noticed(Next(c, s, step), key);
    } else {
      RequeuedUnlessRun(c, s, step, key);
    }
  }

  lemma DeletionAnswered(c: Config, s: State, key: TargetKey)
    requires key in s.target && Opted(Some(s.target[key]))
    ensures Answered(Next(c, s, Edit(key, None)), key)
  {
    EditIsNoticed(c, s, key, None);
  }

  /** No restart and no new Ingress of that name from step `i` to state `j`. */
  ghost predicate StaysDeleted(states: seq<State>, steps: seq<Step>, key: TargetKey, i: nat, j: nat)
    requires |states| == |steps| + 1 && i <= j <= |steps|
  {
    && (forall m :: i <= m < j ==> !steps[m].Restart?)
    && (forall m :: i < m <= j ==> key !in states[m].target)
  }

  lemma DeletionAt(c: Config, states: seq<State>, steps: seq<Step>, i: nat, key: TargetKey)
    requires IsRun(c, states, steps) && i < |steps|
    requires key in states[i].target && Opted(Some(states[i].target[key])) && steps[i] == Edit(key, None)
    ensures Answered(states[i + 1], key)
  {
    assert StepAt(c, states, steps, i);
    DeletionAnswered(c, states[i], key);
  }

  lemma AnsweredAt(c: Config, states: seq<State>, steps: seq<Step>, i: nat, key: TargetKey)
    requires Unambiguous(c.settings.domains) && IsRun(c, states, steps) && i < |steps| && !steps[i].Restart?
    requires key !in states[i + 1].target && !states[i + 1].ingress.q.shuttingDown
    ensures !states[i].ingress.q.shuttingDown && (Answered(states[i], key) ==> Answered(states[i + 1], key))
  {
    EveryRun(c, states, steps, i);
    assert StepAt(c, states, steps, i);
    ShutdownStays(c, states[i], steps[i]);
    if Answered(states[i], key) {
      assert MakingOk(c, states[i], key);
      AnsweredKept(c, states[i], steps[i], key);
    }
  }

  /** A labelled Ingress is deleted at step `i`. In every later state of every run, whatever fails, its key
      is pending or announced or its copy is gone, until a restart, a shutdown or a new Ingress. */
  lemma {:induction false} DeletionIsAnswered(
    c: Config, states: seq<State>, steps: seq<Step>, i: nat, j: nat, key: TargetKey)
    requires Unambiguous(c.settings.domains) && IsRun(c, states, steps) && i < j < |states|
    requires key in states[i].target && Opted(Some(states[i].target[key])) && steps[i] == Edit(key, None)
    requires StaysDeleted(states, steps, key, i, j) && !states[j].ingress.q.shuttingDown
    ensures Answered(states[j], key)
    decreases j
  {
    if j == i + 1 {
      DeletionAt(c, states, steps, i, key);
    } else {
      AnsweredAt(c, states, steps, j - 1, key);
      DeletionIsAnswered(c, states, steps, i, j - 1, key);
    }
  }

  /** So a deleted Ingress that nobody is going to look at has no copy left. */
  lemma AnsweredIsClean(s: State, key: TargetKey)
    requires Answered(s, key) && !OnAgenda(s, key)
    ensures ControlName(key) !in s.b.control.ingresses && key !in s.making
  {
    if key in s.making {
      RequeuedIsOnAgenda(s, key);
    }
  }

  // ---- Deletions are carried out ----

  lemma CalmKeepsTarget(c: Config, s: State, step: Step)
    requires Enabled(c, s, step) && !step.Edit? && !step.Restart?
    ensures Next(c, s, step).target == s.target
  {}

  lemma CalmAnswersAt(c: Config, states: seq<State>, steps: seq<Step>, i: nat, key: TargetKey)
    requires Unambiguous(c.settings.domains) && CalmRun(c, states, steps) && i < |steps|
    requires Inv(c, states[0]) && WQ.Live(states[0].ingress)
    ensures Answered(states[i], key) ==> Answered(states[i + 1], key)
  {
    CalmRunsKeep(c, states, steps, i);
    CalmRunsKeep(c, states, steps, i + 1);
    assert CalmAt(c, states, steps, i);
    if Answered(states[i], key) {
      assert MakingOk(c, states[i], key);
      CalmKeepsTarget(c, states[i], steps[i]);
      AnsweredKept(c, states[i], steps[i], key);
    }
  }

  lemma {:induction false} CalmRunsAnswer(c: Config, states: seq<State>, steps: seq<Step>, i: nat, key: TargetKey)
    requires Unambiguous(c.settings.domains) && CalmRun(c, states, steps) && i <= |steps|
    requires Inv(c, states[0]) && WQ.Live(states[0].ingress) && Answered(states[0], key)
    ensures Answered(states[i], key)
    decreases i
  {
    if i > 0 {
      CalmRunsAnswer(c, states, steps, i - 1, key);
      CalmAnswersAt(c, states, steps, i - 1, key);
    }
  }

  /** Once edits and failures stop, every schedule that is fair to the ingress controller, and long enough
      for its work, ends without the copy of the deleted Ingress, whatever the cleaner does. */
  lemma DeletionIsCarriedOut(c: Config, states: seq<State>, steps: seq<Step>, k: nat, key: TargetKey)
    requires Unambiguous(c.settings.domains) && CalmRun(c, states, steps)
    requires Inv(c, states[0]) && WQ.Live(states[0].ingress) && Answered(states[0], key)
    requires FairToIngress(states, steps, k) && |steps| >= k * Work(c, states[0])
    ensures ControlName(key) !in states[|steps|].b.control.ingresses
  {
    EveryScheduleDrains(c, states, steps, k);
    CalmRunsAnswer(c, states, steps, |steps|, key);
    AnsweredIsClean(states[|steps|], key);
  }
}
