/** The secret replicator and its queue: when a stored secret that is wanted gets delivered. */
module Delivery {
  import opened Naming
  import opened TLS
  import opened Clusters
  import opened Protocol
  import opened Isolation
  import opened Runs
  import opened Reach
  import WQ = WorkQueue

  // ---- The machine ----

  /** An addition, an update, or the deletion of a control secret that the handler is still to hear
      of; a resync is an update without a change. */
  datatype Notice = Added(name: ManagedName) | Updated(name: ManagedName, changed: bool) | Deleted(name: ManagedName)

  /** `OnAdd`, `OnUpdate` and the ignored `OnDelete`. */
  predicate Enqueues(n: Notice) {
    n.Added? || (n.Updated? && n.changed)
  }

  datatype State = State(
    target: map<TargetKey, TargetIngress>,
    stored: map<ManagedName, SecretData>,
    delivered: map<Key, SecretData>,
    pool: WQ.Pool<ManagedName>,
    notices: seq<Notice>)

  /** Cert-Manager stores under names that the broker made; a clean-up deletes. */
  datatype Step =
    | Edit(key: TargetKey, edited: Option<TargetIngress>)
    | Store(name: ManagedName, data: SecretData)
    | Delete(name: ManagedName)
    | Resync(name: ManagedName)
    | Notify
    | Act(act: WQ.Act<ManagedName>, f: Faults)
    | Restart(listed: seq<Notice>)

  ghost predicate Lists(s: State, listed: seq<Notice>) {
    && (forall n :: n in listed ==> n.Added? && n.name in s.stored)
    && (forall name :: name in s.stored ==> Added(name) in listed)
  }

  function Sync(s: State, name: ManagedName, f: Faults): (map<Key, SecretData>, Option<Error>) {
    SyncSecret(s.target, s.stored, s.delivered, name, f)
  }

  ghost predicate Enabled(n: nat, s: State, step: Step) {
    match step
    case Edit(_, _) => true
    case Store(name, _) => BrokerMade(name)
    case Delete(name) => name in s.stored
    case Resync(name) => name in s.stored
    case Notify => s.notices != []
    case Act(a, f) =>
      && !a.AddNow? && !a.AddDelayed? && WQ.Enabled(n, s.pool, a)
      && (a.Run? ==> a.outcome == WQ.OutcomeOf(Sync(s, s.pool.workers[a.w].key, f).1.Some?, false))
    case Restart(listed) => Lists(s, listed)
  }

  ghost function Next(n: nat, s: State, step: Step): State
    requires Enabled(n, s, step)
  {
    match step
    case Edit(key, edited) =>
      s.(target := if edited.Some? then s.target[key := edited.value] else s.target - {key})
    case Store(name, data) =>
      s.(stored := s.stored[name := data],
         notices := s.notices + [if name in s.stored then Updated(name, true) else Added(name)])
    case Delete(name) => s.(stored := s.stored - {name}, notices := s.notices + [Deleted(name)])
    case Resync(name) => s.(notices := s.notices + [Updated(name, false)])
    case Notify =>
      var note := s.notices[0];
      s.(notices := s.notices[1..],
         pool := if Enqueues(note) then s.pool.(q := s.pool.q.AddLater(note.name)) else s.pool)
    case Act(a, f) =>
      var s' := s.(pool := WQ.Next(n, s.pool, a));
      if a.Run? then s'.(delivered := Sync(s, s.pool.workers[a.w].key, f).0) else s'
    case Restart(listed) => s.(pool := WQ.Fresh(), notices := listed)
  }

  // ---- What is wanted, pending and delivered ----

  /** A labelled Ingress of the namespace lists the secret. */
  ghost predicate Wanted(s: State, k: Key) {
    exists key ::
      key in s.target && key.ns == k.ns && Labelled(s.target[key]) && k.name in SecretNames(s.target[key].tls)
  }

  ghost predicate Awaited(s: State, name: ManagedName) {
    WQ.Pending(s.pool, name) || exists n :: n in s.notices && n.name == name && Enqueues(n)
  }

  predicate Delivered(s: State, name: ManagedName) {
    name in s.stored && TargetOf(name) in s.delivered && s.delivered[TargetOf(name)] == s.stored[name]
  }

  ghost predicate ServedAt(s: State, name: ManagedName) {
    name in s.stored && Wanted(s, TargetOf(name)) ==> Awaited(s, name) || Delivered(s, name)
  }

  /** Every stored secret that is wanted is awaited or delivered. */
  ghost predicate Served(s: State) {
    !s.pool.q.shuttingDown ==> forall name :: ServedAt(s, name)
  }

  ghost predicate Inv(n: nat, s: State) {
    WQ.PoolOk(n, s.pool) && forall name :: name in s.stored ==> BrokerMade(name)
  }

  /** An Ingress asks for a secret that is stored, but that its controller has passed over and forgotten. */
  ghost predicate AsksLate(s: State, step: Step) {
    && step.Edit? && !s.pool.q.shuttingDown
    && exists name: ManagedName ::
      && name in s.stored && !Awaited(s, name) && !Delivered(s, name)
      && Wanted(Edited(s, step), TargetOf(name))
  }

  function Edited(s: State, step: Step): State
    requires step.Edit?
  {
    s.(target := if step.edited.Some? then s.target[step.key := step.edited.value] else s.target - {step.key})
  }

  /** What happens to a control secret is announced, and queues it exactly if data was stored. */
  lemma QueuedIfStored(n: nat, s: State, step: Step)
    requires Enabled(n, s, step) && (step.Store? || step.Delete? || step.Resync?)
    ensures var s' := Next(n, s, step); var last := s'.notices[|s.notices|];
      s'.notices == s.notices + [last] && last.name == step.name && (Enqueues(last) <==> step.Store?)
  {}

  // ---- Exactly such an edit leaves a wanted secret behind ----

  lemma InvKept(n: nat, s: State, step: Step)
    requires Inv(n, s) && Enabled(n, s, step)
    ensures Inv(n, Next(n, s, step))
  {
    match step
    case Act(a, _) => WQ.PoolKept(n, s.pool, a);
    case Notify => WQ.PoolKept(n, s.pool, WQ.AddDelayed(s.notices[0].name));
    case _ =>
  }

  /** A run that forgets a stored and wanted name has delivered it. */
  lemma RunDelivers(s: State, name: ManagedName, f: Faults)
    requires name in s.stored && Wanted(s, TargetOf(name)) && Sync(s, name, f).1.None?
    ensures TargetOf(name) in Sync(s, name, f).0 && Sync(s, name, f).0[TargetOf(name)] == s.stored[name]
  {
    SecretsServed(s.target, s.stored, s.delivered, name, f);
  }

  /** A run for another name of the broker's writes another target secret. */
  lemma RunSpares(s: State, ran: ManagedName, f: Faults, name: ManagedName)
    requires ran != name && BrokerMade(name) && (ran in s.stored ==> BrokerMade(ran))
    ensures var after, k := Sync(s, ran, f).0, TargetOf(name);
      (k in after <==> k in s.delivered) && (k in after && k in s.delivered ==> after[k] == s.delivered[k])
  {
    if ran in s.stored && TargetOf(ran) == TargetOf(name) {
      SecretsApart(ran, name);
    }
    SecretsServed(s.target, s.stored, s.delivered, ran, f);
  }

  lemma ActServes(n: nat, s: State, step: Step, name: ManagedName)
    requires Inv(n, s) && step.Act? && Enabled(n, s, step) && !Next(n, s, step).pool.q.shuttingDown
    requires ServedAt(s, name)
    ensures ServedAt(Next(n, s, step), name)
  {
    var a, s' := step.act, Next(n, s, step);
    if name in s.stored && Wanted(s', TargetOf(name)) {
      assert Wanted(s, TargetOf(name));
      if WQ.Pending(s.pool, name) {
        if a.Run? && s.pool.workers[a.w] == WQ.Got(name) && a.outcome == WQ.Forget {
          RunDelivers(s, name, step.f);
        } else {
          WQ.PendingKept(n, s.pool, a, name);
        }
      } else if Delivered(s, name) && a.Run? {
        assert s.pool.workers[a.w].key != name by {
          assert WQ.Carries(s.pool.workers[a.w], s.pool.workers[a.w].key);
        }
        RunSpares(s, s.pool.workers[a.w].key, step.f, name);
      }
    }
  }

  lemma NotifyServes(n: nat, s: State, name: ManagedName)
    requires s.notices != [] && !s.pool.q.shuttingDown && ServedAt(s, name)
    ensures ServedAt(Next(n, s, Step.Notify), name)
  {
    var s' := Next(n, s, Step.Notify);
    if name in s.stored && Wanted(s', TargetOf(name)) {
      assert Wanted(s, TargetOf(name));
      if note :| note in s.notices && note.name == name && Enqueues(note) {
        assert note == s.notices[0] || note in s'.notices;
      } else if WQ.Pending(s.pool, name) {
        assert s'.pool.workers == s.pool.workers;
      }
    }
  }

  /** A change of the stored secrets is announced. */
  lemma StoreServes(n: nat, s: State, step: Step, name: ManagedName)
    requires (step.Store? || step.Delete? || step.Resync?) && Enabled(n, s, step) && ServedAt(s, name)
    ensures ServedAt(Next(n, s, step), name)
  {
    var s' := Next(n, s, step);
    var last := s'.notices[|s.notices|];
    assert s'.notices == s.notices + [last] && last in s'.notices;
    assert Wanted(s', TargetOf(name)) ==> Wanted(s, TargetOf(name));
    if Awaited(s, name) && !WQ.Pending(s.pool, name) {
      var note :| note in s.notices && note.name == name && Enqueues(note);
      assert note in s'.notices;
    }
  }

  lemma EditServes(n: nat, s: State, step: Step, name: ManagedName)
    requires step.Edit? && Enabled(n, s, step) && !s.pool.q.shuttingDown && !AsksLate(s, step)
    ensures ServedAt(Next(n, s, step), name)
  {
    var s' := Next(n, s, step);
    assert s' == Edited(s, step);
    assert Awaited(s, name) ==> Awaited(s', name);
  }

  lemma RestartServes(n: nat, s: State, listed: seq<Notice>, name: ManagedName)
    requires Lists(s, listed)
    ensures ServedAt(Next(n, s, Step.Restart(listed)), name)
  {
    assert name in s.stored ==> Added(name) in listed && Enqueues(Added(name));
  }

  lemma ServedKept(n: nat, s: State, step: Step)
    requires Inv(n, s) && Served(s) && Enabled(n, s, step) && !AsksLate(s, step)
    ensures Served(Next(n, s, step))
  {
    var s' := Next(n, s, step);
    if !s'.pool.q.shuttingDown {
      forall name ensures ServedAt(s', name) {
        match step
        case Act(a, _) =>
          WQ.ShutdownIsFinal(n, s.pool, a);
          ActServes(n, s, step, name);
        case Notify => NotifyServes(n, s, name);
        case Edit(_, _) => EditServes(n, s, step, name);
        case Restart(listed) => RestartServes(n, s, listed, name);
        case _ => StoreServes(n, s, step, name);
      }
    }
  }

  lemma LateIsNotServed(n: nat, s: State, step: Step)
    requires AsksLate(s, step) && Enabled(n, s, step)
    ensures !Served(Next(n, s, step))
  {
    var s' := Next(n, s, step);
    var name: ManagedName :| name in s.stored && !Awaited(s, name) && !Delivered(s, name)
      && Wanted(Edited(s, step), TargetOf(name));
    assert s' == Edited(s, step);
    assert !Awaited(s', name) by {
      assert s'.notices == s.notices && s'.pool == s.pool;
    }
    assert !ServedAt(s', name);
  }

  // ---- Every run ----

  ghost predicate Initial(s: State) {
    s.pool == WQ.Fresh() && Lists(s, s.notices) && forall name :: name in s.stored ==> BrokerMade(name)
  }

  ghost predicate StepAt(n: nat, states: seq<State>, steps: seq<Step>, i: nat)
    requires |states| == |steps| + 1 && i < |steps|
  {
    Enabled(n, states[i], steps[i]) && states[i + 1] == Next(n, states[i], steps[i])
  }

  ghost predicate IsRun(n: nat, states: seq<State>, steps: seq<Step>) {
    && |states| == |steps| + 1 && Initial(states[0])
    && forall i: nat :: i < |steps| ==> StepAt(n, states, steps, i)
  }

  lemma EveryRun(n: nat, states: seq<State>, steps: seq<Step>, i: nat)
    requires IsRun(n, states, steps) && i < |states|
    ensures Inv(n, states[i])
  {
    var inv := (s: State) => Inv(n, s);
    forall j: nat | j + 1 < |states| ensures Carried(inv, states, j) {
      assert StepAt(n, states, steps, j);
      if inv(states[j]) {
        InvKept(n, states[j], steps[j]);
      }
    }
    Invariantly(inv, states, i);
  }

  ghost function GoodAt(states: seq<State>): seq<bool> {
    seq(|states|, i requires 0 <= i < |states| => Served(states[i]))
  }

  ghost function LateAt(states: seq<State>, steps: seq<Step>): seq<bool>
    requires |states| == |steps| + 1
  {
    seq(|steps|, i requires 0 <= i < |steps| => AsksLate(states[i], steps[i]))
  }

  lemma ServesAt(n: nat, states: seq<State>, steps: seq<Step>, j: nat)
    requires IsRun(n, states, steps) && j < |steps|
    ensures SwitchAt(GoodAt(states), LateAt(states, steps), j)
  {
    EveryRun(n, states, steps, j);
    assert StepAt(n, states, steps, j);
    if Served(states[j]) {
      if AsksLate(states[j], steps[j]) {
        LateIsNotServed(n, states[j], steps[j]);
      } else {
        ServedKept(n, states[j], steps[j]);
      }
    }
  }

  /** In every run: every stored secret that is wanted is awaited or delivered in all states so far,
      exactly if no Ingress has asked late so far. */
  lemma ServedIff(n: nat, states: seq<State>, steps: seq<Step>, i: nat)
    requires IsRun(n, states, steps) && i < |states|
    ensures (forall j: nat :: j <= i ==> Served(states[j]))
       <==> (forall j: nat :: j < i ==> !AsksLate(states[j], steps[j]))
  {
    var good, bad := GoodAt(states), LateAt(states, steps);
    forall name ensures ServedAt(states[0], name) {
      assert name in states[0].stored ==> Added(name) in states[0].notices && Enqueues(Added(name));
    }
    forall j: nat | j < |bad| ensures SwitchAt(good, bad, j) {
      ServesAt(n, states, steps, j);
    }
    GoodUntilBad(good, bad, i);
    assert forall j: nat :: j <= i ==> good[j] == Served(states[j]);
    assert forall j: nat :: j < i ==> bad[j] == AsksLate(states[j], steps[j]);
  }

  /** A restart makes good whatever was left behind. */
  lemma RestartRepairs(n: nat, s: State, listed: seq<Notice>)
    requires Lists(s, listed)
    ensures Served(Next(n, s, Step.Restart(listed)))
  {
    forall name ensures ServedAt(Next(n, s, Step.Restart(listed)), name) {
      RestartServes(n, s, listed, name);
    }
  }

  // ---- It happens ----

  ghost predicate Reached(n: nat, s: State) {
    exists states, steps :: IsRun(n, states, steps) && states[|steps|] == s
  }

  lemma ExtendRun(n: nat, states: seq<State>, steps: seq<Step>, step: Step, s': State, i: nat)
    requires IsRun(n, states, steps) && i <= |steps|
    requires Enabled(n, states[|steps|], step) && s' == Next(n, states[|steps|], step)
    ensures StepAt(n, states + [s'], steps + [step], i)
  {
    if i < |steps| {
      assert StepAt(n, states, steps, i);
    }
  }

  lemma ReachStep(n: nat, s: State, step: Step) returns (s': State)
    requires Reached(n, s) && Enabled(n, s, step)
    ensures Reached(n, s') && s' == Next(n, s, step)
  {
    s' := Next(n, s, step);
    var states, steps :| IsRun(n, states, steps) && states[|steps|] == s;
    var states', steps' := states + [s'], steps + [step];
    forall i: nat | i < |steps'| ensures StepAt(n, states', steps', i) {
      ExtendRun(n, states, steps, step, s', i);
    }
    assert IsRun(n, states', steps') && states'[|steps'|] == s';
  }

  lemma PoolStep(n: nat, s: State, a: WQ.Act<ManagedName>) returns (s': State)
    requires Reached(n, s) && WQ.Enabled(n, s.pool, a) && !a.AddNow? && !a.AddDelayed? && !a.Run?
    ensures Reached(n, s') && s' == s.(pool := WQ.Next(n, s.pool, a))
  {
    s' := ReachStep(n, s, Act(a, UNDISTURBED));
  }

  /** A replicator starts and gets the name of its one stored secret. */
  lemma GetsName(n: nat, s: State, name: ManagedName) returns (s': State)
    requires n > 0 && Reached(n, s) && s.pool == WQ.Fresh() && s.notices == [Added(name)]
    ensures Reached(n, s') && s' == s.(notices := [], pool := OneInHand(name))
  {
    s' := PoolStep(n, s, WQ.CachesSynced);
    s' := PoolStep(n, s', WQ.Spawn);
    s' := PoolStep(n, s', WQ.Enter(0));
    PoolStarts<ManagedName>(n);
    s' := ReachStep(n, s', Step.Notify);
    PoolReadies(n, name);
    s' := PoolStep(n, s', WQ.Ready(name));
    PoolTakes(n, name);
    s' := PoolStep(n, s', WQ.Get(0));
  }

  /** A replicator starts with one stored secret and no Ingress. */
  function Start(name: ManagedName, data: SecretData): State {
    State.State(map[], map[name := data], map[], WQ.Fresh(), [Added(name)])
  }

  lemma StartIsReached(n: nat, name: ManagedName, data: SecretData)
    requires BrokerMade(name)
    ensures Reached(n, Start(name, data))
  {
    StartIsInitial(name, data);
    NoSteps(n, Start(name, data));
  }

  lemma StartIsInitial(name: ManagedName, data: SecretData)
    requires BrokerMade(name)
    ensures Initial(Start(name, data))
  {
    assert Start(name, data).notices[0] == Added(name);
  }

  lemma NoSteps(n: nat, s: State)
    requires Initial(s)
    ensures Reached(n, s)
  {
    var none: seq<Step> := [];
    assert IsRun(n, [s], none) && [s][|none|] == s;
  }

  /** Nobody wants the secret: its name is forgotten. */
  lemma PassesOver(n: nat, s: State, name: ManagedName) returns (s': State)
    requires Reached(n, s) && s.pool == OneInHand(name) && s.target == map[] && s.notices == []
    ensures Reached(n, s') && s' == s.(pool := s'.pool)
    ensures !s'.pool.q.shuttingDown && !Awaited(s', name)
  {
    UnwantedSync(s, name, UNDISTURBED);
    var run := Act(WQ.Run(0, WQ.Forget), UNDISTURBED);
    assert Enabled(n, s, run);
    s' := ReachStep(n, s, run);
    RunForgets(n, s.pool, name);
    assert s' == s.(pool := WQ.Next(n, s.pool, WQ.Run(0, WQ.Forget)));
  }

  lemma RunForgets(n: nat, p: WQ.Pool<ManagedName>, name: ManagedName)
    requires p == OneInHand(name)
    ensures WQ.Enabled(n, p, WQ.Run(0, WQ.Forget))
    ensures var p' := WQ.Next(n, p, WQ.Run(0, WQ.Forget)); !p'.q.shuttingDown && !WQ.Pending(p', name)
  {
    assert WQ.Next(n, p, WQ.Run(0, WQ.Forget)).workers == [WQ.Ran(name, WQ.Forget)];
  }

  lemma UnwantedSync(s: State, name: ManagedName, f: Faults)
    requires s.target == map[]
    ensures Sync(s, name, f) == (s.delivered, None)
  {
    assert !HasIngress(s.target, TargetOf(name).ns, TargetOf(name).name);
  }

  /** A stored secret that nobody wants is passed over; the Ingress that then asks for it asks late. */
  lemma LateAskHappens(n: nat, key: TargetKey, data: SecretData) returns (s: State, step: Step)
    requires n > 0
    ensures Reached(n, s) && Enabled(n, s, step) && AsksLate(s, step)
  {
    NameOfKey(key);
    var name: ManagedName := ControlName(key);
    StartIsReached(n, name, data);
    s := GetsName(n, Start(name, data), name);
    s := PassesOver(n, s, name);
    step := Step.Edit(key, Some(Asking(key.name)));
    AskingAsks(s, key, step);
  }

  function Asking(secret: string): TargetIngress {
    LabelledIngress([IngressTLS([], secret)])
  }

  lemma AskingAsks(s: State, key: TargetKey, step: Step)
    requires step == Step.Edit(key, Some(Asking(key.name)))
    ensures Wanted(Edited(s, step), key)
  {
    var asking := Asking(key.name);
    assert asking.tls[0] in asking.tls && key.name in SecretNames(asking.tls);
    assert Edited(s, step).target[key] == asking;
  }
}
