/** Replication of certificate events: the count annotation makes it survive restarts. */
module Events {
  import opened Naming
  import opened Decimal
  import opened Clusters
  import opened Runs
  import WQ = WorkQueue

  const CERT_MANAGER_GROUP := "certmanager.k8s.io"
  const CERTIFICATE_KIND := "Certificate"
  const INGRESS_API := "extensions/v1beta1"
  const INGRESS_KIND := "Ingress"
  const GARDEN_COUNT := "garden.sapcloud.io/count"

  datatype OwnerRef = OwnerRef(apiVersion: string, kind: string, name: string)
  datatype Involved = Involved(apiVersion: string, kind: string, cert: Key)

  /** `annotations` is None for Go's nil map. */
  datatype Event = Event(involved: Involved, count: Int32, annotations: Option<map<string, string>>)

  /** The certificates' owners and the Ingresses of the target cluster. */
  datatype World = World(owners: map<Key, seq<OwnerRef>>, ingresses: set<Key>)

  predicate CertificateIsInvolved(e: Event) {
    e.involved.apiVersion == CERT_MANAGER_GROUP && e.involved.kind == CERTIFICATE_KIND
  }

  predicate IsIngress(owner: OwnerRef) {
    owner.apiVersion == INGRESS_API && owner.kind == INGRESS_KIND
  }

  // ---- The count annotation ----

  /** Reading the nil map, or an absent key, gives the empty string, which is no number. */
  function CountAnnotation(e: Event): Option<Int32> {
    if e.annotations.Some? && GARDEN_COUNT in e.annotations.value
    then ParseInt32(e.annotations.value[GARDEN_COUNT])
    else None
  }

  function Annotate(e: Event): Event {
    var annotations := if e.annotations.None? then map[] else e.annotations.value;
    e.(annotations := Some(annotations[GARDEN_COUNT := Itoa(e.count)]))
  }

  /** `OnAdd`. */
  predicate AddQueues(e: Event) {
    || e.annotations.None?
    || (CountAnnotation(e).Some? && e.count > CountAnnotation(e).value)
  }

  /** The annotation written for an event reads back as its count, and is all that is written. */
  lemma AnnotateRoundTrip(e: Event)
    ensures CountAnnotation(Annotate(e)) == Some(e.count) && !AddQueues(Annotate(e))
    ensures Annotate(e).(annotations := e.annotations) == e && Annotate(e).annotations.Some?
    ensures var annotations := if e.annotations.None? then map[] else e.annotations.value;
      Annotate(e).annotations.value == annotations["garden.sapcloud.io/count" := Itoa(e.count)]
  {
    PrintParse(e.count);
  }

  /** A relist passes over an event that is not annotated with its count in exactly one family of
      cases: it has annotations, but no readable count among them or one that is too high. */
  lemma RelistMissesIff(e: Event)
    ensures CountAnnotation(e) != Some(e.count) && !AddQueues(e)
       <==> e.annotations.Some? && (CountAnnotation(e).None? || CountAnnotation(e).value > e.count)
  {
    if e.annotations.None? {
      assert CountAnnotation(e) == None;
    }
  }

  // ---- Sync ----

  /** The event as it is left, the target Ingresses told, and whether an error is returned. */
  datatype ReplicationResult = ReplicationResult(event: Event, told: seq<Key>, failed: bool)

  function Prepend(told: seq<Key>, r: ReplicationResult): ReplicationResult {
    r.(told := told + r.told)
  }

  /** Walks the owners of the certificate; stops at an Ingress that is gone. */
  function SyncOwners(
    event: Event, stored: Event, owners: seq<OwnerRef>, ingresses: set<Key>, f: Faults): ReplicationResult
    decreases |owners|
  {
    if owners == [] then ReplicationResult(stored, [], false)
    else if !IsIngress(owners[0]) then SyncOwners(event, stored, owners[1..], ingresses, f)
    else
      var key := TargetOf(owners[0].name);
      if key !in ingresses then ReplicationResult(stored, [], false)
      else if f.budget == 0 then ReplicationResult(if f.lands then Annotate(event) else stored, [key], true)
      else
        Prepend([key], SyncOwners(event, Annotate(event), owners[1..], ingresses, f.(budget := f.budget - 1)))
  }

  function SyncEvent(event: Event, world: World, f: Faults): ReplicationResult {
    if event.involved.cert !in world.owners then ReplicationResult(event, [], true)
    else SyncOwners(event, event, world.owners[event.involved.cert], world.ingresses, f)
  }

  lemma PrependTwice(told: seq<Key>, key: Key, r: ReplicationResult)
    ensures Prepend(told, Prepend([key], r)) == Prepend(told + [key], r)
  {
    assert told + ([key] + r.told) == (told + [key]) + r.told;
  }

  lemma WalkOne(event: Event, stored: Event, owners: seq<OwnerRef>, i: nat, ingresses: set<Key>, f: Faults)
    requires i < |owners|
    ensures var r, key := SyncOwners(event, stored, owners[i..], ingresses, f), TargetOf(owners[i].name);
      if !IsIngress(owners[i]) then r == SyncOwners(event, stored, owners[i + 1..], ingresses, f)
      else if key !in ingresses then r == ReplicationResult(stored, [], false)
      else if f.budget == 0 then r == ReplicationResult(if f.lands then Annotate(event) else stored, [key], true)
      else
        r == Prepend([key], SyncOwners(event, Annotate(event), owners[i + 1..], ingresses, f.(budget := f.budget - 1)))
  {
    assert owners[i..][0] == owners[i] && owners[i..][1..] == owners[i + 1..];
  }

  /** The target Ingresses that a walk tells if nothing fails: those of the Ingress owners in front of
      the first one that is missing. */
  function Due(owners: seq<OwnerRef>, ingresses: set<Key>): seq<Key> {
    if owners == [] then []
    else if !IsIngress(owners[0]) then Due(owners[1..], ingresses)
    else if TargetOf(owners[0].name) !in ingresses then []
    else [TargetOf(owners[0].name)] + Due(owners[1..], ingresses)
  }

  /** An owner of the kind Ingress in the API group that is replicated. */
  predicate OwnedByIngress(owner: OwnerRef) {
    owner.apiVersion == "extensions/v1beta1" && owner.kind == "Ingress"
  }

  predicate IsDue(owners: seq<OwnerRef>, ingresses: set<Key>, i: nat, key: Key) {
    i < |owners| && OwnedByIngress(owners[i]) && TargetOf(owners[i].name) == key && key in ingresses
  }

  /** From position `i` on, `due` are the targets of the Ingress owners in front of `stop`, which is the
      end of the list or the first Ingress owner whose Ingress is missing; `at` lists their positions. */
  ghost predicate DueAt(owners: seq<OwnerRef>, ingresses: set<Key>, due: seq<Key>, i: nat, at: seq<nat>, stop: nat) {
    && i <= stop <= |owners| && |at| == |due|
    && (stop < |owners| ==> OwnedByIngress(owners[stop]) && TargetOf(owners[stop].name) !in ingresses)
    && (forall k :: 0 <= k < |at| ==> i <= at[k] < stop && IsDue(owners, ingresses, at[k], due[k]))
    && (forall k :: 0 < k < |at| ==> at[k - 1] < at[k])
    && (forall j :: i <= j < stop && OwnedByIngress(owners[j]) ==> j in at)
  }

  lemma DueOne(owners: seq<OwnerRef>, ingresses: set<Key>, i: nat)
    requires i < |owners|
    ensures Due(owners[i..], ingresses) ==
      if !OwnedByIngress(owners[i]) then Due(owners[i + 1..], ingresses)
      else if TargetOf(owners[i].name) !in ingresses then []
      else [TargetOf(owners[i].name)] + Due(owners[i + 1..], ingresses)
  {
    assert owners[i..][0] == owners[i] && owners[i..][1..] == owners[i + 1..];
  }

  lemma DueOneMore(
    owners: seq<OwnerRef>, ingresses: set<Key>, due: seq<Key>, i: nat, at: seq<nat>, stop: nat, key: Key)
    requires DueAt(owners, ingresses, due, i + 1, at, stop) && IsDue(owners, ingresses, i, key)
    ensures DueAt(owners, ingresses, [key] + due, i, [i] + at, stop)
  {
    var due', at' := [key] + due, [i] + at;
    forall k | 0 <= k < |at'| ensures i <= at'[k] < stop && IsDue(owners, ingresses, at'[k], due'[k]) {
      assert k > 0 ==> at'[k] == at[k - 1] && due'[k] == due[k - 1];
    }
    forall j | i <= j < stop && OwnedByIngress(owners[j]) ensures j in at' {
      assert at'[0] == i && (j == i || j in at);
    }
  }

  /** A walk tells exactly the existing Ingresses among the owners, in order, as far as to the first
      Ingress owner that is missing. */
  lemma {:induction false} DueIsExact(owners: seq<OwnerRef>, ingresses: set<Key>, i: nat)
    returns (at: seq<nat>, stop: nat)
    requires i <= |owners|
    ensures DueAt(owners, ingresses, Due(owners[i..], ingresses), i, at, stop)
    decreases |owners| - i
  {
    if i == |owners| {
      return [], i;
    }
    DueOne(owners, ingresses, i);
    if OwnedByIngress(owners[i]) && TargetOf(owners[i].name) !in ingresses {
      return [], i;
    }
    at, stop := DueIsExact(owners, ingresses, i + 1);
    if OwnedByIngress(owners[i]) {
      DueOneMore(owners, ingresses, Due(owners[i + 1..], ingresses), i, at, stop, TargetOf(owners[i].name));
      at := [i] + at;
    }
  }

  function Least(a: nat, b: nat): nat {
    if a < b then a else b
  }

  /** What a walk does, whatever fails: it tells the first ones that are due, one more than it could
      update; it fails exactly if it could not update for all of them; and the event is annotated
      exactly if some update was carried out. */
  lemma {:induction false} WalkIsExact(
    event: Event, stored: Event, owners: seq<OwnerRef>, ingresses: set<Key>, f: Faults)
    ensures var r, due := SyncOwners(event, stored, owners, ingresses, f), Due(owners, ingresses);
      && (r.failed <==> f.budget < |due|)
      && r.told == due[..Least(|due|, f.budget + 1)]
      && r.event == if Landed(f, |due|) > 0 then Annotate(event) else stored
    decreases |owners|
  {
    if owners != [] {
      if !IsIngress(owners[0]) {
        WalkIsExact(event, stored, owners[1..], ingresses, f);
      } else if TargetOf(owners[0].name) in ingresses && f.budget > 0 {
        WalkIsExact(event, Annotate(event), owners[1..], ingresses, f.(budget := f.budget - 1));
      }
    }
  }

  /** A sync of a stored event ends with an error exactly if its certificate is unknown, or the API
      failure comes before the event was updated for every Ingress that was due. */
  lemma SyncFailsIff(e: Event, world: World, f: Faults)
    ensures SyncEvent(e, world, f).failed
       <==> e.involved.cert !in world.owners || f.budget < |Due(world.owners[e.involved.cert], world.ingresses)|
    ensures e.involved.cert !in world.owners ==> SyncEvent(e, world, f) == ReplicationResult(e, [], true)
  {
    if e.involved.cert in world.owners {
      WalkIsExact(e, e, world.owners[e.involved.cert], world.ingresses, f);
    }
  }

  /** However it ends, a sync leaves the event as it was or annotated with its count; and it was
      told to somebody before it was annotated. */
  lemma {:induction false} OwnersLeave(
    event: Event, stored: Event, owners: seq<OwnerRef>, ingresses: set<Key>, f: Faults)
    ensures var r := SyncOwners(event, stored, owners, ingresses, f);
      && (r.event == stored || (r.event == Annotate(event) && r.told != []))
      && forall k :: k in r.told ==> k in ingresses
    decreases |owners|
  {
    if owners != [] {
      OwnersLeave(event, stored, owners[1..], ingresses, f);
      if f.budget > 0 {
        OwnersLeave(event, Annotate(event), owners[1..], ingresses, f.(budget := f.budget - 1));
      }
    }
  }

  // ---- The protocol ----

  datatype Notice = Notice(name: string, before: Option<Event>, after: Option<Event>)

  /** The filter in front of `OnAdd` and `OnUpdate`; deletions are ignored. */
  predicate Enqueues(n: Notice) {
    match (n.before, n.after)
    case (None, Some(e)) => CertificateIsInvolved(e) && AddQueues(e)
    case (Some(old'), Some(new')) =>
      CertificateIsInvolved(new') && (if CertificateIsInvolved(old') then old'.count != new'.count else AddQueues(new'))
    case _ => false
  }

  predicate AboutCertificate(e: Event) {
    e.involved.apiVersion == "certmanager.k8s.io" && e.involved.kind == "Certificate"
  }

  /** The handlers see additions of certificate events that are not annotated with their count, as far
      as they can read it, and updates of certificate events whose count has changed. */
  lemma EnqueuesIff(name: string, before: Event, after: Event)
    ensures Enqueues(Notice(name, None, Some(after))) <==> AboutCertificate(after) && AddQueues(after)
    ensures AboutCertificate(before) ==>
      (Enqueues(Notice(name, Some(before), Some(after))) <==> AboutCertificate(after) && before.count != after.count)
    ensures !AboutCertificate(before) ==>
      (Enqueues(Notice(name, Some(before), Some(after))) <==> AboutCertificate(after) && AddQueues(after))
    ensures !Enqueues(Notice(name, Some(before), None))
  {}

  /** `world` is what the certificates and target Ingresses are at the moment; `sent` logs which events
      were told to the target cluster, with which count. */
  datatype State = State(
    world: World, events: map<string, Event>, pool: WQ.Pool<string>, notices: seq<Notice>, sent: set<(string, Int32)>)

  datatype Step =
    | Appear(name: string, event: Event)
    | Recur(name: string, count: Int32)
    | Vanish(name: string)
    | Change(world: World)
    | Notify
    | Act(act: WQ.Act<string>, f: Faults)
    | Restart(listed: seq<Notice>)

  ghost predicate Lists(s: State, listed: seq<Notice>) {
    && (forall n :: n in listed ==> n.before.None? && n.name in s.events && n.after == Some(s.events[n.name]))
    && (forall name :: name in s.events ==> exists n :: n in listed && n.name == name)
  }

  /** A lookup that finds no event is an error. */
  function RunFails(s: State, name: string, f: Faults): bool {
    name !in s.events || SyncEvent(s.events[name], s.world, f).failed
  }

  ghost predicate Enabled(n: nat, s: State, step: Step) {
    match step
    case Appear(name, e) => name !in s.events && (CertificateIsInvolved(e) ==> e.annotations.None?)
    case Recur(name, count) =>
      name in s.events && (CertificateIsInvolved(s.events[name]) ==> count > s.events[name].count)
    case Vanish(name) => name in s.events
    case Change(_) => true
    case Notify => s.notices != []
    case Act(a, f) =>
      && !a.AddNow? && !a.AddDelayed? && WQ.Enabled(n, s.pool, a)
      && (a.Run? ==> a.outcome == if RunFails(s, s.pool.workers[a.w].key, f) then WQ.Fail else WQ.Forget)
    case Restart(listed) => Lists(s, listed)
  }

  ghost function Next(n: nat, s: State, step: Step): State
    requires Enabled(n, s, step)
  {
    match step
    case Appear(name, e) =>
      s.(events := s.events[name := e], notices := s.notices + [Notice(name, None, Some(e))])
    case Recur(name, count) =>
      var e := s.events[name].(count := count);
      s.(events := s.events[name := e], notices := s.notices + [Notice(name, Some(s.events[name]), Some(e))])
    case Vanish(name) =>
      s.(events := s.events - {name}, notices := s.notices + [Notice(name, Some(s.events[name]), None)])
    case Change(world) => s.(world := world)
    case Notify =>
      var note := s.notices[0];
      s.(notices := s.notices[1..],
         pool := if Enqueues(note) then s.pool.(q := s.pool.q.AddLater(note.name)) else s.pool)
    case Act(a, f) =>
      var s' := s.(pool := WQ.Next(n, s.pool, a));
      if a.Run? then AfterRun(s', s.pool.workers[a.w].key, f) else s'
    case Restart(listed) => s.(pool := WQ.Fresh(), notices := listed)
  }

  function AfterRun(s: State, name: string, f: Faults): State {
    if name !in s.events then s else
      var e := s.events[name];
      var r := SyncEvent(e, s.world, f);
      s.(events := s.events[name := r.event],
         notices := if r.event == e then s.notices else s.notices + [Notice(name, Some(e), Some(r.event))],
         sent := if r.told == [] then s.sent else s.sent + {(name, e.count)})
  }

  // ---- The annotated counts ----

  /** The annotated count never exceeds the count, and was sent. */
  ghost predicate CountOk(s: State, name: string) {
    name in s.events && CertificateIsInvolved(s.events[name]) && s.events[name].annotations.Some? ==>
      var e := s.events[name];
      && CountAnnotation(e).Some?
      && CountAnnotation(e).value <= e.count
      && (name, CountAnnotation(e).value) in s.sent
  }

  ghost predicate Inv(n: nat, s: State) {
    WQ.PoolOk(n, s.pool) && forall name :: CountOk(s, name)
  }

  /** The event carries its count. */
  predicate Recorded(e: Event) {
    CountAnnotation(e) == Some(e.count)
  }

  /** A relist puts into the queue exactly the certificate events that do not carry their count. */
  lemma RelistIsExact(n: nat, s: State, name: string)
    requires Inv(n, s) && name in s.events && CertificateIsInvolved(s.events[name])
    ensures AddQueues(s.events[name]) <==> !Recorded(s.events[name])
  {
    assert CountOk(s, name);
    RelistMissesIff(s.events[name]);
  }

  /** The broker's own annotation never puts its event back into the queue. */
  lemma OwnWriteIsIgnored(name: string, e: Event, world: World, f: Faults)
    ensures !Enqueues(Notice(name, Some(e), Some(SyncEvent(e, world, f).event)))
  {
    SyncLeaves(e, world, f);
  }

  lemma SyncLeaves(e: Event, world: World, f: Faults)
    ensures var r := SyncEvent(e, world, f);
      r.event == e || (r.event == Annotate(e) && r.told != [])
  {
    if e.involved.cert in world.owners {
      OwnersLeave(e, e, world.owners[e.involved.cert], world.ingresses, f);
    }
  }

  /** A run leaves the store's events with their objects and counts. */
  lemma RunKeepsEvents(s: State, ran: string, f: Faults, name: string)
    ensures name in AfterRun(s, ran, f).events <==> name in s.events
    ensures name in s.events ==>
      var e := AfterRun(s, ran, f).events[name];
      && e.involved == s.events[name].involved && e.count == s.events[name].count
      && (ran != name ==> e == s.events[name])
  {
    if ran in s.events {
      SyncLeaves(s.events[ran], s.world, f);
    }
  }

  lemma RunKeepsCount(s: State, ran: string, f: Faults, name: string)
    requires CountOk(s, name)
    ensures CountOk(AfterRun(s, ran, f), name)
  {
    RunKeepsEvents(s, ran, f, name);
    if ran == name && name in s.events {
      SyncLeaves(s.events[name], s.world, f);
      AnnotateRoundTrip(s.events[name]);
    }
  }

  lemma CountsKept(n: nat, s: State, step: Step, name: string)
    requires Inv(n, s) && Enabled(n, s, step)
    ensures CountOk(Next(n, s, step), name)
  {
    assert CountOk(s, name);
    if step.Act? && step.act.Run? {
      var moved := s.(pool := WQ.Next(n, s.pool, step.act));
      assert CountOk(moved, name);
      RunKeepsCount(moved, s.pool.workers[step.act.w].key, step.f, name);
    }
  }

  lemma InvKept(n: nat, s: State, step: Step)
    requires Inv(n, s) && Enabled(n, s, step)
    ensures Inv(n, Next(n, s, step))
  {
    match step {
      case Act(a, _) => WQ.PoolKept(n, s.pool, a);
      case Notify => WQ.PoolKept(n, s.pool, WQ.AddDelayed(s.notices[0].name));
      case _ =>
    }
    forall name ensures CountOk(Next(n, s, step), name) {
      CountsKept(n, s, step, name);
    }
  }

  // ---- Awaited or recorded ----

  ghost predicate Noticed(s: State, name: string) {
    exists n :: n in s.notices && n.name == name && Enqueues(n)
  }

  ghost predicate Awaited(s: State, name: string) {
    WQ.Pending(s.pool, name) || Noticed(s, name)
  }

  ghost predicate TrackedAt(s: State, name: string) {
    name in s.events && CertificateIsInvolved(s.events[name]) ==> Awaited(s, name) || Recorded(s.events[name])
  }

  /** Every certificate event is awaited or carries its count. */
  ghost predicate Tracked(s: State) {
    !s.pool.q.shuttingDown ==> forall name :: TrackedAt(s, name)
  }

  /** A run forgets an event without having told anybody, because the certificate has no Ingress owner
      whose Ingress is there in front of the missing ones; and nothing else makes anybody look at the
      event again. */
  ghost predicate Drops(n: nat, s: State, step: Step) {
    && step.Act? && step.act.Run? && Enabled(n, s, step) && !s.pool.q.shuttingDown
    && var name := s.pool.workers[step.act.w].key;
    && name in s.events && CertificateIsInvolved(s.events[name]) && !Recorded(s.events[name])
    && s.events[name].involved.cert in s.world.owners
    && Due(s.world.owners[s.events[name].involved.cert], s.world.ingresses) == []
    && !WQ.Pending(WQ.Next(n, s.pool, step.act), name) && !Noticed(s, name)
  }

  lemma RunRecords(e: Event, world: World, f: Faults)
    requires !SyncEvent(e, world, f).failed
    requires Due(world.owners[e.involved.cert], world.ingresses) != []
    ensures Recorded(SyncEvent(e, world, f).event)
  {
    WalkIsExact(e, e, world.owners[e.involved.cert], world.ingresses, f);
    AnnotateRoundTrip(e);
  }

  /** A run that has nobody to tell leaves everything but the worker as it was. */
  lemma NothingDue(n: nat, s: State, step: Step)
    requires step.Act? && step.act.Run? && Enabled(n, s, step)
    requires var name := s.pool.workers[step.act.w].key;
      && name in s.events && s.events[name].involved.cert in s.world.owners
      && Due(s.world.owners[s.events[name].involved.cert], s.world.ingresses) == []
    ensures Next(n, s, step) == s.(pool := WQ.Next(n, s.pool, step.act))
  {
    var e := s.events[s.pool.workers[step.act.w].key];
    WalkIsExact(e, e, s.world.owners[e.involved.cert], s.world.ingresses, step.f);
    assert s.events == s.events[s.pool.workers[step.act.w].key := e];
  }

  /** A run for the event itself that is forgotten. */
  lemma ForgottenIsRecorded(n: nat, s: State, step: Step)
    requires step.Act? && step.act.Run? && step.act.outcome == WQ.Forget && Enabled(n, s, step)
    requires !s.pool.q.shuttingDown && !Drops(n, s, step)
    ensures TrackedAt(Next(n, s, step), s.pool.workers[step.act.w].key)
  {
    var name, s' := s.pool.workers[step.act.w].key, Next(n, s, step);
    RunKeepsEvents(s.(pool := WQ.Next(n, s.pool, step.act)), name, step.f, name);
    if name in s.events && CertificateIsInvolved(s.events[name]) {
      var e := s.events[name];
      SyncFailsIff(e, s.world, step.f);
      if Due(s.world.owners[e.involved.cert], s.world.ingresses) != [] {
        RunRecords(e, s.world, step.f);
        assert s'.events[name] == SyncEvent(e, s.world, step.f).event;
      } else {
        NothingDue(n, s, step);
        assert Noticed(s', name) <==> Noticed(s, name);
      }
    }
  }

  lemma ActTracks(n: nat, s: State, step: Step, name: string)
    requires step.Act? && Enabled(n, s, step) && !Drops(n, s, step) && TrackedAt(s, name)
    requires !s.pool.q.shuttingDown && !Next(n, s, step).pool.q.shuttingDown
    ensures TrackedAt(Next(n, s, step), name)
  {
    var a, s' := step.act, Next(n, s, step);
    assert Noticed(s, name) ==> Noticed(s', name);
    if !a.Run? {
      if WQ.Pending(s.pool, name) {
        WQ.PendingKept(n, s.pool, a, name);
      }
    } else if s.pool.workers[a.w].key == name && a.outcome == WQ.Forget {
      ForgottenIsRecorded(n, s, step);
    } else {
      RunTracks(n, s, step, name);
    }
  }

  lemma RunTracks(n: nat, s: State, step: Step, name: string)
    requires step.Act? && step.act.Run? && Enabled(n, s, step) && TrackedAt(s, name)
    requires s.pool.workers[step.act.w].key == name ==> step.act.outcome != WQ.Forget
    requires !Next(n, s, step).pool.q.shuttingDown
    ensures TrackedAt(Next(n, s, step), name)
  {
    var a, s' := step.act, Next(n, s, step);
    var moved, ran := s.(pool := WQ.Next(n, s.pool, a)), s.pool.workers[a.w].key;
    RunKeepsEvents(moved, ran, step.f, name);
    assert Noticed(s, name) ==> Noticed(s', name);
    if ran == name {
      assert WQ.Carries(s'.pool.workers[a.w], name);
    } else if WQ.Pending(s.pool, name) {
      WQ.PendingKept(n, s.pool, a, name);
    }
  }

  /** A change of the event itself: announced if the count changed. */
  lemma EditTracks(n: nat, s: State, step: Step, name: string)
    requires Enabled(n, s, step) && (step.Appear? || step.Recur? || step.Vanish?) && TrackedAt(s, name)
    ensures TrackedAt(Next(n, s, step), name)
  {
    var s' := Next(n, s, step);
    var last := s'.notices[|s.notices|];
    assert s'.notices == s.notices + [last];
    assert Noticed(s, name) ==> Noticed(s', name);
    if step.name == name && name in s'.events && CertificateIsInvolved(s'.events[name]) {
      assert Enqueues(last) && last in s'.notices;
    }
  }

  lemma NotifyTracks(n: nat, s: State, name: string)
    requires s.notices != [] && TrackedAt(s, name) && !s.pool.q.shuttingDown
    ensures TrackedAt(Next(n, s, Notify), name)
  {
    var s' := Next(n, s, Notify);
    if Noticed(s, name) {
      var note :| note in s.notices && note.name == name && Enqueues(note);
      assert note == s.notices[0] || note in s'.notices;
    } else if WQ.Pending(s.pool, name) {
      assert s'.pool.workers == s.pool.workers;
    }
  }

  lemma RestartTracks(n: nat, s: State, listed: seq<Notice>, name: string)
    requires Inv(n, s) && Lists(s, listed)
    ensures TrackedAt(Next(n, s, Restart(listed)), name)
  {
    if name in s.events && CertificateIsInvolved(s.events[name]) {
      RelistIsExact(n, s, name);
      var note :| note in listed && note.name == name;
      assert AddQueues(s.events[name]) ==> Enqueues(note);
    }
  }

  lemma ChangeTracks(n: nat, s: State, step: Step, name: string)
    requires step.Change? && TrackedAt(s, name)
    ensures TrackedAt(Next(n, s, step), name)
  {
    var s' := Next(n, s, step);
    assert s'.notices == s.notices && s'.pool == s.pool && s'.events == s.events;
    assert Noticed(s, name) ==> Noticed(s', name);
  }

  lemma TrackedKept(n: nat, s: State, step: Step)
    requires Inv(n, s) && Tracked(s) && Enabled(n, s, step) && !Drops(n, s, step)
    ensures Tracked(Next(n, s, step))
  {
    var s' := Next(n, s, step);
    if !s'.pool.q.shuttingDown {
      forall name ensures TrackedAt(s', name) {
        match step
        case Act(a, _) =>
          WQ.ShutdownIsFinal(n, s.pool, a);
          ActTracks(n, s, step, name);
        case Notify => NotifyTracks(n, s, name);
        case Restart(listed) => RestartTracks(n, s, listed, name);
        case Change(_) => ChangeTracks(n, s, step, name);
        case _ => EditTracks(n, s, step, name);
      }
    }
  }

  lemma DropIsNotTracked(n: nat, s: State, step: Step)
    requires Drops(n, s, step)
    ensures !Tracked(Next(n, s, step))
  {
    var name, s' := s.pool.workers[step.act.w].key, Next(n, s, step);
    NothingDue(n, s, step);
    assert !Noticed(s', name);
    assert !TrackedAt(s', name);
  }

  /** While the certificate is unknown, every sync is an error: the event stays awaited. */
  lemma UnknownStaysAwaited(n: nat, s: State, step: Step, name: string)
    requires Inv(n, s) && Enabled(n, s, step) && !s.pool.q.shuttingDown && !Next(n, s, step).pool.q.shuttingDown
    requires name in s.events && CertificateIsInvolved(s.events[name]) && Awaited(s, name)
    requires s.events[name].involved.cert !in s.world.owners && !Recorded(s.events[name])
    requires var events := Next(n, s, step).events; name in events && events[name].involved == s.events[name].involved
    ensures Awaited(Next(n, s, step), name)
  {
    var s' := Next(n, s, step);
    if step.Act? {
      UnknownActs(n, s, step, name);
    } else if step.Notify? {
      if !Noticed(s, name) {
        assert s'.pool.workers == s.pool.workers;
      } else {
        var note :| note in s.notices && note.name == name && Enqueues(note);
        assert note == s.notices[0] || note in s'.notices;
      }
    } else if step.Restart? {
      RestartTracks(n, s, step.listed, name);
    } else {
      assert Noticed(s, name) ==> Noticed(s', name);
    }
  }

  lemma UnknownActs(n: nat, s: State, step: Step, name: string)
    requires Enabled(n, s, step) && step.Act? && !Next(n, s, step).pool.q.shuttingDown
    requires name in s.events && Awaited(s, name) && s.events[name].involved.cert !in s.world.owners
    ensures Awaited(Next(n, s, step), name)
  {
    var a, s' := step.act, Next(n, s, step);
    assert Noticed(s, name) ==> Noticed(s', name);
    if a.Run? && s.pool.workers[a.w].key == name {
      SyncFailsIff(s.events[name], s.world, step.f);
      assert WQ.Carries(s'.pool.workers[a.w], name);
    } else if WQ.Pending(s.pool, name) {
      WQ.PendingKept(n, s.pool, a, name);
    }
  }

  // ---- Every run ----

  /** A first broker meets certificate events without annotations, among others. */
  ghost predicate Initial(s: State) {
    && s.pool == WQ.Fresh() && Lists(s, s.notices)
    && forall name :: name in s.events && CertificateIsInvolved(s.events[name]) ==> s.events[name].annotations.None?
  }

  ghost predicate StepAt(n: nat, states: seq<State>, steps: seq<Step>, i: nat)
    requires |states| == |steps| + 1 && i < |steps|
  {
    Enabled(n, states[i], steps[i]) && states[i + 1] == Next(n, states[i], steps[i])
  }

  ghost predicate IsRun(n: nat, states: seq<State>, steps: seq<Step>) {
    && |states| == |steps| + 1 && Initial(states[0])
    && forall i: nat :: i < |steps| ==> StepAt(n, states, steps, i)
  }

  /** In every state of every run, restarts included: no annotated count exceeds the count, and what is
      annotated has been sent. */
  lemma EveryRun(n: nat, states: seq<State>, steps: seq<Step>, i: nat)
    requires IsRun(n, states, steps) && i < |states|
    ensures Inv(n, states[i])
  {
    var inv := (s: State) => Inv(n, s);
    forall j: nat | j + 1 < |states| ensures Carried(inv, states, j) {
      assert StepAt(n, states, steps, j);
      if inv(states[j]) {
        InvKept(n, states[j], steps[j]);
      }
    }
    Invariantly(inv, states, i);
  }

  ghost function TrackedIn(states: seq<State>): seq<bool> {
    seq(|states|, i requires 0 <= i < |states| => Tracked(states[i]))
  }

  ghost function DropsIn(n: nat, states: seq<State>, steps: seq<Step>): seq<bool>
    requires |states| == |steps| + 1
  {
    seq(|steps|, i requires 0 <= i < |steps| => Drops(n, states[i], steps[i]))
  }

  lemma TracksAt(n: nat, states: seq<State>, steps: seq<Step>, j: nat)
    requires IsRun(n, states, steps) && j < |steps|
    ensures SwitchAt(TrackedIn(states), DropsIn(n, states, steps), j)
  {
    EveryRun(n, states, steps, j);
    assert StepAt(n, states, steps, j);
    if Tracked(states[j]) {
      if Drops(n, states[j], steps[j]) {
        DropIsNotTracked(n, states[j], steps[j]);
      } else {
        TrackedKept(n, states[j], steps[j]);
      }
    }
  }

  lemma InitialIsTracked(s: State)
    requires Initial(s)
    ensures Tracked(s)
  {
    forall name ensures TrackedAt(s, name) {
      if name in s.events && CertificateIsInvolved(s.events[name]) {
        var note :| note in s.notices && note.name == name;
        assert Enqueues(note);
      }
    }
  }

  /** In every run, while certificates, their owners and target Ingresses come and go: every certificate
      event is awaited or carries its count in all states so far, exactly if no run has dropped one. */
  lemma TrackedIff(n: nat, states: seq<State>, steps: seq<Step>, i: nat)
    requires IsRun(n, states, steps) && i < |states|
    ensures (forall j: nat :: j <= i ==> Tracked(states[j]))
       <==> (forall j: nat :: j < i ==> !Drops(n, states[j], steps[j]))
  {
    var good, bad := TrackedIn(states), DropsIn(n, states, steps);
    InitialIsTracked(states[0]);
    forall j: nat | j < |bad| ensures SwitchAt(good, bad, j) {
      TracksAt(n, states, steps, j);
    }
    GoodUntilBad(good, bad, i);
    assert forall j: nat :: j <= i ==> good[j] == Tracked(states[j]);
    assert forall j: nat :: j < i ==> bad[j] == Drops(n, states[j], steps[j]);
  }

  /** When nothing is awaited, the latest count of every certificate event has been sent. */
  lemma QuietIsSent(n: nat, s: State, name: string)
    requires Inv(n, s) && Tracked(s) && !s.pool.q.shuttingDown && !Awaited(s, name)
    requires name in s.events && CertificateIsInvolved(s.events[name])
    ensures (name, s.events[name].count) in s.sent
  {
    assert CountOk(s, name) && TrackedAt(s, name);
  }

  // ---- The handlers as code ----

  class EventHandler {
    const queue: WQ.Controller<string>

    constructor (queue: WQ.Controller<string>)
      ensures this.queue == queue
    {
      this.queue := queue;
    }

    /** A nil map is followed by a failed parse, so the key is added at most once. */
    method OnAdd(name: string, event: Event)
      modifies queue
      ensures queue.Contents() ==
        if AddQueues(event) then old(queue.Contents()).AddLater(name) else old(queue.Contents())
    {
      if event.annotations == None {
        queue.AddAfter(name);
      }
      var annotation := if event.annotations.Some? && GARDEN_COUNT in event.annotations.value
                        then event.annotations.value[GARDEN_COUNT] else "";
      var lastCount := ParseInt32(annotation);
      if lastCount.Some? {
        if event.count > lastCount.value {
          queue.AddAfter(name);
        }
      }
    }

    method OnUpdate(name: string, oldEvent: Event, newEvent: Event)
      modifies queue
      ensures queue.Contents()
           == if oldEvent.count != newEvent.count then old(queue.Contents()).AddLater(name) else old(queue.Contents())
    {
      if oldEvent.count != newEvent.count {
        queue.AddAfter(name);
      }
    }
  }

  class EventSync {
    var events: map<string, Event>
    var told: seq<Key>
    var faults: Faults
    const world: World

    constructor (world: World, events: map<string, Event>, faults: Faults)
      ensures this.world == world && this.events == events && this.faults == faults && told == []
    {
      this.world, this.events, this.faults, told := world, events, faults, [];
    }

    /** Writes the annotated event back. */
    method Update(name: string, event: Event) returns (failed: bool)
      modifies this
      ensures failed == (old(faults).budget == 0) && told == old(told)
      ensures faults == if failed then old(faults) else old(faults).(budget := old(faults).budget - 1)
      ensures events == if !failed || old(faults).lands then old(events)[name := event] else old(events)
    {
      failed := faults.budget == 0;
      if !failed || faults.lands {
        events := events[name := event];
      }
      if !failed {
        faults := faults.(budget := faults.budget - 1);
      }
    }

    /** The walk over the owners of the certificate. */
    method Replicate(name: string, event: Event, owners: seq<OwnerRef>) returns (failed: bool)
      requires name in events && events[name] == event
      modifies this
      ensures var r := SyncOwners(event, event, owners, world.ingresses, old(faults));
        failed == r.failed && told == old(told) + r.told && events == old(events)[name := r.event]
    {
      ghost var whole := SyncOwners(event, event, owners, world.ingresses, faults);
      ghost var sofar: seq<Key> := [];
      assert owners[0..] == owners;
      var i := 0;
      while i < |owners|
        invariant 0 <= i <= |owners| && name in events
        invariant events == old(events)[name := events[name]] && told == old(told) + sofar
        invariant whole == Prepend(sofar, SyncOwners(event, events[name], owners[i..], world.ingresses, faults))
      {
        WalkOne(event, events[name], owners, i, world.ingresses, faults);
        if IsIngress(owners[i]) {
          var key := TargetOf(owners[i].name);
          if key !in world.ingresses {
            return false;
          }
          var error := Announce(name, event, key);
          assert told == old(told) + (sofar + [key]);
          if error {
            return true;
          }
          PrependTwice(sofar, key, SyncOwners(event, Annotate(event), owners[i + 1..], world.ingresses, faults));
          sofar := sofar + [key];
        }
        i := i + 1;
      }
      return false;
    }

    /** Tells one Ingress of the event and annotates the event. */
    method Announce(name: string, event: Event, key: Key) returns (failed: bool)
      modifies this
      ensures failed == (old(faults).budget == 0) && told == old(told) + [key]
      ensures faults == if failed then old(faults) else old(faults).(budget := old(faults).budget - 1)
      ensures events == if !failed || old(faults).lands then old(events)[name := Annotate(event)] else old(events)
    {
      told := told + [key];
      failed := Update(name, Annotate(event));
    }

    /** `Sync`: an error for an unknown event or certificate, else one walk over the owners. */
    method Sync(name: string) returns (failed: bool)
      modifies this
      ensures name !in old(events) ==> failed && events == old(events) && told == old(told)
      ensures name in old(events) ==>
        var r := SyncEvent(old(events)[name], world, old(faults));
        failed == r.failed && events == old(events)[name := r.event] && told == old(told) + r.told
    {
      if name !in events {
        return true;
      }
      var event := events[name];
      assert events == events[name := event];
      if event.involved.cert !in world.owners {
        return true;
      }
      failed := Replicate(name, event, world.owners[event.involved.cert]);
    }
  }
}
