# Cert-broker: the two-cluster protocol, verified

Cert-broker watches a *target* cluster for Ingresses that carry the label
`garden.sapcloud.io/purpose: managed-cert`. It copies their TLS section into a
*control* cluster, where Cert-Manager issues the certificates, and copies the
resulting secrets and certificate events back. Four controllers do this (ingress
replicator, cleaner, secret replicator, event replicator); they share one control
namespace and one annotation template, and each reacts to notifications that its
handlers may drop.

This project models that protocol in Dafny and proves that the dropped
notifications, the filtered comparison, the lossy retry loop and the periodic
cleaner keep the two clusters in agreement over every run. Check it with
`dafny verify dfyconfig.toml`.

## How it is built

| module | what it holds |
|---|---|
| `Naming` | the naming codec between the clusters, the informer filter, queue keys |
| `TLS`, `CopySpec` | `copyTLS` as the nested loops it is, over a map visited in any order; all its possible outcomes; the function it is when the configuration is unambiguous |
| `Prefix` | `prefixWithNamespace` in place on an array, and `deepEqual` |
| `Clusters` | each synchronisation as a function of the clusters, of the outcome of `copyTLS` and of the API call that fails |
| `WorkQueue` | client-go's queue, the worker loop, `Start` and its wait group: a machine over any number of workers, and the same loop as code |
| `Protocol`, `Safety` | the broker as a state machine (edits, notices, workers, failures, issuing, restarts) and its invariant over every run |
| `Annotations` | over whole runs, control Ingresses keep the annotations by which Cert-Manager recognises them |
| `Deletions` | which notices are acted upon; over whole runs, the copy of a deleted Ingress is removed by the ingress controller itself |
| `Dirty`, `Relabel` | labelled Ingresses are pending, announced or replicated: exactly when, and the run that breaks it |
| `Convergence`, `Fairness`, `Sweep`, `Schedules` | once edits and failures stop, the clusters come to agree under every fair schedule, and fair schedules exist |
| `Runs`, `Reach` | induction along runs, and runs built step by step |
| `Isolation`, `Certificates` | namespaces do not disturb each other; over whole runs, a certificate comes back where it was asked for |
| `Delivery` | the secret replicator's queue, and exactly when a stored secret that is wanted gets delivered |
| `Overwrite` | exactly when the shared template can write a wrong provider |
| `Handlers` | the handlers as code over mutable clusters, caches and queues, each proved equal to its function |
| `Decimal`, `Events`, `EventDrops` | event replication with its count annotation, while certificates, owners and target Ingresses come and go; exactly when an event is dropped |

Two hypotheses recur. A configuration is `Unambiguous` when every domain has a
non-empty provider, and a domain and the domains it is a suffix of share theirs.
That is exactly what makes the map order irrelevant (`OrderIrrelevantForAll`).
`Owned` says that every control Ingress the informer filter lets through was made by
the broker. It is an invariant of every run that starts with it. A state of the protocol is `Sound`
if it satisfies the invariant of every run, labelled Ingresses are dirty or synced, and no
removal is under way whose Ingress is labelled again; `SteadyRunsAreSound` says when that is so.

One synchronisation is one step of the machine, with two exceptions where other steps can do harm in
between: a create first sets the template's field and later reads it back and writes the Ingress,
and the cleaner first decides on a removal and later carries it out.

API failures are part of every synchronisation: `Faults(budget, lands)` lets the
first `budget` calls succeed and the next one fail, whether or not it was carried out.

## What the code does not guarantee

Each point is a lemma of the model; where a condition decides, it is stated exactly.

* `SplitNamespace` never looks at the `managed-cert` prefix, although its comment asks
  for one. A foreign control Ingress named `x.ns.name` is deleted by the cleaner
  (`CleanerDeletesForeign`), and two control secrets may compete for one target secret
  (`SecretsCollide`); with the prefix they cannot (`SecretsApart`).
* A dot in a namespace breaks the codec, and only that does (`SplitUndoesCreate`, `CreateCollides`).
* With overlapping domains under different providers the result of `copyTLS` depends on Go's
  map order (`OrderIrrelevantIff`).
* The comparison in `updateIngress` uses the unfiltered list while the write uses the filtered
  one. A control Ingress left by an earlier configuration is therefore never corrected
  (`StaleAfterReconfiguration`, `SyncReplicatesIff`).
* A clean-up that fails half-way is never resumed, because the Ingress that lists the
  remaining secrets is deleted first (`InterruptedCleanUpLeaks`).
* The template's provider field is shared, without a lock, by all ingress workers and the cleaner.
  With two providers configured some run gives a control Ingress the wrong provider: if there are
  two ingress workers, because both may set the field before one reads it back, and if there is one,
  because the cleaner's overwrite reads what was set for another Ingress. Apart from that providers
  always fit (`RaceCanSpoil`, `OverwriteCanSpoil`, `ProvidersSafeIsExact`).
* A worker that finds the stop channel closed before its first iteration never calls
  `Done` on the wait group, so `Start` then hangs (`StartReturnsIff`). With zero workers
  `Start` returns although work is queued (`NoWorkersNoDrain`).
* An event whose certificate has no Ingress owner, or whose first Ingress owner is missing, when it is
  synchronised, is forgotten without being replicated; nothing but that drops an event (`TrackedIff`,
  `DropHappens`). If the certificate itself is unknown, the event is retried (`UnknownStaysAwaited`).
* A relist ignores an event that has annotations but no readable count (`RelistMissesIff`).
* The cleaner looks at the label first and deletes later. If an Ingress regains its label in
  between, and the ingress replicator finds the copy still up to date, the copy is deleted and
  nobody looks at the Ingress again (`RelabellingLoses`, `LostStaysLost`). Nothing else can lose
  a labelled Ingress (`DirtyOrSyncedIff`). An outdated list has the same effect (`StaleViewIff`), and an
  update that compares with an older control Ingress may be skipped although the stored one is
  outdated (`StaleUpdateIff`).
* A secret that nobody wants when it is synchronised is forgotten. An Ingress that asks for it
  later does not get it until the secret changes or the broker restarts (`ServedIff`, `LateAskHappens`).
* The comment at `pkg/ingress/sync.go:171-173` says that an update deletes and recreates the
  Ingress. The code updates it in place, and so does the model.

## Model

| member | source | states |
|---|---|---|
| Naming.SplitJoins | pkg/utils/naming.go:63-64 | splitting a name at dots and joining the pieces gives the name back; no piece but the last contains a dot |
| Naming.SplitCountsDots | pkg/utils/naming.go:63-72 | how many pieces a name splits into: one more than its dots, at most the limit |
| Naming.TooFewPieces | pkg/utils/naming.go:63-72 | a name without a dot decodes to no namespace and itself, one with a single dot to nothing |
| Naming.SplitUndoesCreate | pkg/utils/naming.go:63-78 | decoding a made name gives namespace and name back if and only if the namespace has no dot |
| Naming.CreateUndoesSplit | pkg/utils/naming.go:63-78 | re-encoding a decoded name gives it back if and only if it begins with `managed-cert.` and has at least two dots |
| Naming.ControlNameSpelled | pkg/utils/naming.go:74-78 | a control name, written out: `managed-cert.`, the namespace, a dot, the name |
| Naming.CreateInjective | pkg/utils/naming.go:74-78 | objects in dot-free namespaces never share a control name |
| Naming.CreateCollides | pkg/utils/naming.go:76-78 | a dot in a namespace always makes a collision |
| Naming.FilterIsExactOnPrefix | pkg/utils/controller-helper.go:128-139 | a name is broker-made if and only if the informer filter accepts it and it has the prefix |
| Naming.FilterAcceptsIff | pkg/utils/controller-helper.go:130-139 | the filter accepts exactly the names of three pieces whose last two are not empty, whatever the first one is |
| Naming.HeadsCollide | pkg/utils/naming.go:63-72 | names that differ only in their head decode alike |
| Naming.KeyRoundTrip | vendor/k8s.io/client-go/tools/cache/store.go:76-107 | a queue key gives its object back if and only if the namespace and name have no slash (and the namespace-free form is kept apart) |
| Naming.KeyRefusedIff | vendor/k8s.io/client-go/tools/cache/store.go:95-107 | a queue key is refused if and only if it has two slashes or more; without a slash it is a name without a namespace |
| TLS.CopyHosts | pkg/ingress/sync.go:215-233 | the two inner loops keep the managed hosts in order, complain about the others, or stop at the first host whose provider conflicts |
| TLS.CopyTLS | pkg/ingress/sync.go:211-242 | for some choice of one matching domain per managed host: the filtered list with the last provider if no choice conflicts with its predecessor, else nothing; the recorder was told of exactly the unmanaged hosts, or of those before the first host whose provider conflicts and then of the conflict |
| CopySpec.SubdomainIsManaged | pkg/ingress/sync.go:218-229 | a managed domain manages itself and every host that ends in it, and serves it with its provider |
| CopySpec.ManagedIff | pkg/ingress/sync.go:218-229 | nothing else is managed, and no other provider serves a host: every one is that of a domain that the host ends in |
| CopySpec.ComplaintsAreExact | pkg/ingress/sync.go:230-232 | what the recorder is told are exactly the unmanaged hosts, each time one is listed, in order (by their positions) |
| CopySpec.KeepIsExact | pkg/ingress/sync.go:216-229 | the hosts kept are exactly the managed ones, each once, in order (by their positions) |
| CopySpec.FilterIsExact | pkg/ingress/sync.go:211-242 | the entries kept are exactly those with a managed host, in order, under their own secret name, never empty |
| CopySpec.FilterIdempotent | pkg/ingress/sync.go:211-242 | filtering a filtered list changes neither the list nor its managed hosts |
| CopySpec.SuccessOutcomes | pkg/ingress/sync.go:218-241 | a copy can succeed with a result if and only if it is the filtered list with a provider that every managed host has |
| CopySpec.EmptyOutcome | pkg/ingress/sync.go:220-223 | a copy can end with nothing if and only if no host is managed or two hosts can be given different providers |
| CopySpec.OrderIrrelevantIff | pkg/ingress/sync.go:218-229 | for one list: the exact condition under which the map order does not matter |
| CopySpec.OrderIrrelevantForAll | pkg/ingress/sync.go:218-229 | the map order never matters if and only if overlapping domains share their provider |
| CopySpec.CopyRefines | pkg/ingress/sync.go:211-242 | in an unambiguous configuration a result is possible if and only if it is the one of the specification, whatever the order |
| CopySpec.CopyNothing | pkg/ingress/sync.go:219-241 | nothing is copied if and only if no host is managed or two managed hosts need different providers |
| CopySpec.CopyIdempotent | pkg/ingress/sync.go:211-242 | copying a copied list gives it back with the same provider |
| CopySpec.CopiedHostsServed | pkg/ingress/sync.go:211-242 | even in an ambiguous configuration: a non-empty result has a provider that serves every host in it, and misses no managed host |
| Prefix.PrefixWithNamespace | pkg/ingress/sync.go:196-200 | the in-place loop leaves every element with its hosts under the secret name `managed-cert.<namespace>.<name>` |
| Prefix.DeepEqual | pkg/ingress/sync.go:204-209 | true if and only if the control slice is not nil and is the elementwise prefixed target list; no existing slice is written |
| Prefix.PrefixedInjective | pkg/ingress/sync.go:196-200 | two lists with the same prefixed image are equal |
| Clusters.SyncReplicatesIff | pkg/ingress/sync.go:108-194 | a sync without error leaves the control cluster with exactly the copied entries, except if and only if the control list already equals the unfiltered list and copying would change it |
| Clusters.StaleAfterReconfiguration | pkg/ingress/sync.go:174-194 | that exception happens: after a domain is no longer managed, the old control Ingress is called up to date |
| Clusters.SyncNeedsWrites | pkg/ingress/sync.go:108-194 | a sync ends without an error if and only if the number of API calls that `Writes` counts succeed |
| Clusters.CreateMakes | pkg/ingress/sync.go:151-169 | a sync that finds no control Ingress makes one if and only if something is copied and the call gets through: the prefixed list, exactly the settings' annotations and the provider if it has a name; the template remembers the provider |
| Clusters.UpdateChanges | pkg/ingress/sync.go:174-194 | a sync that finds one keeps all annotations but the provider's and touches nothing else; unless the lists are equal or the call fails, the list becomes the copied one and the provider's annotation the copy's, even if empty |
| Clusters.SyncRecords | pkg/ingress/sync.go:162-191 | a request is recorded if and only if a sync without error made the control Ingress appear, an update if and only if one without error met an outdated one; nothing else is recorded |
| Clusters.SyncIdempotent | pkg/ingress/sync.go:108-209 | a sync after a successful one leaves the control cluster as it is |
| Clusters.NextSyncWritesIff | pkg/ingress/sync.go:174-209 | that next sync still calls the API server if and only if the first one was not up to date and the control Ingress exists and filtering had removed something or everything |
| Clusters.StaleUpdateIff | pkg/ingress/sync.go:127-194 | an update decided on an outdated control Ingress replicates if and only if the outdated one is not up to date, or the stored one holds the copied entries anyway |
| Clusters.DroppedUpdateIff | pkg/ingress/eventhandler.go:44-51 | an update between labelled Ingresses has equal TLS lists if and only if no control Ingress could make the sync's comparison tell them apart; so a dropped notice hides no needed work and a kept one may |
| Clusters.TemplateNamesProvider | pkg/utils/controller-helper.go:56-68 | the template's annotations name a provider if and only if its field is not empty, that one, and nothing else in them depends on the field |
| Clusters.CleanUpRemovesAll | pkg/utils/controller-helper.go:94-111 | without an error the Ingress and all secrets it lists are gone, and nothing else |
| Clusters.InterruptedCleanUpLeaks | pkg/utils/controller-helper.go:94-111 | a clean-up stopped after the Ingress is never resumed by either controller; which secrets stay |
| Clusters.CleanerRemovesIff | pkg/cleaner/controller.go:164-211 | the cleaner removes a control Ingress if and only if its counterpart is missing or unlabelled and the call got through; it changes no TLS list and no other Ingress |
| Clusters.CleanerKeepsByLabel | pkg/utils/naming.go:80-88 | in terms of the labels: if the call gets through, the control Ingress stays, and is looked at again, if and only if its target exists and maps `garden.sapcloud.io/purpose` to `managed-cert`; without the overwrite nothing of it changes then |
| Clusters.HasIngressIff | pkg/secret/sync.go:113-143 | a secret is wanted if and only if an Ingress of the namespace, or of any if that is empty, has that label with that value and an entry with that secret name |
| Clusters.SecretSyncNeedsCalls | pkg/secret/sync.go:145-164 | a sync of a wanted secret ends without an error if and only if it can afford its calls, one for a new and two for an existing target secret, and writes if and only if the last one was carried out |
| Clusters.CleanerDeletesForeign | pkg/cleaner/controller.go:171-187 | the cleaner deletes an Ingress that only looks broker-made |
| Clusters.OverwriteKeepsProviderIff | pkg/cleaner/controller.go:197-209 | the annotation overwrite keeps a fitting provider if and only if the template has none, or one that serves this Ingress |
| Clusters.OverwriteChanges | pkg/cleaner/controller.go:197-209 | after an overwrite every annotation of the template has the template's value, the provider's too if the template names one; all other annotations, the TLS list, the secrets and other Ingresses are as they were |
| WorkQueue.Controller.Add | vendor/k8s.io/client-go/util/workqueue/queue.go:108-127 | the code of `Add` is the queue's specification |
| WorkQueue.Controller.Get | vendor/k8s.io/client-go/util/workqueue/queue.go:141-160 | the code of `Get` moves the first key to processing, or reports the shutdown |
| WorkQueue.Controller.Done | vendor/k8s.io/client-go/util/workqueue/queue.go:165-176 | the code of `Done` requeues a key that became dirty meanwhile |
| WorkQueue.Controller.ProcessNextWorkItem | pkg/common/controller.go:97-128 | one iteration: a failed key is re-added with a delay after it is done, a synchronised one is forgotten |
| WorkQueue.Controller.ProcessNextCleanUp | pkg/cleaner/controller.go:126-162 | one iteration of the cleaner, which re-adds a key before it is done with it, or afterwards if it failed |
| WorkQueue.IterationIsProcessed | pkg/common/controller.go:90-128 | an undisturbed sequence of one worker's steps in the machine is possible and has the effect of that code |
| WorkQueue.PoolKept | pkg/common/controller.go:64-128 | every step of every interleaving keeps: queue = dirty minus processing without duplicates, a key is processed if and only if one worker holds it, the wait group counts the active workers |
| WorkQueue.NeverNegative | pkg/common/controller.go:74-95 | in every reachable state the wait group is not negative and no key is with two workers |
| WorkQueue.ReturnedIsDrained | pkg/common/controller.go:82-88 | when `Start` has returned nil, all workers have left, nothing is processed and, with at least one worker, the queue is empty |
| WorkQueue.NoWorkersNoDrain | pkg/common/controller.go:75-87 | with no workers `Start` can return nil while a key is queued |
| WorkQueue.WorkersCanBeSkipped | vendor/k8s.io/apimachinery/pkg/util/wait/wait.go:111-120 | with any number of workers, one can leave before its first iteration |
| WorkQueue.ShutdownProgress | pkg/common/controller.go:82-95 | while shutting down with all workers in their loops, a step is always possible, and `Start` can return as soon as the wait group is zero |
| WorkQueue.ShutdownTerminates | pkg/common/controller.go:82-128 | every worker step of a shutdown leaves less to do |
| WorkQueue.ShutdownTakesNothing | vendor/k8s.io/client-go/util/workqueue/delaying_queue.go:141-160 | a queue that is shutting down takes in no key, neither at once nor delayed, and goes on shutting down |
| WorkQueue.StartReturnsIff | pkg/common/controller.go:74-88 | after `ShutDown`, some continuation lets `Start` return if and only if every worker had entered its loop |
| WorkQueue.PendingKept | pkg/common/controller.go:97-128 | until shutdown, a pending key stays pending through every step but a run that forgets it |
| WorkQueue.DirtyIsServed | vendor/k8s.io/client-go/util/workqueue/queue.go:108-176 | a dirty key is queued, or a worker holds it and will requeue it |
| Protocol.CopiedIngressOk | pkg/ingress/sync.go:151-194 | what create and update write is broker-made, lists only secrets of its namespace, is a list that copying does not change, and names a provider that serves all its hosts |
| Safety.TwoHalvesMakeSync | pkg/utils/controller-helper.go:72-78 | setting the template's field and then building and writing the Ingress is, undisturbed, the sync that the code is |
| Safety.FreshKept | pkg/ingress/sync.go:151-169 | every step keeps: what a worker is about to create is what the target Ingress asks for, or that Ingress will be looked at again |
| Safety.TemplateHolds | pkg/utils/controller-helper.go:72-78 | where providers are safe, the template still holds the worker's provider when it is read back |
| Safety.FinishKeepsControl | pkg/ingress/sync.go:160-166 | the second half of a create, whatever the template holds by then, writes an Ingress of the broker's own; its provider fits if providers are safe |
| Safety.ControlKept | pkg/ingress/sync.go:108-194 | every step keeps the control cluster the broker's own and, exactly where that is possible (`Overwrite.ProvidersSafeIsExact`), every provider fitting |
| Safety.TwoHalvesMakeSweep | pkg/cleaner/controller.go:181-195 | deciding on a removal and then carrying it out is, undisturbed, the cleaner's sync that the code is |
| Safety.CoveredKept | pkg/cleaner/controller.go:126-211 | every step keeps: each managed control Ingress is pending with the cleaner or in an undelivered addition |
| Safety.InvKept | pkg/ingress/sync.go:108-194 | every step, restart and failure included, keeps the invariant: the control cluster and every removal under way are the broker's own, pending creates are current or requeued, the cleaner forgets nothing, queues are sound, providers fit where they can |
| Safety.InitialInv | pkg/cleaner/eventhandler.go:30-38 | a starting broker with its first lists satisfies it |
| Safety.EveryRun | pkg/ingress/sync.go:108-194 | main theorem: the invariant holds in every state of every run |
| Safety.NoNilMapWrite | pkg/ingress/sync.go:180 | in no state of a run does a sync or a cleaner step write to a nil annotation map |
| Annotations.CreatedIsRecognised | pkg/utils/controller-helper.go:56-92 | in every run, a control Ingress created in it has every annotation of the settings in every later state in which it is there, whatever updates, overwrites and failures it met |
| Deletions.EnqueuesIff | pkg/ingress/eventhandler.go:32-59 | a notice queues its key if and only if the Ingress has or had the label with its one value, and, if it has it before and after, its TLS list changed |
| Deletions.NoticeIsKept | pkg/ingress/eventhandler.go:32-59 | in every run, after an edit that makes a labelled Ingress appear or vanish, or gain or lose its label, or change its list, the key is pending or announced until a run of that key ends without an error, a shutdown or a restart |
| Deletions.RunRemoves | pkg/ingress/sync.go:117-149 | a run without an error for a missing target Ingress leaves no control Ingress of that name |
| Deletions.DeletionIsAnswered | pkg/ingress/eventhandler.go:53-59 | main theorem: in every run, after the deletion of a labelled Ingress, in every state until a restart, a shutdown or a new Ingress of that name: its key is pending or announced or its copy is gone, and whoever is about to create the copy will look again |
| Deletions.AnsweredIsClean | pkg/ingress/sync.go:117-149 | so a deleted Ingress that nobody is going to look at has no copy left |
| Deletions.DeletionIsCarriedOut | pkg/ingress/sync.go:117-149 | in every calm run that is fair to the ingress controller and long enough for its work, the copy is gone at the end, whatever the cleaner does |
| Dirty.RunSyncs | pkg/ingress/sync.go:108-194 | in a state of a run, a sync without error leaves its key replicated; the comparison with the unfiltered list is sound there |
| Dirty.RunSettles | pkg/ingress/sync.go:108-194 | a run without error, the second half of a create included, leaves its key replicated or to be looked at again |
| Dirty.RunFrames | pkg/ingress/sync.go:115-137 | a sync leaves the replication of every other key as it was |
| Dirty.CleanerFrames | pkg/cleaner/controller.go:164-211 | a whole cleaner sync never undoes the replication of a labelled Ingress, wherever it fails |
| Dirty.StepAgreesIff | pkg/cleaner/controller.go:181-195 | a step keeps every labelled Ingress pending, announced or replicated if and only if it is not a blind removal: one that was decided on, whose Ingress is labelled again and settled, and that gets through |
| Dirty.DirtyOrSyncedIff | pkg/ingress/eventhandler.go:32-59 | main theorem: in every run, every labelled Ingress is pending, announced or replicated in all states so far if and only if no removal was blind so far |
| Dirty.SteadyRunsAreSound | pkg/cleaner/controller.go:181-195 | in particular in every run in which no Ingress regains its label between the decision to remove its copy and the removal |
| Relabel.RelabellingLoses | pkg/cleaner/controller.go:181-195 | with a managed domain and one worker of each controller, a run built step by step loses the copy of a labelled Ingress and leaves nothing to look at |
| Relabel.LostStaysLost | pkg/ingress/eventhandler.go:32-59 | without an edit or a restart that copy never comes back |
| Relabel.DirtyOrSyncedIsExact | pkg/cleaner/controller.go:164-211 | labelled Ingresses are pending, announced or replicated in every reachable state if and only if nothing is managed or one of the two controllers has no worker |
| Convergence.CalmStepsTerminate | pkg/common/controller.go:97-128 | without edits and failures every step of the ingress side leaves less to do, and every other step as much |
| Convergence.CalmRunsTerminate | pkg/common/controller.go:97-128 | in every calm run, whatever the schedule, the steps that do the ingress side's work and the work left are together no more than the work at the start |
| Convergence.EveryScheduleDrains | pkg/common/controller.go:97-128 | from every state of a run with a live worker: every calm run in which, among any k steps that begin with work left, one does some, ends drained if it has k steps for each unit of work |
| Convergence.CanAdvance | pkg/common/controller.go:97-128 | while something is left to do, such a step is possible |
| Convergence.ReachesQuiet | pkg/common/controller.go:97-128 | such runs exist, with every step doing work |
| Convergence.QuietIsSynced | pkg/ingress/sync.go:108-194 | when it has drained, every labelled Ingress is replicated |
| Convergence.SweptAreClean | pkg/cleaner/controller.go:164-211 | in calm runs from there, every control Ingress the cleaner has looked at has a labelled counterpart or is gone |
| Convergence.Convergence | pkg/cleaner/controller.go:164-211 | after one cleaner pass over all control Ingresses the clusters agree; what was not looked at is still pending with the cleaner |
| Convergence.StaleViewIff | pkg/cleaner/controller.go:181-195 | if the cleaner uses another view of the target, a replicated Ingress survives if and only if that view has it labelled |
| Fairness.QueuedMovesUp | vendor/k8s.io/client-go/util/workqueue/queue.go:108-176 | under any step of any worker a queued key keeps its place or moves up by one, and the first one is the next to be taken |
| Fairness.ComesNearer | pkg/cleaner/controller.go:126-162 | no step takes a key away from its turn, and the steps that help it bring it nearer, however often other keys return |
| Sweep.SweepStepsTerminate | pkg/cleaner/controller.go:126-162 | an orphan is brought nearer to its removal by every step that helps it and set back by none, although live keys return for ever |
| Sweep.CanSweep | pkg/cleaner/controller.go:126-162 | while an orphan is there, a step that helps it is possible |
| Sweep.NoOrphanStarves | pkg/cleaner/controller.go:126-211 | in every calm run from a drained state in which, among any k steps that begin with this orphan there, one helps it, it is gone after k steps for each step its removal takes, however often live keys return |
| Sweep.EveryScheduleSweeps | pkg/cleaner/controller.go:126-211 | every such run that is long enough for each orphan of its first state ends with clusters that agree |
| Sweep.EveryScheduleAgrees | pkg/ingress/sync.go:108-194 | main theorem: from every sound state with live workers, every calm run that is fair to both controllers, and as long as the work and a bound computed from the first state require, ends with clusters that agree |
| Schedules.FairSchedulesExist | pkg/common/controller.go:97-128 | from every such state there are fair calm runs of any length |
| Schedules.ReachesAgreement | pkg/ingress/sync.go:108-194 | so some calm run leads to agreement |
| Isolation.IngressTouchesOnly | pkg/ingress/sync.go:140-200 | an ingress sync touches only control objects named for its namespace, wherever it fails |
| Isolation.CleanerTouchesOnly | pkg/utils/controller-helper.go:95-111 | so does a cleaner step |
| Isolation.StepTouchesOneNamespace | pkg/cleaner/controller.go:181-195 | in a state of a run, every broker step touches one namespace |
| Isolation.SecretsApart | pkg/secret/sync.go:113-153 | two different broker-made control secrets never write the same target secret |
| Isolation.SecretsCollide | pkg/utils/controller-helper.go:136-137 | without the prefix they can, although both pass the filter |
| Isolation.SyncRequestsCertificate | pkg/ingress/sync.go:151-194 | after a sync the control Ingress has an entry for every entry with a managed host: exactly its managed hosts, under the prefixed secret name |
| Isolation.RoundTrip | pkg/secret/sync.go:98-164 | the issued data ends up in exactly the target secret the entry named, and no other target secret changes |
| Isolation.SecretsServed | pkg/secret/sync.go:98-164 | a secret sync writes if and only if a labelled Ingress of that namespace asks for it; even after an error the target secret is the old or the issued one |
| Certificates.ControlSecretsAreStored | pkg/utils/controller-helper.go:103-109 | in every run a control secret holds what Cert-Manager stored under its name, or what was there at the start |
| Certificates.TargetSecretsAreIssued | pkg/secret/sync.go:98-164 | in every run, whatever fails, a target secret holds what it held at the start or data stored under a control name that decodes to it |
| Certificates.SettledIsRequested | pkg/ingress/sync.go:108-194 | in every sound state, a labelled Ingress that nobody will look at again has each of its entries with a managed host requested under the prefixed name |
| Certificates.CertificateComesBack | pkg/secret/sync.go:98-164 | main theorem over runs: data stored for such an entry, and not replaced or cleaned up before a secret sync without failure, is then in exactly the target secret the entry names, and stays until the next sync for that secret |
| Delivery.RunDelivers | pkg/secret/sync.go:98-132 | a sync without an error delivers a stored secret that is wanted |
| Delivery.QueuedIfStored | pkg/secret/eventhandler.go:32-52 | whatever happens to a control secret is announced, and the notice queues it if and only if data was stored; deletions and resyncs queue nothing |
| Delivery.ServedKept | pkg/secret/eventhandler.go:32-52 | every step of the secret replicator's queue, failure and restart included, keeps: each stored secret that is wanted is pending, announced or delivered, unless the step is a late request |
| Delivery.ServedIff | pkg/secret/sync.go:124-130 | main theorem: in every run this holds in all states so far if and only if no Ingress has asked for a stored secret after the replicator had passed over it and forgotten it |
| Delivery.LateAskHappens | pkg/secret/sync.go:124-130 | with a worker, a run built step by step gets there, for every secret |
| Delivery.RestartRepairs | pkg/secret/eventhandler.go:32-40 | a restart makes good whatever was left behind |
| Overwrite.OverwriteCanSpoil | cmd/controller-manager.go:95-132 | with the overwrite on, two providers and one worker each, a run built step by step ends with a wrong provider |
| Overwrite.RaceCanSpoil | pkg/utils/controller-helper.go:72-78 | with two ingress workers and two providers a run ends with a wrong provider even if the overwrite is off: both set the field before one reads it |
| Overwrite.ProviderWasPutIn | pkg/utils/controller-helper.go:70-79 | in every run, a provider in the template is one that a worker has put there since the last restart |
| Overwrite.ProvidersSafeIsExact | pkg/utils/controller-helper.go:57-92 | providers fit in every reachable state if and only if there is one provider, or no ingress worker, or a single one that shares the template with no overwriting cleaner |
| Handlers.ControlCluster.CleanUpIngressAndTLSSecrets | pkg/utils/controller-helper.go:94-111 | the deleting loop removes a prefix of the Ingress and its secrets, and stops at the first error |
| Handlers.IngressTemplate.CreateControlIngress | pkg/utils/controller-helper.go:70-92 | run without interruption, the new Ingress carries the provider it was given, and the template remembers it; which annotation holds which setting |
| Handlers.IngressHandler.CopyPrefixed | pkg/ingress/sync.go:154-158 | the slice returned is fresh and is the prefixed copied list; the recorder was told what `copyTLS` complains about |
| Handlers.IngressHandler.CreateIngress | pkg/ingress/sync.go:151-169 | the code has the effect of its function for one outcome of `copyTLS`, and records it |
| Handlers.IngressHandler.UpdateIngress | pkg/ingress/sync.go:174-194 | likewise; nothing is recorded when the lists are equal |
| Handlers.IngressHandler.SyncKey | pkg/ingress/sync.go:115-137 | likewise for the dispatch between cleaning up, creating and updating; the cached target Ingresses are unchanged |
| Handlers.IngressHandler.Sync | pkg/ingress/sync.go:107-138 | an unreadable key is dropped, any other is dispatched |
| Handlers.IngressHandler.CleanUpIngressAndSecrets | pkg/ingress/sync.go:140-149 | a missing control Ingress is no error; an existing one is cleaned up |
| Handlers.CleanerController.Overwrite | pkg/cleaner/controller.go:200-204 | for every order of the map, template annotations win and all others stay |
| Handlers.CleanerController.SyncHandler | pkg/cleaner/controller.go:164-211 | the code has the effect of its function, and returns its requeue flag and error |
| Handlers.SecretHandler.HasIngressInTargetCluster | pkg/secret/sync.go:134-143 | true if and only if some listed Ingress names the secret |
| Handlers.SecretHandler.ReplicateSecretToTargetCluster | pkg/secret/sync.go:145-164 | create, or update if it exists |
| Handlers.SecretHandler.Sync | pkg/secret/sync.go:98-132 | the code has the effect of its function for every readable key |
| Handlers.EventHandler.Deliver | vendor/k8s.io/client-go/tools/cache/controller.go:217-252 | behind the label filter a notice queues its key if and only if the specification says so |
| Decimal.PrintParse | pkg/events/eventhandler.go:38-40 | a printed number is read back as itself if and only if it fits 32 bits, and is refused otherwise |
| Decimal.PrintIsCanonical | pkg/events/sync.go:146 | a number is printed with digits only, without a leading zero, behind a minus sign if and only if it is negative |
| Decimal.ParseIff | pkg/events/eventhandler.go:38 | a string is read as a number if and only if it is its digits behind any number of zeros and an optional sign that fits |
| Events.AnnotateRoundTrip | pkg/events/sync.go:142-147 | an annotated event reads back its count and is not queued again; all its other annotations and fields stay |
| Events.RelistMissesIff | pkg/events/eventhandler.go:33-44 | which events that need annotating a relist passes over, exactly |
| Events.OwnersLeave | pkg/events/sync.go:128-152 | however a sync ends, the event is unchanged or annotated with its count after being told to an existing Ingress |
| Events.DueIsExact | pkg/events/sync.go:128-140 | the target Ingresses due to be told are those of the owners of kind `Ingress` in `extensions/v1beta1`, in order, up to the first one that is missing (by their positions) |
| Events.WalkIsExact | pkg/events/sync.go:128-152 | whatever fails: a walk tells the first of those that are due, one more than it could update for; it fails if and only if it could not update for all; the event is annotated if and only if some update was carried out |
| Events.SyncFailsIff | pkg/events/sync.go:117-156 | a sync ends with an error if and only if the certificate is unknown, or the API failure comes before it has updated for every Ingress that was due; if the certificate is unknown nothing is done |
| Events.EnqueuesIff | pkg/events/sync.go:87-93 | on the fields: of events about a `Certificate` of `certmanager.k8s.io`, additions queue their event if they need annotating, updates if the count changed; no other notice does |
| Events.RelistIsExact | pkg/events/eventhandler.go:33-44 | in every state of a run, a relist queues exactly the certificate events not annotated with their count |
| Events.OwnWriteIsIgnored | pkg/events/eventhandler.go:47-53 | the broker's own annotation never queues its event |
| Events.InvKept | pkg/events/sync.go:111-156 | every step, restart and failure included, keeps: queues are sound, the annotated count of a certificate event never exceeds its count and was sent |
| Events.EveryRun | pkg/events/sync.go:111-156 | in every run, while other events, certificates, owners and target Ingresses come and go and whatever fails, the annotated count of a certificate event never exceeds its count and was sent |
| Events.TrackedIff | pkg/events/sync.go:117-156 | main theorem: in every run, every certificate event is awaited or annotated with its count in all states so far if and only if no sync so far has dropped one: one that found the certificate but nobody to tell, while nothing else makes anybody look at the event again |
| Events.UnknownStaysAwaited | pkg/events/sync.go:121-124 | while its certificate is unknown, an awaited event without its count stays awaited through every step but a shutdown |
| EventDrops.DropHappens | pkg/events/sync.go:128-156 | with a worker, a run built step by step drops the event of a certificate without owners, for every event |
| Events.QuietIsSent | pkg/events/sync.go:111-156 | when an event is not awaited and none was dropped, its latest count was sent |
| Events.EventHandler.OnAdd | pkg/events/eventhandler.go:33-44 | the code queues exactly the events of the specification |
| Events.EventSync.Replicate | pkg/events/sync.go:128-155 | the loop over the owners has the effect of its specification |
| Events.EventSync.Sync | pkg/events/sync.go:111-156 | an unknown event or certificate is an error; otherwise one walk over the owners |

## Left out

- Informer and lister staleness: a synchronisation reads the store itself. `Convergence.StaleViewIff` and `Clusters.StaleUpdateIff` show what an outdated list can do to one step; runs with outdated lists are not modelled. Resource versions and update conflicts appear only as API failures.
- Handlers.IngressTemplate.CreateControlIngress: as code it runs without interruption; other workers get between its two halves in `Protocol`, where they are two steps (`Safety.TwoHalvesMakeSync`). A torn read of the string is not modelled.
- Time: a delayed key may become ready at any moment. Rate limits, the hourly recheck and resyncs without a change have no duration.
- `runWorker`'s blocking on an empty queue is a step of the machine that is not enabled, not code; each iteration is code and is tied to the machine.
- Work that is pending when shutdown begins is not followed further in the protocol; a restart lists everything again.
- Sweep.EveryScheduleAgrees: assumes that both controllers have a live worker and a schedule that is fair within k steps; that the Go scheduler is fair is not modelled. It starts from sound states, because from a state with a blind removal under way it would be false (`Relabel.RelabellingLoses`).
- The secret replicator's queue is a machine of its own (`Delivery`); in `Protocol` a secret sync may run at any time for any name that the informer filter lets through. Neither models users who edit target secrets.
- Handlers.EventHandler.Deliver: a deletion that is learned only from a new list arrives as a tombstone, which the label filter drops; the copy is then left to the cleaner. Notices in `Protocol` carry the deleted Ingress, so such a deletion is not one of them. A deletion whose notice is lost in a restart is left to the cleaner as well.
- The cleaner's annotation overwrite reads and writes in one step: the Ingress it writes back carries its resource version, so a change in between is a conflict, which counts as an API failure.
- Queue keys that cannot be parsed are handled in the code of the handlers; they do not occur in the machine, whose keys come from the API server.
- Foreign control objects that pass the informer filter are excluded from the initial state of a run (`Owned`); what happens to them is stated by `Clusters.CleanerDeletesForeign` and `Isolation.SecretsCollide`.
- A change of configuration between restarts; `Clusters.StaleAfterReconfiguration` shows what it breaks.
- Dirty.DirtyOrSyncedIff: says nothing of unlabelled target Ingresses, which a pending sync may still replicate because `Sync` does not look at the label; the cleaner removes the copy again.
- Clusters.CleanUpRemovesAll: an update deletes no secrets of removed TLS entries, so nothing is claimed about orphaned secrets of updated Ingresses.
- Kubernetes' nil and empty lists of hosts inside one TLS entry are identified; at the level of the TLS section nil and empty are told apart as in the code.
- A key of an event that has vanished fails and is retried for ever; nothing is claimed about that queue draining.
- The event recorder is a log of what it was told; texts, types and reasons of events are not modelled.
- Annotations.CreatedIsRecognised: the random ingress class, the issuer, the challenge type and the dummy rule host are constants of a run. The class is in fact drawn anew at every start, so after a restart an Ingress of the earlier broker keeps the class it had then unless the overwrite is on.
- Leader election, command line, kubeconfig, logging, crash handlers, and assertions on the dynamic type of an object.
