# PrometheusServer reconciliation engine, in Dafny

This project models the reconciliation engine of the prometheus-operator
(the `internal/` tree). The operator watches PrometheusServer custom
resources and walks each one through a phase lifecycle:

- Empty → Initializing → WaitingCreation → Running;
- Running → Reloading → WaitingRemoval → Initializing on a generation change;
- Terminating → Terminated once the object is marked for deletion.

It does this by creating and removing a fixed, ordered pipeline of
downstream resources and by writing the phase back to the object's status.

The model has these parts:

- **The cluster** (`apiserver.dfy`, module `Cluster`). This is the one
  external system every collaborator talks to. It holds:
  - the stored PrometheusServers;
  - which downstream resources exist, indexed by enforcer position;
  - which calls fail: `rejecting` makes object writes fail as a conflict would, and `failing` is a set of broken enforcer positions;
  - a write to an object the cluster no longer stores fails as NotFound and never re-creates it;
  - the ordered log of every call.

  Enforcers follow the uniform contract of the concrete enforcers:
  - creation is idempotent;
  - deleting a missing resource succeeds;
  - a missing resource reads as not created.
- **Collaborators.**
  - The generation cache (`generation.dfy`) is a `map` field updated in place. An absent key reads as 0.
  - The finalizer guard (`finalizer.dfy`) has the pure `HasFinalizer` and the `Remove` filter loop. Its `Ensure`, `Add` and `Remove` each make one store write.
  - The resource manager (`resource.dfy`) creates forwards and deletes backwards, with early return, and scans all-created or all-removed.
- **Use cases** (`create.dfy`, `reload.dfy`, `delete.dfy`). These are the state handlers of the phase machine.
- **The conciliator** (`conciliation.dfy`, with the handler values in `handlers.dfy`). It holds a phase → handler table that `Register` fills. `Conciliate` dispatches on the object's phase.
- **The operator** (`operator.dfy`). This is the per-key reconcile handler: `Update`, `Delete` and `updateStatus`.
- **The controller** (`controller.dfy`, with the work queue in `workqueue.dfy`). It has:
  - the informer callbacks and their resource-version filter;
  - `handle`, which routes a key to Update or Delete;
  - `processNextItem` with its retry policy: forget on success, requeue while fewer than 5 requeues were counted, drop otherwise;
  - the worker loop.

Every stateful Go object is a `class` whose methods change its fields.
Each method is proved equal to a pure step function over a snapshot of
the state (`ApiState`, the `World` of cluster plus generation cache, and
`QueueState`). The lemmas state the source's promises about those step
functions.

A handler in Go is a bound method value. Here it is the datatype
`StateHandler`, which holds the use-case object.

Phases are strings with named constants, as in the source. An unknown
phase is therefore any other string.

Three behaviours of the code are worth stating outright, because they
are easy to assume otherwise:

- `Update` returns an error when the lister does not find the object
  (`internal/service/operator.go:53-56`). It does not treat the object as
  already gone.
- `Add` appends the finalizer unconditionally
  (`internal/service/finalizer.go:44`). On an object that already has it,
  the list sent holds it twice, so a repeated `Add` is not a no-op.
- `Remove` writes the object even when the token is absent
  (`internal/service/finalizer.go:51-65`).

## Model

| member | source | states |
|---|---|---|
| Keys.SplitMetaNamespaceKeyRoundTrip | internal/operator/controller.go:121 | splitting the "namespace/name" key of an object whose namespace and name hold no '/' gives back that namespace and name |
| Keys.SplitMetaNamespaceKeyRejects | internal/operator/controller.go:121-124 | a key with two or more '/' does not split (the invalid-key path) |
| Keys.SplitJoin | internal/operator/controller.go:121 | splitting on '/' is the inverse of joining slash-free parts with '/' |
| Keys.Split | internal/operator/controller.go:121 | the parts are non-empty in number, slash-free, and join back to the key |
| Keys.SlotKeyInjective | internal/service/generation.go:23 | two "namespace/name" slot keys are equal only for the same pair, when the namespaces hold no '/' |
| Cluster.ApiServer.Update | internal/service/finalizer.go:45 | an object write is logged, fails as NotFound when the cluster no longer stores the object (never re-creating it), fails as a conflict when writes are rejected, and otherwise stores the object (removing it once it is marked for deletion and has no finalizer left) |
| Cluster.ApiServer.UpdateStatus | internal/service/operator.go:100 | a status write is logged, fails as NotFound when the cluster no longer stores the object (never re-creating it), fails as a conflict when writes are rejected, and otherwise stores the object |
| Cluster.WriteNeverRecreates | internal/service/finalizer.go:45 | an object or status write for an object the cluster does not store fails as NotFound and leaves the stored objects unchanged |
| Cluster.ApiServer.EnsureCreation | internal/service/resource.go:20 | an enforcer call is logged, fails on a failing position, and otherwise makes the resource exist (idempotent) |
| Cluster.ApiServer.EnsureDeletion | internal/service/resource.go:21 | an enforcer call is logged, fails on a failing position, and otherwise makes the resource absent (deleting a missing one succeeds) |
| Cluster.ApiServer.IsCreated | internal/service/resource.go:22 | an existence check is logged and reports whether the resource exists, or fails on a failing position |
| Generation.GenerationCache.constructor | internal/service/generation.go:14-17 | a new cache has no entries |
| Generation.LookupEmpty | internal/service/generation.go:20-28 | Get on a key never set reads 0 |
| Generation.GenerationCache.Set | internal/service/generation.go:31-37 | Set overwrites the "namespace/name" entry and Get then reads the value |
| Generation.LookupAfterSet | internal/service/generation.go:36 | Set overwrites unconditionally: it reads back, and the last of two writes wins |
| Generation.GenerationCache.Remove | internal/service/generation.go:40-46 | Remove deletes the entry and Get then reads 0 |
| Generation.LookupAfterRemove | internal/service/generation.go:45 | after Remove the key reads 0, and removing an absent key changes nothing |
| Generation.LookupOtherUnchanged | internal/service/generation.go:23-36 | Set and Remove on one (namespace, name) leave every other pair's reading unchanged when namespaces hold no '/' |
| Generation.SlotAliasing | internal/service/generation.go:23 | without that condition two pairs share a slot: ("a/b", "c") and ("a", "b/c") |
| Finalizers.Contains | internal/service/finalizer.go:68-79 | HasFinalizer holds exactly when the list contains the finalizer token (false on an empty list) |
| Finalizers.FilterOut | internal/service/finalizer.go:53-59 | the filter loop keeps exactly `Without(fs)`: the list with every token occurrence dropped |
| Finalizers.WithoutAppend | internal/service/finalizer.go:54-59 | filtering distributes over concatenation, so the kept entries stay in their original order |
| Finalizers.WithoutCounts | internal/service/finalizer.go:54-59 | the filtered list has the same entries with the same counts, except the token, whose count is 0 |
| Finalizers.DropsToken | internal/service/finalizer.go:54-59 | the token is gone and every other entry is kept |
| Finalizers.WithoutAbsent | internal/service/finalizer.go:54-59 | a list without the token is left as it is |
| Finalizers.WithoutIdempotent | internal/service/finalizer.go:54-59 | filtering twice is filtering once |
| Finalizers.Finalizer.constructor | internal/service/finalizer.go:24-26 | the finalizer guard writes through the given cluster |
| Finalizers.Finalizer.Add | internal/service/finalizer.go:41-48 | exactly one object write whose finalizer list is the old list with the token appended; its outcome is the write's |
| Finalizers.AddFinalizerSends | internal/service/finalizer.go:41-48 | that write is the one new call, it raises the token's count by one (twice present if it was present), it fails iff the cluster refuses the write (object gone, or conflict), with that refusal and nothing stored, and on success the stored object has the finalizer |
| Finalizers.Finalizer.Remove | internal/service/finalizer.go:51-65 | exactly one object write whose finalizer list is `Without` of the old one, even when the token was absent |
| Finalizers.RemoveFinalizerSends | internal/service/finalizer.go:51-65 | that write is the one new call, it changes nothing but the finalizers, it drops every token and keeps all other entries, and it fails iff the cluster refuses the write (object gone, or conflict), with that refusal and nothing stored |
| Finalizers.Finalizer.Ensure | internal/service/finalizer.go:29-38 | Ensure is a no-op when the finalizer is present, and otherwise an Add whose error is wrapped "unable to add finalizer" |
| Finalizers.EnsureFinalizerAddsOnce | internal/service/finalizer.go:29-38 | with the token present Ensure changes nothing and succeeds; without it, it makes exactly one write and fails iff the cluster refuses the write, with that refusal wrapped in "unable to add finalizer" |
| Resources.Resource.constructor | internal/service/resource.go:31-35 | the manager holds the given enforcers in registration order |
| Resources.Resource.CreateAll | internal/service/resource.go:48-58 | the forward loop computes `Creation`: EnsureCreation in registration order, stopping at the first failure |
| Resources.CreationFromCharacterized | internal/service/resource.go:51-55 | with k the first failing enforcer: exactly enforcers 0..k are called in order, those before k now exist and nothing is rolled back, and the error names enforcer k ("unable to ensure creation on") |
| Resources.Resource.DeleteAll | internal/service/resource.go:61-73 | the reverse loop computes `Deletion`: EnsureDeletion from the last enforcer down, stopping at the first failure |
| Resources.DeletionDownCharacterized | internal/service/resource.go:65-70 | with k the highest failing enforcer: exactly enforcers n-1 down to k are called, those above k are now absent, and the error names enforcer k (with the source's "creation" wording) |
| Resources.CreationSummary | internal/service/resource.go:48-58 | CreateAll fails exactly when some enforcer fails; the resources before the first failing one exist; only the call log and the existing resources change |
| Resources.DeletionSummary | internal/service/resource.go:61-73 | DeleteAll fails exactly when some enforcer fails; the resources above the last failing one are gone; only the call log and the existing resources change |
| Resources.Resource.AllResourcesExist | internal/service/resource.go:75-87 | the short-circuit scan computes `Existence` |
| Resources.ExistenceFromCharacterized | internal/service/resource.go:76-83 | the scan stops at the first enforcer that fails (false and a wrapped "creation check" error) or disagrees (false, no error); enforcers after it are not queried |
| Resources.Resource.AllCreated | internal/service/resource.go:38-40 | AllCreated is the existence scan with mustExist = true |
| Resources.AllCreatedIff | internal/service/resource.go:75-87 | AllCreated gives (true, nil) iff every enforcer reports existing without error (so true with no enforcers), and true only with nil |
| Resources.Resource.AllRemoved | internal/service/resource.go:43-45 | AllRemoved is the existence scan with mustExist = false |
| Resources.AllRemovedIff | internal/service/resource.go:43-45 | AllRemoved gives (true, nil) iff every enforcer reports absent without error (so true with no enforcers) |
| Resources.CreationThenAllCreated | internal/service/resource.go:48-58 | with no failing enforcer, CreateAll succeeds and AllCreated then holds |
| Resources.DeletionThenAllRemoved | internal/service/resource.go:61-73 | with no failing enforcer, DeleteAll succeeds and AllRemoved then holds |
| CreateUseCase.Creator.constructor | internal/service/usecase/create.go:15-20 | the creator holds the given finalizer guard and resource manager |
| CreateUseCase.Creator.Empty | internal/service/usecase/create.go:23-33 | the Empty handler computes `EmptyStep` on the cluster |
| CreateUseCase.EmptyStepOutcome | internal/service/usecase/create.go:23-33 | with the finalizer it returns Initializing and makes no call; without it, it makes exactly the Add write and returns the current phase, with the cluster's refusal (object gone, or conflict) iff it refuses the write |
| CreateUseCase.Creator.Initializing | internal/service/usecase/create.go:36-44 | the Initializing handler computes `InitializingStep` |
| CreateUseCase.InitializingStepOutcome | internal/service/usecase/create.go:36-44 | it succeeds iff no enforcer fails, returning WaitingCreation, and otherwise returns the current phase with the error; the resources before the first failure exist and the stored objects are untouched |
| CreateUseCase.Creator.WaitingCreation | internal/service/usecase/create.go:47-59 | the WaitingCreation handler computes `WaitingCreationStep` |
| CreateUseCase.WaitingCreationStepOutcome | internal/service/usecase/create.go:47-59 | Running when all resources exist; otherwise the current phase, with an error when a check fails and none when one is missing; the cluster changes only by the logged checks |
| ReloadUseCase.Reloader.constructor | internal/service/usecase/reload.go:16-21 | the reloader holds the given generation cache and resource manager |
| ReloadUseCase.Reloader.Running | internal/service/usecase/reload.go:24-34 | Running never fails, calls nothing (it modifies nothing), and returns `RunningNext` of the cached generation |
| ReloadUseCase.RunningNextStaysOrReloads | internal/service/usecase/reload.go:27-33 | it stays when the cached generation is 0 or equal to the object's, and returns Reloading whenever it is non-zero and differs, older or newer |
| ReloadUseCase.Reloader.Reloading | internal/service/usecase/reload.go:37-44 | the Reloading handler computes `ReloadingStep` |
| ReloadUseCase.ReloadingStepOutcome | internal/service/usecase/reload.go:37-44 | WaitingRemoval iff DeleteAll succeeds, otherwise the current phase with the error; the resources above the failure are removed and the stored objects are untouched |
| ReloadUseCase.Reloader.WaitingRemoval | internal/service/usecase/reload.go:47-59 | the WaitingRemoval handler computes `WaitingRemovalStep` |
| ReloadUseCase.WaitingRemovalStepOutcome | internal/service/usecase/reload.go:47-59 | Initializing when all resources are absent; otherwise the current phase, with an error when a check fails and none when one remains |
| DeleteUseCase.Deleter.constructor | internal/service/usecase/delete.go:16-21 | the deleter holds the given finalizer guard and resource manager |
| DeleteUseCase.Deleter.Terminating | internal/service/usecase/delete.go:24-37 | the Terminating handler computes `TerminatingStep` |
| DeleteUseCase.TerminatingStepOutcome | internal/service/usecase/delete.go:24-37 | a failed DeleteAll returns the current phase with its error and leaves the finalizer alone; after a successful one, no finalizer means Terminated with no Remove; otherwise exactly one Remove write, then Terminated, or when the cluster refuses the write the current phase with that refusal wrapped in "unable to removing finalizer" |
| Handlers.Invoke | internal/service/conciliation.go:47 | calling a registered handler value runs the use-case method it is bound to |
| Handlers.HandlerTablesPartitionPhases | internal/service/usecase/delete.go:40-44 | the creator maps exactly Empty, Initializing and WaitingCreation, the reloader exactly Running, Reloading and WaitingRemoval, and the deleter exactly Terminating; the three are pairwise disjoint and cover every phase but Terminated (the other two tables are at internal/service/usecase/create.go:61-67 and internal/service/usecase/reload.go:62-68) |
| Handlers.HandlerStaysOrAdvances | internal/service/usecase/create.go:23-59 | every handler returns its phase or that phase's one successor, and on error always its phase |
| Conciliation.Conciliator.constructor | internal/service/conciliation.go:23-27 | a new conciliator has an empty table |
| Conciliation.FreshConciliatorFails | internal/service/conciliation.go:23-27 | with an empty table Conciliate fails for every phase and calls nothing |
| Conciliation.Conciliator.Register | internal/service/conciliation.go:30-35 | the loop over the handler map leaves the table as the old one overridden by the new handlers |
| Conciliation.RegisterOverwrites | internal/service/conciliation.go:30-35 | after Register every phase the use case names maps to its handler (a later Register overwrites), and every other phase keeps its entry or stays absent |
| Conciliation.Conciliator.Conciliate | internal/service/conciliation.go:38-54 | Conciliate computes `ConciliateStep` and, modifying only the cluster, never changes its table |
| Conciliation.ConciliateUnknownPhase | internal/service/conciliation.go:39-43 | an unregistered phase gives that phase and a "no handler" error, with no call |
| Conciliation.ConciliateDelegates | internal/service/conciliation.go:45-53 | a registered handler runs once; on success its result is returned exactly, and on failure the current phase is returned with the handler's error wrapped |
| Conciliation.RegisteredStaysOrAdvances | internal/service/conciliation.go:38-54 | with all three use cases registered, every known phase stays or advances to its successor, an error never moves it, and Terminated has no handler |
| Operator.Operator.constructor | internal/service/operator.go:40-47 | the operator holds its lister, client, generation cache and conciliator |
| Operator.Operator.Update | internal/service/operator.go:50-83 | Update computes `UpdateStep` on the cluster and the generation cache |
| Operator.UpdateRecordsGeneration | internal/service/operator.go:53-59 | a lister miss fails with not-found and changes nothing; after a hit the object's generation is recorded on every exit, errors included, and no other slot of the cache changes |
| Operator.UpdatePreemptsToTerminating | internal/service/operator.go:61-66 | a deletion-marked object not in Terminating gets exactly one status write, to Terminating, that fails exactly when the cluster refuses it, and no handler runs |
| Operator.StaleListerCannotRecreate | internal/service/operator.go:61-66 | when the lister still holds a deletion-marked object the cluster has removed, the Terminating write fails as NotFound, wrapped, and the cluster's objects are unchanged |
| Operator.UpdateWritesStatusOnChange | internal/service/operator.go:68-82 | otherwise a conciliator error is returned wrapped with no status write; an unchanged or Terminated phase writes no status and returns nil; any other phase is written exactly once, last, stored as the cluster stores a status write, and Update fails exactly when the cluster refuses that write |
| Operator.HandleWritesNoStatus | internal/service/operator.go:95-102 | handlers only append calls and never write a status; status writes are the operator's alone |
| Operator.UpdateWritesOnlyProgress | internal/service/operator.go:50-83 | with the three use cases registered, Update writes at most one status, as its last call, and it is Terminating or the phase's successor |
| Operator.Operator.Delete | internal/service/operator.go:86-93 | Delete computes `DeleteStep` |
| Operator.DeleteForgetsGeneration | internal/service/operator.go:86-93 | Delete always succeeds, leaves the cluster alone, makes the generation read 0 and removes only that slot from the cache |
| Operator.Operator.UpdateStatus | internal/service/operator.go:95-102 | updateStatus writes a copy of the object with only the phase replaced |
| Operator.UpdateAddsFinalizer | internal/service/usecase/create.go:25-29 | Update on an Empty object without the finalizer writes it and keeps the phase |
| Operator.UpdateStartsInitializing | internal/service/usecase/create.go:32 | Update on an Empty object with the finalizer moves it to Initializing |
| Operator.UpdateCreatesResources | internal/service/usecase/create.go:36-44 | Update on Initializing creates every resource in order and moves to WaitingCreation |
| Operator.UpdateReachesRunning | internal/service/usecase/create.go:47-59 | Update on WaitingCreation with everything present moves to Running and records the generation |
| Operator.UpdateKeepsRunning | internal/service/usecase/reload.go:27-31 | Update on Running with a cold or current cache writes nothing |
| Operator.UpdateReloadsOnNewGeneration | internal/service/usecase/reload.go:29-33 | Update on Running with a stale recorded generation moves to Reloading |
| Operator.UpdateTerminatesRunning | internal/service/operator.go:61-66 | a deletion-marked Running object moves to Terminating |
| Operator.FreshObjectReachesRunning | internal/service/operator.go:50-83 | with everything succeeding, a fresh object goes through four Update calls: the first adds the finalizer, the next three move it to Initializing, WaitingCreation and Running, and it then stays Running |
| Controller.UpdateKeyFilters | internal/operator/controller.go:46-63 | the update callback enqueues exactly when both objects are PrometheusServers with different resource versions, and then the new object's key |
| Controller.Controller.OnUpdate | internal/operator/controller.go:46-63 | the queue changes by exactly that key, or not at all |
| Controller.Controller.EnqueuePrometheusServer | internal/operator/controller.go:139-147 | the object's namespace/name key (or a tombstone's key) is added, and nothing is added when no key can be derived |
| Controller.Controller.OnAdd | internal/operator/controller.go:43-45 | the add callback enqueues the object's key |
| Controller.Controller.OnDelete | internal/operator/controller.go:64-66 | the delete callback enqueues the object's or tombstone's key |
| Controller.Controller.Handle | internal/operator/controller.go:119-137 | handle computes `HandleStep` |
| Controller.HandleRoutesByKey | internal/operator/controller.go:126-136 | an object's key calls Update when cached and Delete when not, never both, with that object's namespace and name |
| Controller.HandleRejectsInvalidKey | internal/operator/controller.go:121-124 | a key with more than one '/' is an invalid-key error that changes nothing and calls no handler |
| Controller.Controller.ProcessNextItem | internal/operator/controller.go:92-117 | one worker step computes `ProcessNextStep`, returning false only when the queue reports shutdown, and keeps the queue coherent |
| Controller.AttemptOutcome | internal/operator/controller.go:100-116 | success forgets the key (count 0); failure below maxRetries requeues it with its count raised by one; failure at maxRetries or more drops it with its count reset; the key is Done exactly once |
| Controller.AlwaysFailingKeyHandledSixTimes | internal/operator/controller.go:18 | a key whose handling fails in every world is handled by exactly maxRetries + 1 = 6 processNextItem calls, then dropped |
| Controller.WorkerRunsOnFailingKey | internal/operator/controller.go:92-117 | from r counted requeues, processNextItem handles a key whose handling always fails maxRetries + 1 - r more times before the queue is empty |
| Controller.InvalidKeyHandledSixTimes | internal/operator/controller.go:119-124 | a key with two '/' is such a key: the worker handles it six times, then drops it |
| Controller.Controller.RunWorker | internal/operator/controller.go:86-90 | the worker loop keeps the controller valid, stops on its own only when the queue reports shutdown, and leaves the queue, cluster and generation cache of WorkerLoop: processNextItem repeated until it returns false |
| Controller.WorkerLoopStops | internal/operator/controller.go:86-97 | the worker loop keeps the queue coherent and ends by shutdown only on a shutting-down queue with nothing waiting |
| Controller.WorkerLoopDropsFailingKey | internal/operator/controller.go:86-117 | the worker loop drains a queue holding only an always-failing key: the key is dropped with its count reset, and the loop ends without shutdown |
| WorkQueue.Queue.constructor | internal/operator/controller.go:38 | a new queue is empty |
| WorkQueue.EmptyCoherent | internal/operator/controller.go:38 | the empty queue is coherent: every waiting key is dirty and not processing, none waits twice, and every dirty idle key waits |
| WorkQueue.Queue.Add | internal/operator/controller.go:146 | Add computes `AfterAdd` |
| WorkQueue.AddCoherent | internal/operator/controller.go:146 | Add keeps coherence, never queues a key twice, and holds back a key that is processing |
| WorkQueue.Queue.Get | internal/operator/controller.go:93-97 | Get reports shutdown iff nothing is waiting, and otherwise hands out the head |
| WorkQueue.GetCoherent | internal/operator/controller.go:93 | the handed-out key is processing and neither waiting nor dirty |
| WorkQueue.Queue.Done | internal/operator/controller.go:98 | Done computes `AfterDone` |
| WorkQueue.DoneCoherent | internal/operator/controller.go:98 | Done keeps coherence and redelivers a key that was re-added while processing |
| WorkQueue.Queue.Forget | internal/operator/controller.go:102 | Forget computes `AfterForget` |
| WorkQueue.Queue.AddRateLimited | internal/operator/controller.go:108 | AddRateLimited computes `AfterAddRateLimited` |
| WorkQueue.RequeueCounting | internal/operator/controller.go:106-113 | Forget resets a key's count, AddRateLimited raises it by exactly one, and other keys' counts do not change |
| WorkQueue.Queue.ShutDown | internal/operator/controller.go:93-97 | ShutDown marks the queue shutting down, so that Get on an empty queue reports shutdown |

## Left out

- Concrete enforcers (`internal/service/resource/*.go`) are not part of this model. Each is the abstract enforcer slot of `Cluster`, with the idempotent create/delete/check contract. Their names are parameters (`Resources.Resource.builders`). The concrete enforcers answer `IsCreated` from an informer lister (`internal/service/resource/deployment.go:80-81`); the model reads the cluster's `present` set directly, so a lister lagging behind a creation or deletion is not modelled, and `CreationThenAllCreated` and `DeletionThenAllRemoved` hold only for listers in sync.
- `Controller.Run` (`internal/operator/controller.go:72-84`) is left out: concurrency and timing. This covers the worker goroutines, `wait.UntilWithContext`, `WaitForCacheSync` and the RWMutex in the generation cache. The model runs one sequential worker.
- Controller.Controller.RunWorker: it is bounded by a fuel count. Where Get would block on an empty queue, it returns instead of waiting.
- WorkQueue.Queue.AddRateLimited: the backoff delay is not modelled. A rate-limited add is an immediate add that raises the count.
- The work queue and the key functions are client-go code, outside the program's own source. They are modelled from client-go's documented semantics, not from client-go's implementation.
- `handle`'s `GetByKey` error path (`internal/operator/controller.go:126-129`) is left out. The informer's indexer is a map, and a lookup in it cannot fail.
- Generations are unbounded integers. int64 overflow is not modelled.
- Write conflicts are a single flag (`rejecting`). Resource-version bookkeeping in the store is not modelled.
- The lister and the informer read the same indexer. In the single-step Update lemmas it is taken to agree with the stored objects, so informer lag is not modelled.
- Cluster.ApiServer.UpdateStatus: a status write stores the whole object. Status-subresource rules that ignore spec changes are not modelled.
- Logging, Prometheus counters and `dumpDifference` are left out: side effects only.
- The legacy `pkg/` reconcile tree, the CRD clients and bootstrap, and the CLI are left out. They are outside the engine.
- The recorder argument seen in the use-case tests is left out. The constructors take two arguments.
- The `context.Context` parameters are left out. Cancellation is not modelled.
- Error values are structured (`Outcomes.Error`). They keep the source's context strings but not the `%v`/`%w` formatting of the messages.
- A cluster-scoped object (empty namespace) has the indexer key `name`. The lister looks it up as `/name`, so `Update` reports it as not found. PrometheusServer is namespaced, so this case does not arise in practice.
