# Kubelet core: model and proofs

A Dafny model of the parts of this kubelet in which several operations have to keep a promise together, with proofs
of those promises. `dafny verify dfyconfig.toml` checks the project.

**Pod workers** (`pod_worker_*.dfy`, `pod_workers.dfy`). One goroutine per pod UID, fed through a channel of capacity
one, with a slot for the last undelivered update, a `working` flag, one-way lifecycle stages and a start queue for
static pods. `PodWorkerModel` gives every region that runs under `podLock` as a function on the shared maps;
operations of the Go runtime that would panic or block for ever leave a mark in `faults`. `PodWorkerSteps` turns the
regions into a transition system in which every goroutine has a program counter, and the calls into the kubelet
return anything. `PodWorkerSlot` and `PodWorkerRefine` project a step onto the one UID it is about; the invariant and
all theorems rest on that projection. `PodWorkers.Workers` is the same component as an object with mutable maps; its
methods are tied to the functions of `PodWorkerModel`.

**Pod configuration** (`config*.dfy`). Snapshots and deltas from several sources become ADD, UPDATE, DELETE, REMOVE
and RECONCILE messages in the incremental mode.

**Blocking status cache** (`cache.dfy`). Subscriptions that wait for a status newer than a time.

**Status derivation** (`container_statuses.dfy`, `pod_phase.dfy`, `pod_conditions.dfy`, `pod_status*.dfy`,
`status_order.dfy`). From what the runtime reports and the status known before to container statuses, phase and
conditions.

**Status manager** (`status_*.dfy`). A versioned cache with a guard against regressions, normalisation, the merge with
the API server's status, and the bookkeeping of the versions sent.

**Referenced objects** (`reference_counts.dfy`, `object_stores.dfy`). Reference counts of the objects registered pods
mention, for the store whose objects expire and the store that watches them.

## How the model reads the code

- Times are naturals in nanoseconds with 0 for the unset time; steps that read the clock take the reading as a
  parameter.
- The order in which Go ranges over a map is a parameter, or chosen arbitrarily by a loop; nothing depends on it
  unless a contract says so.
- Results of calls into the rest of the kubelet, the runtime and the API server are parameters or events.
- Container names are assumed to be distinct only where a contract says so. The API server validates that.
- A completion channel is handed to the workers at most once: it is neither closed nor waiting when it comes.

## Where the code and its documentation differ

The model follows the code.

- A completion channel "is never left open once CouldHaveRunningContainers() returns false"
  (pkg/core/pod_worker.go:32-36). `PodWorkerCompletion.PromiseKeptIff` and `DroppedIsNeverClosed` say exactly when it
  is kept; `PromiseBroken` and `PodWorkerExamples.OrphanEndsOpen` are runs in which it is not.
- "The grace period can only decrease" (pkg/core/pod_worker.go:647). A request for exactly 0 counts as unset, and a
  longer value can take its place: `PodWorkerGrace.GrowsIff`.
- syncPod is said not to run again once termination has started (pkg/core/pod_worker.go:477-478). An update that is
  not static and asks a static pod to stop that waits for its turn and has an undelivered item breaks this, and
  no other update does: `PodWorkerOvertaking.SafeIffNotOvertaking`. A kill by what the runtime knows carries no
  source annotation, so it counts as not static.
- A static pod is said to start only when no other static pod of its full name has started
  (pkg/core/pod_worker.go:832-834). allowPodStart asks about the item at hand, not about the worker, so an item that is
  not static starts a waiting static pod without asking: `PodWorkerExclusion.ExclusionIffNotSlipped`.
- SyncKnownPods is said to return "known workers that are not finished" (pkg/core/pod_worker.go:1235-1237); it returns
  the finished ones too.
- The branch of completeSync that calls itself a likely programmer error (pkg/core/pod_worker.go:1060) is reachable by
  an ordinary race.

## Model

| member | source | states |
|---|---|---|
| `PodWorkerTheorems.ChannelProtocol` | pkg/core/pod_worker.go:709-747 | in every interleaving no send made under the lock blocks or hits a nil or closed channel, no update channel or completion channel is closed twice, no missing status is dereferenced; every known unfinished pod has exactly one goroutine, at most one item is buffered or in its hands, and `working` is set exactly when there is one |
| `PodWorkerInvariant.StepPreserves` | pkg/core/pod_worker.go:361-384 | every step of every goroutine, every update and every housekeeping keeps the global invariant over maps, channels, program counters and stages |
| `PodWorkerInvariant.RunPreserves` | pkg/core/pod_worker.go:876-1021 | the invariant holds after every run of admissible steps |
| `PodWorkerRefine.WorkerRefines` | pkg/core/pod_worker.go:876-1021 | a goroutine's step changes the slot of its own UID by the small step of that slot, and no other slot |
| `PodWorkerRefine.UpdateRefines` | pkg/core/pod_worker.go:545-767 | an update changes the slot of its own UID as the slot function says, and no other slot |
| `PodWorkerInvariant.HousekeepExact` | pkg/core/pod_worker.go:1238-1297 | housekeeping, in whatever order it visits the pods, forgets exactly the finished ones that are undesired or have to restart, and changes nothing else of the protocol |
| `PodWorkerTheorems.StageOrder` | pkg/core/pod_worker.go:233-262 | in every reachable state finished implies terminated, terminated implies terminating, and having started to terminate implies terminating |
| `PodWorkerTheorems.StagesOnlyAdvance` | pkg/core/pod_worker.go:1026-1181 | no step takes back a stage or changes the time at which it was reached; only the purge of a finished pod forgets it |
| `PodWorkerTheorems.NoProgrammerErrors` | pkg/core/pod_worker.go:1077-1181 | the branches that log a programmer error in completeTerminating, completeTerminatingRuntimePod, completeTerminated and completeUnstartedTerminated are unreachable |
| `PodWorkerEdges.SettingTwiceIsReachable` | pkg/core/pod_worker.go:1056-1062 | the one such branch in completeSync is reachable: a kill can come while the syncPod that ends the pod runs |
| `PodWorkerEdges.UnstartedNeverTerminates` | pkg/core/pod_worker.go:1158-1181 | in every run, a static pod given up before it started is finished and terminated although its worker never started to terminate it |
| `PodWorkerTheorems.RunningContainerSafety` | pkg/core/pod_worker.go:451-495 | while syncPod or syncTerminatingPod runs for a pod, it could have running containers, its runtime must not be removed and no housekeeping can forget it |
| `PodWorkerTheorems.NothingRunsOnceTerminated` | pkg/core/pod_worker.go:441-495 | a pod that is known to have terminated has neither syncPod nor syncTerminatingPod running, then or in any later state that still knows it, and it stays without running containers |
| `PodWorkerTheorems.PurgeExact` | pkg/core/pod_worker.go:1273-1297 | SyncKnownPods removes exactly the finished pods that are undesired or have restartRequested; all other statuses, channels and undelivered items stay as they are |
| `PodWorkerLifecycle.TerminatedIsTheEnd` | pkg/core/pod_worker.go:117-126 | in every run, nothing but syncTerminatedPod begins for an incarnation of a UID after a syncTerminatedPod, a successful syncTerminatingPod comes before it, and no goroutine is left for a finished pod |
| `PodWorkerLifecycle.LifecycleLanguage` | pkg/core/pod_worker.go:117-126 | while no update that asks its pod to stop overtakes an undelivered one, the calls made for one incarnation are Sync* Terminating* Terminated*: no syncPod begins after a syncTerminatingPod either |
| `PodWorkerLifecycle.NoSyncWhileTerminating` | pkg/core/pod_worker.go:473-484 | in such runs syncPod is not running for a pod whose containers should be terminating |
| `PodWorkerLifecycle.SetUpIsOver` | pkg/core/pod_worker.go:239-243 | in such runs, once a worker has started to terminate its pod, no later state that still knows the pod has syncPod running for it |
| `PodWorkerOvertaking.SafeIffNotOvertaking` | pkg/core/pod_worker.go:743-760 | any update can lead to syncPod running for a terminating pod if and only if it asks the pod to stop and overtakes: it is not static, and an idle worker still has an undelivered item |
| `PodWorkerOvertaking.OvertakingDisagrees` | pkg/core/pod_worker.go:821-824 | overtaking needs two updates of one incarnation that disagree on whether the pod is static |
| `PodWorkerOvertaking.OvertakingHappens` | pkg/core/pod_worker.go:545-563 | it does happen: a reachable state with two static pods of one name, and the kill of one of them by what the runtime knows |
| `PodWorkerStatic.StaticExclusion` | pkg/core/pod_worker.go:832-863 | from the moment allowPodStart lets a static pod start until that pod has finished, it lets no other pod of the same full name start |
| `PodWorkerStatic.NoWaitingPodDropped` | pkg/core/pod_worker.go:718-722 | in every reachable state a static pod that waits and was not asked to stop is in the queue of its name |
| `PodWorkerStatic.StartsInOrder` | pkg/core/pod_worker.go:838-861 | the pod that takes a free name is the first entry of the queue that is still known and not asked to stop, and the entries behind it stay |
| `PodWorkerExclusion.StaticMutualExclusion` | pkg/core/pod_worker.go:805-830 | as long as no update hands an item that is not static to the idle worker of a static pod that has not started, no two static pods of one full name are past their start at the same time |
| `PodWorkerExclusion.ExclusionIffNotSlipped` | pkg/core/pod_worker.go:805-812 | any update can lead to two started static pods of one full name if and only if it hands such an item to such a worker: that pod starts without asking, and whoever holds the name, or a new pod of that name, starts as well |
| `PodWorkerExclusion.SlippingHappens` | pkg/core/pod_worker.go:545-563 | it does happen: in a reachable state with two static pods of one name, the one that waits is killed by what the runtime knows |
| `PodWorkerGrace.GrowsIff` | pkg/core/pod_worker.go:771-799 | the effective grace period is at least 1, and grows if and only if an override of exactly 0 is replaced by a longer value |
| `PodWorkerGrace.ShortenedIff` | pkg/core/pod_worker.go:771-799 | the shortened flag means a strict decrease of a period in force exactly when no zero makes the period grow |
| `PodWorkerGrace.GraceCanGrow` | pkg/core/pod_worker.go:773-787 | a period of 30 becomes 60 when the deletion asks for 0 and the kill for 60 |
| `PodWorkerGrace.GraceIsMinimum` | pkg/core/pod_worker.go:682-688 | without zero overrides the period is the greater of 1 and the least of what the first request offers and all later overrides |
| `PodWorkerGrace.GracePeriodOverRuns` | pkg/core/pod_worker.go:669-688 | the same over every run: the period is unset until an update finds the pod terminating, at least 1 from then on, and that minimum of the requests registered since |
| `PodWorkerGrace.InterruptsIff` | pkg/core/pod_worker.go:762-766 | the running call is cancelled exactly when the update makes the pod terminate or shortens the period of a busy worker, and the queued item carries the period in force |
| `PodWorkerCompletion.ChannelFate` | pkg/core/pod_worker.go:650-700 | the completion channel of a request waits with its pod, is closed at once, or is dropped, each in exactly one case |
| `PodWorkerCompletion.WaitsUntilTerminated` | pkg/core/pod_worker.go:1077-1093 | a waiting channel stays open and registered until the step that sets terminatedAt after syncTerminatingPod, which closes all that wait, or until housekeeping forgets the pod |
| `PodWorkerCompletion.NoneRegisteredAfterwards` | pkg/core/pod_worker.go:266-269 | no channel is registered for a terminated pod |
| `PodWorkerCompletion.PromiseKeptIff` | pkg/core/pod_worker.go:32-36 | when a pod becomes terminated, no channel of it is left open if and only if none waited or the step is the one after syncTerminatingPod of a configured pod |
| `PodWorkerExamples.OrphanEndsOpen` | pkg/core/pod_worker.go:1108-1128 | a run in which an orphan is torn down successfully and the channel that waits for it stays open |
| `PodWorkerCompletion.DroppedIsNeverClosed` | pkg/core/pod_worker.go:603-615 | the channel of a request that is ignored, only asks for a restart, finds the pod finished or is about the orphan of a terminated pod is never closed, however the run goes on |
| `PodWorkerCompletion.PromiseBroken` | pkg/core/pod_worker.go:579-615 | the documented promise fails in the first step of a run: a pod that had failed before is finished at once, and the channel of the kill stays open |
| `PodWorkerConflation.NewestSurvives` | pkg/core/pod_worker.go:742-760 | in the sync phase of a pod that was not static, what its worker has taken or will get is a subsequence of the accepted updates in order of arrival, ends with the latest, and carries the earliest start times; an idle worker has taken the latest |
| `PodWorkerConflation.ConflationKeeps` | pkg/core/pod_worker.go:750-760 | replacing undelivered items block by block keeps the order, the latest update and the earliest nonzero start time of each block |
| `PodWorkers.StatusCacheTerminal` | pkg/core/pod_worker.go:526-540 | a cached status is terminal exactly when no container runs and no sandbox is ready |
| `PodWorkers.CalculateEffectiveGracePeriod` | pkg/core/pod_worker.go:771-799 | computes the effective grace period and the shortened flag of the specification, and never less than 1 |
| `PodWorkers.Workers.constructor` | pkg/core/pod_worker.go:413-439 | new workers know nothing |
| `PodWorkers.Workers.UpdatePod` | pkg/core/pod_worker.go:545-767 | the whole state after an update, for configured pods and orphans, known and unknown, in every stage |
| `PodWorkers.Workers.ObservePod` | pkg/core/pod_worker.go:571-596 | the known status, or the first one, which is finished at once when the pod ended before the kubelet started |
| `PodWorkers.Workers.CheckTermination` | pkg/core/pod_worker.go:617-645 | the transition to terminating and its reason: orphan, deletion, terminal phase, kill |
| `PodWorkers.Workers.RegisterRequest` | pkg/core/pod_worker.go:669-688 | a kill of a terminating pod is registered with its channel, its status function and the effective grace period |
| `PodWorkers.Workers.QueueWork` | pkg/core/pod_worker.go:647-767 | which work an update leads to in each stage, and what becomes of its kill options |
| `PodWorkers.Workers.EnsureWorker` | pkg/core/pod_worker.go:708-740 | a pod without a worker gets a channel, and joins the start queue of its name if it is static |
| `PodWorkers.Workers.DispatchWork` | pkg/core/pod_worker.go:742-767 | idle workers get the work through the channel; busy ones through the undelivered slot, with the earlier start time, and are interrupted if need be |
| `PodWorkers.Workers.AllowStaticPodStart` | pkg/core/pod_worker.go:832-863 | who may start under a full name, and the queue that remains |
| `PodWorkers.Workers.AllowPodStart` | pkg/core/pod_worker.go:805-827 | non-static pods always start; a static pod starts, waits and becomes idle, or never starts |
| `PodWorkers.Workers.ContextForWorker` | pkg/core/pod_worker.go:1219-1232 | a missing or cancelled context is replaced by a live one |
| `PodWorkers.Workers.AcknowledgeTerminating` | pkg/core/pod_worker.go:1026-1044 | records that termination has started and returns the last status function registered |
| `PodWorkers.Workers.CompleteSync` | pkg/core/pod_worker.go:1050-1071 | terminating begins now unless it was requested before, and terminating work replaces whatever was undelivered |
| `PodWorkers.Workers.CompleteTerminating` | pkg/core/pod_worker.go:1077-1101 | the pod is terminated, all its completion channels are closed, and terminated work is queued |
| `PodWorkers.Workers.CompleteTerminatingRuntimePod` | pkg/core/pod_worker.go:1108-1128 | an orphan is terminated and finished, its name is released and its channel closed |
| `PodWorkers.Workers.CompleteTerminated` | pkg/core/pod_worker.go:1132-1154 | a terminated pod is finished, its name is released and its channel closed |
| `PodWorkers.Workers.CompleteUnstartedTerminated` | pkg/core/pod_worker.go:1158-1181 | a pod that never started is terminated and finished, its name is released and its channel closed |
| `PodWorkers.Workers.CompleteWorkQueueNext` | pkg/core/pod_worker.go:1205-1214 | the undelivered item is sent to the worker, or the worker becomes idle |
| `PodWorkers.Workers.CleanupUpdates` | pkg/core/pod_worker.go:1303-1309 | the update channel is closed and forgotten together with the undelivered item |
| `PodWorkers.Workers.RemoveTerminatedWorker` | pkg/core/pod_worker.go:1273-1297 | forgets a finished pod and nothing else |
| `PodWorkers.Workers.SyncKnownPods` | pkg/core/pod_worker.go:1238-1267 | purges as housekeeping does in some order of the known pods, and reports the stage that every pod known before the call had reached |
| `PodWorkers.Workers.IsPodForMirrorPodTerminatingByFullName` | pkg/core/pod_worker.go:508-524 | true exactly when a started static pod of the name is terminating |
| `PodConfig.StreamRebuildsStore` | pkg/kubelet/config/config.go:134-166 | over any run of updates from any sources, a listener that starts with nothing and takes the delivered messages one by one holds exactly the stored pods of every source; no assumption on UIDs |
| `PodConfig.ChangesReplay` | pkg/kubelet/config/config.go:193-289 | the five lists of one merge turn the pods stored for the source into the new ones |
| `PodConfig.DeliveredReplays` | pkg/kubelet/config/config.go:142-166 | the messages in their order do what the five lists say, and an empty list or an empty ADD changes nothing |
| `PodConfigChanges.ReportsInOrder` | pkg/kubelet/config/config.go:209-275 | for every operation, the lists hold the mentions of the update in order, each reported as what it changes against the mention before it or the stored pod, and the removed pods are those a snapshot misses or a REMOVE names, each once |
| `PodConfigChanges.ReportsExactly` | pkg/kubelet/config/config.go:209-234 | with distinct UIDs every pod is in at most one list, once, and is reported as it differs from the stored one |
| `PodConfigChanges.ListsAreDisjoint` | pkg/kubelet/config/config.go:397-441 | no pod is in two of the five lists if and only if all reported mentions of a UID are reported alike; pods are told apart by full name only, so one UID can be mentioned twice |
| `PodConfigChanges.ReportedOnceIff` | pkg/kubelet/config/config.go:303-319 | every pod is in at most one list, and there once, if and only if of the mentions of a UID at most one is reported |
| `PodConfigChanges.RepeatedSnapshot` | pkg/kubelet/config/config.go:261-275 | repeating a SET reports nothing if and only if its pods of one UID do not contradict each other |
| `PodConfigChanges.CheckMakesSame` | pkg/kubelet/config/config.go:403-441 | the stored pod takes over all that matters of the update, and something is asked for exactly when something mattered |
| `PodConfigChanges.MergeKeepsFirstSeen` | pkg/kubelet/config/config.go:421-430 | a merge keeps the first-seen time and the source of every pod that stays stored |
| `PodConfigChanges.FirstSeenSurvives` | pkg/kubelet/config/config.go:366-384 | from every state the storage can get into, the first-seen time survives every run in which the pod stays stored |
| `PodConfigStorage.PodStorage.Merge` | pkg/kubelet/config/config.go:134-166 | the new store, and the messages delivered in order, with the empty ADD that announces a source |
| `PodConfigStorage.PodStorage.MergeChange` | pkg/kubelet/config/config.go:193-289 | the new store and the five lists, for every operation |
| `PodConfigStorage.PodStorage.UpdatePod` | pkg/kubelet/config/config.go:213-233 | what one pod of an update does to the store and the lists, pods in the lists being shared with the store |
| `PodConfigStorage.FilterInvalid` | pkg/kubelet/config/config.go:303-319 | keeps the first pod of each full name, so that names are distinct and none is lost |
| `PodConfigStorage.IsAnnotationMapEqual` | pkg/kubelet/config/config.go:340-363 | true exactly when the maps agree on all keys that are not the kubelet's own |
| `PodConfigStorage.UpdateAnnotations` | pkg/kubelet/config/config.go:373-384 | the annotations of the update, overridden by the stored pod's local ones |
| `PodConfigStorage.CheckPod` | pkg/kubelet/config/config.go:403-441 | the stored pod after the update, and the need it causes |
| `StatusCache.NobodyWaitsInVain` | pkg/kubelet/container/cache.go:127-183 | in every reachable state exactly the unanswered requests are parked, nothing new enough for them is in the cache, no channel was sent to while full, twice or after closing, and none was closed twice |
| `StatusCache.WaitsIff` | pkg/kubelet/container/cache.go:147-168 | a parked request goes on waiting exactly as long as no Set of its UID and no UpdateTime comes at or after the time it asks for |
| `StatusCache.AnswersAreFresh` | pkg/kubelet/container/cache.go:147-183 | an answer is given once, is what the cache holds at that moment, and is backed by an entry time or global time at or after the one asked for |
| `StatusCache.StepIs` | pkg/kubelet/container/cache.go:81-105 | each operation answers exactly the requests it wakes, with what is stored then, and parks its own request exactly when nothing is new enough |
| `StatusCache.GetIsLastSet` | pkg/kubelet/container/cache.go:67-72 | in every reachable state Get returns what was last set for the pod and not deleted since, or the empty status of its UID |
| `StatusCacheObject.PodCache.IfNewerThan` | pkg/kubelet/container/cache.go:127-143 | data is returned exactly when the entry or the whole cache is newer than the time |
| `StatusCacheObject.PodCache.NotifyPod` | pkg/kubelet/container/cache.go:147-168 | answers and closes the channels of the records that are due and keeps the others in order |
| `StatusCacheObject.PodCache.Set` | pkg/kubelet/container/cache.go:81-86 | stores the entry, then notifies with its time |
| `StatusCacheObject.PodCache.UpdateTime` | pkg/kubelet/container/cache.go:97-105 | sets the global time, then notifies every UID that has subscribers |
| `StatusCacheObject.PodCache.Delete` | pkg/kubelet/container/cache.go:89-93 | removes the entry and notifies nobody |
| `StatusCacheObject.PodCache.Subscribe` | pkg/kubelet/container/cache.go:170-183 | a new channel that holds the data at once or is parked |
| `ReferenceCounts.RegisterConserves` | pkg/kubelet/util/manager/cache_based_manager.go:148-169 | registering a pod, in place of a previous version or not, leaves every count equal to the number of registered pods that mention the object |
| `ReferenceCounts.UnregisterConserves` | pkg/kubelet/util/manager/cache_based_manager.go:171-183 | so does unregistering |
| `ReferenceCounts.RegisteringTwice` | pkg/kubelet/util/manager/cache_based_manager.go:148-169 | registering the same pod twice changes no count |
| `ReferenceCounts.CountsDetermined` | pkg/kubelet/util/manager/cache_based_manager.go:134-142 | the registered pods determine the counts, whatever the order of the calls |
| `ReferenceCounts.KeptIffMentioned` | pkg/kubelet/util/manager/cache_based_manager.go:88-100 | an object has a key exactly while some registered pod mentions it |
| `ReferenceCounts.NeverDropped` | pkg/kubelet/util/manager/cache_based_manager.go:159-167 | an object that both versions of a pod mention has its key at every moment of a re-registration, while references are added and while the old ones are deleted |
| `ObjectStores.ObjectStore.AddReference` | pkg/kubelet/util/manager/cache_based_manager.go:66-86 | one reference more, items keep their identity, and the object's data is invalidated |
| `ObjectStores.ObjectStore.DeleteReference` | pkg/kubelet/util/manager/cache_based_manager.go:88-100 | one reference less, the last one removes the item, the others keep their identity |
| `ObjectStores.ObjectCache.AddReference` | pkg/kubelet/util/manager/watch_based_manager.go:226-242 | one reference more, items keep their identity and running state, a new item's reflector runs |
| `ObjectStores.ObjectCache.DeleteReference` | pkg/kubelet/util/manager/watch_based_manager.go:244-257 | one reference less; an item is stopped exactly when it is removed, the others keep their identity and running state |
| `ObjectStores.CacheItem.Stop` | pkg/kubelet/util/manager/watch_based_manager.go:49-65 | the stop channel is closed only if it is open |
| `ObjectStores.CacheItem.RestartIfNeeded` | pkg/kubelet/util/manager/watch_based_manager.go:92-101 | a stopped reflector is restarted unless the object is immutable |
| `ObjectStores.CacheBasedManager.RegisterPod` | pkg/kubelet/util/manager/cache_based_manager.go:148-169 | for either store the counts stay those of the registered pods, and an object kept before and after keeps its item |
| `ObjectStores.CacheBasedManager.UnregisterPod` | pkg/kubelet/util/manager/cache_based_manager.go:171-183 | for either store the counts stay those of the registered pods, and every object that is kept keeps its item |
| `ContainerStatuses.DeriveIs` | pkg/core/kubelet_pods.go:184-360 | containers with distinct names do not influence each other: the four passes make of each what four decisions about it alone make |
| `ContainerStatuses.ShowAt` | pkg/core/kubelet_pods.go:286-310 | the latest report of a name is shown, the one before it is the last termination, older ones are ignored |
| `PodPhases.WaitingIff` | pkg/core/kubelet_pods.go:228-278 | whatever the reason cache says, a derived container counts as waiting exactly if nothing shows that it has ever started |
| `PodStatuses.PendingIff` | pkg/core/kubelet_pods.go:417-463 | the derived statuses make the pod pending exactly if an init container is pending, some container has never started, or there is none, unless an init container has failed for good |
| `PodStatuses.AllVanished` | pkg/core/kubelet_pods.go:424-457 | if all containers were running and are gone, the pod has failed under the policy Never and is running otherwise |
| `PodStatuses.ListedReports` | pkg/core/kubelet_pods.go:32-36 | the phase is derived from the listed statuses, one per container |
| `PodStatuses.OneReportEach` | pkg/core/kubelet_pods.go:282-288 | with one report per name, the runtime's order and the order by creation find the same report |
| `PodStatuses.ConvertToAPIContainerStatuses` | pkg/core/kubelet_pods.go:129-360 | the derived statuses, in spec order for init containers and in the order of names otherwise |
| `PodStatuses.DefaultStatuses` | pkg/core/kubelet_pods.go:184-214 | the first pass: waiting, with what the old status says, or the old status if terminated |
| `PodStatuses.InferStopped` | pkg/core/kubelet_pods.go:216-280 | the second pass: a container that was running and is not reported has terminated some time |
| `PodStatuses.ShowReported` | pkg/core/kubelet_pods.go:282-310 | the third pass: the reported statuses, latest first, at most two of a name |
| `PodStatuses.AwaitRestarting` | pkg/core/kubelet_pods.go:312-347 | the fourth pass: containers that are to be restarted and failed to start are waiting with the reason |
| `PodPhases.FindStatus` | pkg/api/v1/pod/util.go:244-251 | the first status of the name, if there is one |
| `PodPhases.GetPhase` | pkg/core/kubelet_pods.go:364-463 | the counting form yields the phase that the kinds of containers present call for |
| `PodStatusGenerate.GenerateAPIPodStatus` | pkg/core/kubelet_pods.go:22-93 | the whole generated status, from derived container statuses, phase, reason and conditions |
| `PodStatusGenerate.MergePhases` | pkg/core/kubelet_pods.go:38-50 | a terminal phase known before takes the place of a derived one that is not terminal |
| `PodStatusGenerate.UpdateProbed` | pkg/kubelet/prober/prober_manager.go:212-257 | a running container that has started is ready as its probe says, an init container is ready once it has succeeded, other flags stay |
| `PodStatusGenerate.TerminalPhasesAbsorb` | pkg/core/kubelet_pods.go:38-73 | a terminal phase of the API is the generated one; a terminal phase known before stays terminal |
| `PodStatusGenerate.TerminalIsNotReady` | pkg/kubelet/status/generate.go:28-125 | no generated terminal status has Ready or ContainersReady True, and both mean that all containers are ready; names need not be distinct |
| `PodStatusGenerate.OwnConditionsOnce` | pkg/core/kubelet_pods.go:75-92 | the kubelet's own conditions are generated once each, behind all others |
| `PodConditions.GenerateContainersReadyCondition` | pkg/kubelet/status/generate.go:28-82 | True exactly when there are statuses, the phase is not terminal and every container of the spec is known and ready |
| `PodConditions.GeneratePodReadyCondition` | pkg/kubelet/status/generate.go:86-125 | True exactly when the containers are ready and every readiness gate has a condition that is True |
| `PodConditions.GeneratePodInitializedCondition` | pkg/kubelet/status/generate.go:129-180 | True exactly when there are statuses or no init containers, and every init container is known and ready, or known in a pod that has succeeded |
| `PodConditions.FindCondition` | pkg/api/v1/pod/util.go:330-340 | the first condition of the kind and its position, or -1 |
| `PodConditions.KeepForeign` | pkg/core/kubelet_pods.go:75-81 | the conditions that are not the kubelet's, in order |
| `StatusOrder.SortInitContainerStatuses` | pkg/kubelet/types/types.go:60-72 | the in-place swaps compute the arrangement |
| `StatusOrder.InitOrder` | pkg/kubelet/types/types.go:58-72 | the arrangement is a permutation that begins with the statuses the spec names, in the spec's order |
| `StatusOrder.NamedInFront` | pkg/kubelet/types/types.go:58-72 | of statuses with distinct names exactly those in front are named in the spec |
| `StatusOrder.SortsAgree` | pkg/kubelet/types/types.go:74-85 | when the spec names all statuses, sorting in place and building from the map give the same list |
| `StatusOrder.SortStatusesOfInitContainers` | pkg/kubelet/types/types.go:76-85 | the list built from the map |
| `StatusOrder.SortByName` | pkg/core/kubelet_pods.go:353-360 | the statuses of the map in the order of their names, whatever order the map yields |
| `StatusOrder.MapIsListedOnce` | pkg/kubelet/types/types.go:48-56 | there is only one such list |
| `StatusManagerRuns.TransitionTimeSurvives` | pkg/kubelet/status/status_manager.go:547-560 | over every run, the transition time of a kubelet condition stays for as long as its status does |
| `StatusManagerRuns.VersionsCountStores` | pkg/kubelet/status/status_manager.go:520-526 | over every run the version of an entry is the number of stores since the entry began |
| `StatusManagerRuns.StartTimeSurvives` | pkg/kubelet/status/status_manager.go:470-477 | over every run a start time that is stored once stays for as long as the pod has an entry |
| `StatusManagerRuns.StartTimesAreSet` | pkg/kubelet/status/status_manager.go:470-477 | every entry has a start time, if the clock and the times handed in are past the first second |
| `StatusManagerRuns.TerminatedStays` | pkg/kubelet/status/status_manager.go:411-432 | under the policy Never a container stored as terminated stays terminated over every run in which it stays listed |
| `StatusManagerRuns.WrittenSinceReset` | pkg/kubelet/status/status_manager.go:628-711 | in every run, the versions written for a pod that is neither a mirror pod nor being deleted strictly increase from each reset of its record to the next, and the record holds the last of them |
| `StatusManagerRuns.TerminalPhaseStays` | pkg/core/kubelet_pods.go:38-73 | over any run of generating and setting, the cached phase of a pod that has ended stays terminal while the entry exists |
| `StatusManager.CheckContainerStateTransition` | pkg/kubelet/status/status_manager.go:411-432 | an update is legal exactly when no container that must stay terminated is listed in another state |
| `StatusManager.UpdateLastTransitionTime` | pkg/kubelet/status/status_manager.go:547-560 | the transition time is the old one if the status is, and now otherwise |
| `StatusManager.IsPodStatusByKubeletEqual` | pkg/kubelet/status/status_manager.go:121-133 | equality but for conditions of others and the times of conditions |
| `StatusManager.StatusManager.UpdateStatusInternal` | pkg/kubelet/status/status_manager.go:437-544 | what is stored, with which version, and whether a request is queued |
| `StatusManager.StatusManager.SetPodStatus` | pkg/kubelet/status/status_manager.go:176-187 | the update is forced exactly for a pod that is being deleted |
| `StatusManager.StatusManager.IsStale` | pkg/kubelet/status/status_manager.go:701-711 | a status is stale if its version is not recorded or newer, or its pod can be deleted |
| `StatusManager.StatusManager.SyncOne` | pkg/kubelet/status/status_manager.go:628-699 | what one request does to the caches, for every answer of the API server |
| `StatusManager.StatusManager.CleanOrphans` | pkg/kubelet/status/status_manager.go:588-595 | drops the records of exactly the pods that have neither a status nor a mirror |
| `StatusManager.StatusManager.CollectUpdates` | pkg/kubelet/status/status_manager.go:597-619 | every status that has to be sent is collected, as it is cached, and no other unless its record has just been dropped |
| `StatusManager.StatusManager.NeedsReconcile` | pkg/kubelet/status/status_manager.go:729-759 | whether the API's status of the pod, or of a static pod's mirror, differs from the cached one |
| `StatusManager.StatusManager.SyncBatch` | pkg/kubelet/status/status_manager.go:581-625 | a batch is a run of resets and syncs |
| `StatusMerge.MergePodStatus` | pkg/kubelet/status/status_manager.go:819-866 | the merged status |
| `StatusMerge.UpdateCondition` | pkg/api/v1/pod/util.go:345-369 | the conditions after the update, and whether they differ from those before |
| `StatusMerge.MergeOrder` | pkg/kubelet/status/status_manager.go:820-832 | the old conditions of others come first, then the kubelet's own new ones, unchanged unless readiness is taken back from a terminal pod |
| `StatusMerge.MergePhase` | pkg/kubelet/status/status_manager.go:844-850 | the result is terminal exactly if the new phase is and the pod had ended before or has no running containers |
| `StatusMerge.MergedTerminalIsNotReady` | pkg/kubelet/status/status_manager.go:856-864 | a terminal result has neither ready condition True |
| `StatusMerge.MergeTwice` | pkg/kubelet/status/status_manager.go:819-866 | merging the result again with the same old status changes nothing |
| `StatusNormalize.NormalizeStatus` | pkg/kubelet/status/status_manager.go:766-814 | the normalised status |
| `StatusNormalize.NormalizeStates` | pkg/kubelet/status/status_manager.go:774-785 | cuts the states of a list in place |
| `StatusNormalize.MessagesWithinLimit` | pkg/kubelet/status/status_manager.go:767-770 | with no more statuses than containers, the current termination messages total at most n * (12288 / n) bytes, and at most 12288 |
| `StatusNormalize.MessagesArePrefixes` | pkg/kubelet/status/status_manager.go:781-783 | every normalised status is one of the originals, with messages cut to prefixes |
| `StatusNormalize.NormalizeTwice` | pkg/kubelet/status/status_manager.go:760-814 | normalising a status with distinct container names twice is normalising it once |

## Left out

- PodWorkers.Workers: a pod's sync status is a value in the map that methods write back, not an object behind a
  reference; nothing in the code keeps such a reference across the lock. Channels are positions in a list, since the
  object is about what the code does to them, not about the Go scheduler.
- PodWorkerSteps: `managePodLoop` is a step machine with a program counter per goroutine instead of a loop, because its
  iterations interleave with all other steps. The identity of contexts and `lastSyncTime` are not modelled; whether
  waiting for the pod cache fails is arbitrary.
- PodWorkers.Workers.CompleteWorkQueueNext: the work queue (pkg/core/pod_worker.go:1185-1203) is not modelled. Nothing
  in the repository drains it, so no retry is claimed.
- PodWorkers.Workers.AllowPodStart: enqueueing the pod for a later attempt is left out with the work queue.
- `insertPodCache` and the OnPreAdd callback run before the first start and do not touch the state of the workers.
- ShouldPodContentBeRemoved and IsPodTerminationRequested (pkg/core/pod_worker.go:461-471 and 497-506)
  read the status as the other queries do.
- PodWorkerConflation.NewestSurvives: says nothing about static pods, whose worker can be idle with an undelivered item
  while it waits for its turn.
- PodConfigStorage.PodStorage.Merge: only the incremental notification mode. Stored pods are values; that the lists of
  a merge share their pods with the store is written out as a refresh of the lists. A caller that changes a pod after
  handing it over is not modelled, and nil and empty slices inside specs and statuses are the same.
- PodConfig: `Sync`, `MergedState`, the mux and `SeenAllSources` are left out.
- StatusCacheObject.PodCache: receiving from a channel is not a step. A channel stays full for ever, which only makes
  it harder not to block.
- ContainerStatuses: the reason cache is an arbitrary partial map; 32-bit truncation of exit codes and restart counts
  is not modelled, the runtime's values being 32 bits wide.
- PodStatuses.ConvertToAPIContainerStatuses: the order by creation is a parameter that any sorting algorithm meets.
- PodStatusGenerate.GenerateAPIPodStatus: probe results are two sets of names; the Started flag and host IPs are left
  out, as are probe workers, which the kubelet never adds.
- PodConditions: names inside messages are quoted without escapes.
- StatusManager.StatusManager.UpdateStatusInternal: the clock is read once for all conditions; versions are unbounded.
- StatusNormalize.NormalizeStatus: messages are sequences of bytes, so a cut can split a character as in the code;
  sorting by name is the library's and is represented by its result.
- SetContainerReadiness, SetContainerStartup and TerminatePod build a status and store it through the same update;
  pkg/kubelet/status/status_manager.go:189-360 is not part of this model.
- StatusManager.StatusManager.SyncOne: building and sending the patch is the API server's answer.
- ObjectStores: fetching, freshness, access times, idle stopping and reflector restarts in the background.
- ObjectStores.CacheBasedManager.RegisterPod: a registered pod is assumed not to be changed by others while it is
  registered, so that its references can be found again.
- The indexes of the pod manager, probing, HTTP, informers, events and logging.
