/** The data of the pod worker and, for every region that runs under `podLock`, the function it
    computes on the shared maps. Operations of the Go runtime that can panic or block for ever
    leave a mark in `faults` and change nothing else. */
module PodWorkerModel {
  import opened Wrappers
  import opened Api

  datatype SyncPodType = SyncPodSync | SyncPodUpdate | SyncPodCreate | SyncPodKill

  datatype PodWorkType = SyncPodWork | TerminatingPodWork | TerminatedPodWork

  datatype PodWorkerState = SyncPod | TerminatingPod | TerminatedPod | TerminatedAndRecreatedPod

  /** Completion channels and status functions are opaque to the workers: only their identity matters. */
  type CompletedCh = nat
  type PodStatusFunc = nat

  datatype KillPodOptions = KillPodOptions(
    completedCh: Option<CompletedCh>,
    evict: bool,
    podStatusFunc: Option<PodStatusFunc>,
    gracePeriodOverride: Option<int>)

  datatype RuntimePod = RuntimePod(uid: UID, name: string, namespace: string, containers: seq<Container>)

  datatype UpdatePodOptions = UpdatePodOptions(
    updateType: SyncPodType,
    startTime: Time,
    pod: Option<Pod>,
    mirrorPod: Option<Pod>,
    runningPod: Option<RuntimePod>,
    kill: Option<KillPodOptions>)

  datatype PodWork = PodWork(
    workType: PodWorkType,
    updateType: SyncPodType,
    startTime: Time,
    pod: Pod,
    mirrorPod: Option<Pod>,
    runningPod: Option<RuntimePod>,
    kill: Option<KillPodOptions>)

  datatype Context = NoContext | Live | Cancelled

  datatype PodSyncStatus = PodSyncStatus(
    ctx: Context,
    working: bool,
    fullname: string,
    syncedAt: Time,
    terminatingAt: Time,
    startedTerminating: bool,
    deleted: bool,
    gracePeriod: int,
    evicted: bool,
    terminatedAt: Time,
    finished: bool,
    restartRequested: bool,
    notifyPostTerminating: seq<CompletedCh>,
    statusPostTerminating: seq<PodStatusFunc>)
  {
    predicate TerminationRequested() { terminatingAt != 0 }
    predicate Terminated() { terminatedAt != 0 }
  }

  /** A Go channel of capacity one. */
  datatype Chan = Chan(buffer: Option<PodWork>, closed: bool)

  datatype Fault = SendOnNilChannel | SendOnClosedChannel | SendBlocks | CloseOfClosedChannel | NilStatus

  datatype Shared = Shared(
    podsSynced: bool,
    podUpdates: map<UID, nat>,
    lastUndelivered: map<UID, PodWork>,
    statuses: map<UID, PodSyncStatus>,
    startedStatic: map<string, UID>,
    waitingStatic: map<string, seq<UID>>,
    chans: seq<Chan>,
    completed: set<CompletedCh>,
    faults: set<Fault>)

  const NO_WORKERS := Shared(false, map[], map[], map[], map[], map[], [], {}, {})

  // ---------- the runtime's view of a pod, as far as the workers read it ----------

  datatype CachedStatus = CachedStatus(containers: seq<RuntimeState>, sandboxesReady: seq<bool>)

  predicate IsPodStatusCacheTerminal(cached: CachedStatus) {
    ContainerRunning !in cached.containers && true !in cached.sandboxesReady
  }

  // ---------- channels ----------

  predicate HasChan(p: Shared, uid: UID) {
    uid in p.podUpdates && p.podUpdates[uid] < |p.chans|
  }

  /** What goes wrong when the pod's update channel is sent to while `podLock` is held. */
  function SendFault(p: Shared, uid: UID): Option<Fault> {
    if !HasChan(p, uid) then Some(SendOnNilChannel)
    else if p.chans[p.podUpdates[uid]].closed then Some(SendOnClosedChannel)
    else if p.chans[p.podUpdates[uid]].buffer.Some? then Some(SendBlocks)
    else None
  }

  function Blame(faults: set<Fault>, fault: Option<Fault>): set<Fault> {
    if fault.Some? then faults + {fault.value} else faults
  }

  function Send(p: Shared, uid: UID, work: PodWork): Shared {
    var fault := SendFault(p, uid);
    p.(chans := if fault.None? then p.chans[p.podUpdates[uid] := Chan(Some(work), false)] else p.chans,
       faults := Blame(p.faults, fault))
  }

  predicate ClosedTwice(p: Shared, uid: UID) {
    HasChan(p, uid) && p.chans[p.podUpdates[uid]].closed
  }

  function CleanupPodUpdates(p: Shared, uid: UID): Shared {
    p.(chans := if HasChan(p, uid) then p.chans[p.podUpdates[uid] := p.chans[p.podUpdates[uid]].(closed := true)]
       else p.chans,
       faults := Blame(p.faults, if ClosedTwice(p, uid) then Some(CloseOfClosedChannel) else None),
       podUpdates := p.podUpdates - {uid},
       lastUndelivered := p.lastUndelivered - {uid})
  }

  function CloseCompleted(p: Shared, ch: CompletedCh): Shared {
    p.(completed := p.completed + {ch},
       faults := Blame(p.faults, if ch in p.completed then Some(CloseOfClosedChannel) else None))
  }

  function CloseAll(p: Shared, chs: seq<CompletedCh>): Shared
    decreases |chs|
  {
    if chs == [] then p else CloseAll(CloseCompleted(p, chs[0]), chs[1..])
  }

  function SetStatus(p: Shared, uid: UID, st: PodSyncStatus): Shared {
    p.(statuses := p.statuses[uid := st])
  }

  // ---------- UpdatePod ----------

  function ToAPIPod(r: RuntimePod): Pod {
    Pod(r.uid, r.name, r.namespace, map[], None, None, None, EMPTY_SPEC.(containers := r.containers), EMPTY_STATUS)
  }

  predicate Callable(o: UpdatePodOptions) {
    o.pod.Some? || o.runningPod.Some?
  }

  /** The pod the update is about: the configured one, or the orphan the runtime still runs. */
  function PodOf(o: UpdatePodOptions): Pod
    requires Callable(o)
  {
    if o.pod.Some? then o.pod.value else ToAPIPod(o.runningPod.value)
  }

  function NewStatus(pod: Pod, now: Time): PodSyncStatus {
    PodSyncStatus(NoContext, false, FullName(pod), now, 0, false, false, 0, false, 0, false, false, [], [])
  }

  function FirstStatus(pod: Pod, isRuntimePod: bool, cached: Option<CachedStatus>, now: Time): PodSyncStatus {
    var over := !isRuntimePod && IsPhaseTerminal(pod.status.phase) && cached.Some? &&
        IsPodStatusCacheTerminal(cached.value);
    var at := if over then now else 0;
    NewStatus(pod, now).(terminatedAt := at, terminatingAt := at, startedTerminating := over, finished := over)
  }

  predicate Evicts(kill: Option<KillPodOptions>) {
    kill.Some? && kill.value.evict
  }

  predicate BecomesTerminating(st: PodSyncStatus, pod: Pod, isRuntimePod: bool, updateType: SyncPodType) {
    !st.TerminationRequested() &&
    (isRuntimePod || pod.deletionTimestamp.Some? || IsPhaseTerminal(pod.status.phase) || updateType == SyncPodKill)
  }

  function BeginTermination(
      st: PodSyncStatus, pod: Pod, isRuntimePod: bool, updateType: SyncPodType,
      kill: Option<KillPodOptions>, now: Time): PodSyncStatus
  {
    var gone := isRuntimePod || pod.deletionTimestamp.Some?;
    if !BecomesTerminating(st, pod, isRuntimePod, updateType) then st
    else st.(deleted := st.deleted || gone,
             evicted := st.evicted || (!gone && !IsPhaseTerminal(pod.status.phase) && Evicts(kill)),
             terminatingAt := now)
  }

  function Lower(grace: int, override: Option<int>): int {
    if override.Some? && (grace == 0 || override.value < grace) then override.value else grace
  }

  /** The grace period and whether it differs from the one in force. */
  function EffectiveGracePeriod(current: int, pod: Pod, kill: Option<KillPodOptions>): (int, bool) {
    var deletion := Lower(current, pod.deletionGracePeriodSeconds);
    var killed := if kill.Some? then Lower(deletion, kill.value.gracePeriodOverride) else deletion;
    var wanted :=
      if killed == 0 && pod.spec.terminationGracePeriodSeconds.Some?
      then pod.spec.terminationGracePeriodSeconds.value else killed;
    var grace := if wanted < 1 then 1 else wanted;
    (grace, current != 0 && current != grace)
  }

  /** A later update inherits the start time of the undelivered one it replaces. */
  function Absorb(work: PodWork, undelivered: PodWork): PodWork {
    if undelivered.startTime != 0 && undelivered.startTime < work.startTime
    then work.(startTime := undelivered.startTime) else work
  }

  function StartQueue(p: Shared, fullname: string): seq<UID> {
    if fullname in p.waitingStatic then p.waitingStatic[fullname] else []
  }

  /** Creates the channel of a pod that has no worker; static pods join the start queue. */
  function EnsureChannel(p: Shared, uid: UID, fullname: string, isStatic: bool): Shared {
    if uid in p.podUpdates then p
    else p.(
      chans := p.chans + [Chan(None, false)],
      podUpdates := p.podUpdates[uid := |p.chans|],
      waitingStatic := if isStatic then p.waitingStatic[fullname := StartQueue(p, fullname) + [uid]]
        else p.waitingStatic)
  }

  /** An idle worker is marked as working; a busy one is interrupted when the update cannot wait. */
  function Dispatched(st: PodSyncStatus, cancel: bool): PodSyncStatus {
    if !st.working then st.(working := true)
    else if cancel && st.ctx != NoContext then st.(ctx := Cancelled)
    else st
  }

  function Merged(undelivered: Option<PodWork>, work: PodWork): PodWork {
    if undelivered.Some? then Absorb(work, undelivered.value) else work
  }

  function Undelivered(p: Shared, uid: UID): Option<PodWork> {
    if uid in p.lastUndelivered then Some(p.lastUndelivered[uid]) else None
  }

  function Dispatch(p: Shared, st: PodSyncStatus, work: PodWork, cancel: bool): Shared {
    var uid := work.pod.uid;
    var p1 := SetStatus(EnsureChannel(p, uid, st.fullname, IsStaticPod(work.pod)), uid, Dispatched(st, cancel));
    if !st.working then Send(p1, uid, work)
    else p1.(lastUndelivered := p1.lastUndelivered[uid := Merged(Undelivered(p1, uid), work)])
  }

  function CloseIfSet(p: Shared, kill: Option<KillPodOptions>): Shared {
    if kill.Some? && kill.value.completedCh.Some? then CloseCompleted(p, kill.value.completedCh.value) else p
  }

  /** The kill options of a terminating pod, registered in its status with the effective grace period. */
  function RegisterKill(st: PodSyncStatus, pod: Pod, kill: KillPodOptions): (PodSyncStatus, KillPodOptions, bool) {
    var (grace, shortened) := EffectiveGracePeriod(st.gracePeriod, pod, Some(kill));
    var st1 := st.(
      notifyPostTerminating :=
        if kill.completedCh.Some? then st.notifyPostTerminating + [kill.completedCh.value]
          else st.notifyPostTerminating,
      statusPostTerminating :=
        if kill.podStatusFunc.Some? then st.statusPostTerminating + [kill.podStatusFunc.value]
          else st.statusPostTerminating,
      gracePeriod := grace);
    (st1, kill.(gracePeriodOverride := Some(grace)), shortened)
  }

  const NO_KILL := KillPodOptions(None, false, None, None)

  function WorkOf(o: UpdatePodOptions, workType: PodWorkType, kill: Option<KillPodOptions>): PodWork
    requires Callable(o)
  {
    PodWork(workType, o.updateType, o.startTime, PodOf(o), o.mirrorPod,
            if o.pod.Some? then None else o.runningPod, kill)
  }

  /** The status and the work an accepted update leads to, and whether it shortens the grace period. */
  function Assign(st: PodSyncStatus, o: UpdatePodOptions): (PodSyncStatus, PodWork, bool)
    requires Callable(o)
  {
    if st.Terminated() then (st, WorkOf(o, TerminatedPodWork, None), false)
    else if st.TerminationRequested() then
      var (st1, kill1, shortened) := RegisterKill(st, PodOf(o), if o.kill.Some? then o.kill.value else NO_KILL);
      (st1, WorkOf(o, TerminatingPodWork, Some(kill1)), shortened)
    else (st, WorkOf(o, SyncPodWork, None), false)
  }

  /** A completion channel waits only while its pod is terminating; otherwise it is closed at once. */
  predicate ClosesAtOnce(st: PodSyncStatus) {
    st.Terminated() || !st.TerminationRequested()
  }

  /** The part of UpdatePod after the transition to terminating has been decided. */
  function Queue(p: Shared, st: PodSyncStatus, o: UpdatePodOptions, became: bool): Shared
    requires Callable(o)
  {
    if st.Terminated() && o.pod.None? then SetStatus(p, PodOf(o).uid, st)
    else
      var (st1, work, shortened) := Assign(st, o);
      Dispatch(if ClosesAtOnce(st) then CloseIfSet(p, o.kill) else p, st1, work, became || shortened)
  }

  function CurrentStatus(p: Shared, o: UpdatePodOptions, cached: Option<CachedStatus>, now: Time): PodSyncStatus
    requires Callable(o)
  {
    var pod := PodOf(o);
    if pod.uid in p.statuses then p.statuses[pod.uid] else FirstStatus(pod, o.pod.None?, cached, now)
  }

  /** An orphan that is not being killed is ignored before the lock is taken. */
  predicate Ignored(o: UpdatePodOptions) {
    o.pod.None? && o.updateType != SyncPodKill
  }

  function UpdatePod(p: Shared, o: UpdatePodOptions, cached: Option<CachedStatus>, now: Time): Shared
    requires Callable(o)
  {
    if Ignored(o) then p
    else
      var pod := PodOf(o);
      var st := CurrentStatus(p, o, cached, now);
      if st.TerminationRequested() && o.updateType == SyncPodCreate then
        SetStatus(p, pod.uid, st.(restartRequested := true))
      else if st.finished then SetStatus(p, pod.uid, st)
      else
        var st1 := BeginTermination(st, pod, o.pod.None?, o.updateType, o.kill, now);
        Queue(p, st1, o, BecomesTerminating(st, pod, o.pod.None?, o.updateType))
  }

  // ---------- starting a pod ----------

  /** Whether a queue entry still waits: it is known and nobody asked it to stop. */
  predicate CanStillStart(statuses: map<UID, PodSyncStatus>, uid: UID) {
    uid in statuses && !statuses[uid].TerminationRequested() && !statuses[uid].Terminated()
  }

  /** The position of the first entry that still waits, or the length of the queue. */
  function FirstWaiting(statuses: map<UID, PodSyncStatus>, queue: seq<UID>): (i: nat)
    ensures i <= |queue|
    ensures i < |queue| ==> CanStillStart(statuses, queue[i])
    ensures forall j :: 0 <= j < i ==> !CanStillStart(statuses, queue[j])
  {
    if queue == [] then 0
    else if CanStillStart(statuses, queue[0]) then 0
    else 1 + FirstWaiting(statuses, queue[1..])
  }

  function AllowStaticPodStart(p: Shared, fullname: string, uid: UID): (Shared, bool) {
    if fullname in p.startedStatic then (p, p.startedStatic[fullname] == uid)
    else
      var queue := StartQueue(p, fullname);
      var i := FirstWaiting(p.statuses, queue);
      if i < |queue| && queue[i] != uid then
        (p.(waitingStatic := p.waitingStatic[fullname := queue[i..]]), false)
      else
        var rest := if i < |queue| then queue[i + 1..] else queue;
        (p.(waitingStatic := if rest != [] then p.waitingStatic[fullname := rest] else p.waitingStatic - {fullname},
            startedStatic := p.startedStatic[fullname := uid]),
         true)
  }

  /** The new state, canStart and canEverStart. */
  function AllowPodStart(p: Shared, pod: Pod): (Shared, bool, bool) {
    if !IsStaticPod(pod) then (p, true, true)
    else if pod.uid !in p.statuses then (p, false, false)
    else if p.statuses[pod.uid].TerminationRequested() then (p, false, false)
    else
      var (p1, allowed) := AllowStaticPodStart(p, p.statuses[pod.uid].fullname, pod.uid);
      if allowed then (p1, true, true)
      else (SetStatus(p1, pod.uid, p1.statuses[pod.uid].(working := false)), false, true)
  }

  // ---------- the worker's other critical sections ----------

  function ContextForWorker(p: Shared, uid: UID): Shared {
    if uid !in p.statuses then p else SetStatus(p, uid, p.statuses[uid].(ctx := Live))
  }

  function AcknowledgeTerminating(p: Shared, uid: UID): (Shared, Option<PodStatusFunc>) {
    if uid !in p.statuses then (p, None)
    else
      var st := p.statuses[uid];
      (if st.TerminationRequested() then SetStatus(p, uid, st.(startedTerminating := true)) else p,
       if st.statusPostTerminating != [] then Some(st.statusPostTerminating[|st.statusPostTerminating| - 1]) else None)
  }

  /** Work the worker queues for itself carries nothing but the pod. */
  function OwnWork(workType: PodWorkType, pod: Pod): PodWork {
    PodWork(workType, SyncPodSync, 0, pod, None, None, None)
  }

  function CompleteSync(p: Shared, pod: Pod, now: Time): Shared {
    var p1 :=
      if pod.uid !in p.statuses then p
      else
        var st := p.statuses[pod.uid];
        SetStatus(p, pod.uid, st.(terminatingAt := if st.TerminationRequested() then st.terminatingAt else now,
                                  startedTerminating := true));
    p1.(lastUndelivered := p1.lastUndelivered[pod.uid := OwnWork(TerminatingPodWork, pod)])
  }

  function CompleteTerminating(p: Shared, pod: Pod, now: Time): Shared {
    var p1 :=
      if pod.uid !in p.statuses then p
      else
        var st := p.statuses[pod.uid];
        CloseAll(SetStatus(p, pod.uid, st.(terminatedAt := now, notifyPostTerminating := [],
                                           statusPostTerminating := [])),
                 st.notifyPostTerminating);
    p1.(lastUndelivered := p1.lastUndelivered[pod.uid := OwnWork(TerminatedPodWork, pod)])
  }

  function ReleaseStatic(started: map<string, UID>, fullname: string, uid: UID): map<string, UID> {
    if fullname in started && started[fullname] == uid then started - {fullname} else started
  }

  function FinishedStatus(st: PodSyncStatus, terminatedAt: Option<Time>): PodSyncStatus {
    st.(finished := true, working := false,
        terminatedAt := if terminatedAt.Some? then terminatedAt.value else st.terminatedAt)
  }

  /** The common end of the three ways a worker finishes. */
  function Finish(p: Shared, uid: UID, terminatedAt: Option<Time>): Shared {
    if uid !in p.statuses then p
    else p.(statuses := p.statuses[uid := FinishedStatus(p.statuses[uid], terminatedAt)],
            startedStatic := ReleaseStatic(p.startedStatic, p.statuses[uid].fullname, uid))
  }

  function CompleteTerminatingRuntimePod(p: Shared, pod: Pod, now: Time): Shared {
    CleanupPodUpdates(Finish(p, pod.uid, Some(now)), pod.uid)
  }

  function CompleteTerminated(p: Shared, pod: Pod): Shared {
    Finish(CleanupPodUpdates(p, pod.uid), pod.uid, None)
  }

  function CompleteUnstartedTerminated(p: Shared, pod: Pod, now: Time): Shared {
    Finish(CleanupPodUpdates(p, pod.uid), pod.uid, Some(now))
  }

  function CompleteWorkQueueNext(p: Shared, uid: UID): Shared {
    if uid in p.lastUndelivered then
      var p1 := Send(p, uid, p.lastUndelivered[uid]);
      p1.(lastUndelivered := p1.lastUndelivered - {uid})
    else if uid !in p.statuses then p.(faults := p.faults + {NilStatus})
    else SetStatus(p, uid, p.statuses[uid].(working := false))
  }

  // ---------- housekeeping ----------

  function RemoveTerminatedWorker(p: Shared, uid: UID): Shared {
    if uid !in p.statuses || !p.statuses[uid].finished then p
    else CleanupPodUpdates(
      p.(statuses := p.statuses - {uid},
         startedStatic := ReleaseStatic(p.startedStatic, p.statuses[uid].fullname, uid)), uid)
  }

  /** Housekeeping at one pod: it is removed unless it is desired and need not restart. */
  function VisitOne(p: Shared, desired: set<UID>, uid: UID): Shared {
    if uid in p.statuses && (uid !in desired || p.statuses[uid].restartRequested)
    then RemoveTerminatedWorker(p, uid) else p
  }

  /** SyncKnownPods visits the known pods in the map's arbitrary order, here `order`. */
  function SyncKnownPods(p: Shared, desired: set<UID>, order: seq<UID>): Shared
    decreases |order|
  {
    if order == [] then p.(podsSynced := true) else SyncKnownPods(VisitOne(p, desired, order[0]), desired, order[1..])
  }

  function StageOf(st: PodSyncStatus): PodWorkerState {
    if st.Terminated() then (if st.restartRequested then TerminatedAndRecreatedPod else TerminatedPod)
    else if st.TerminationRequested() then TerminatingPod
    else SyncPod
  }

  predicate Purged(st: PodSyncStatus, desired: bool) {
    st.finished && (!desired || st.restartRequested)
  }

  // ---------- queries ----------

  predicate IsKnownTerminated(p: Shared, uid: UID) {
    uid in p.statuses && p.statuses[uid].Terminated()
  }

  predicate CouldHaveRunningContainers(p: Shared, uid: UID) {
    if uid in p.statuses then !p.statuses[uid].Terminated() else !p.podsSynced
  }

  predicate ShouldPodContainersBeTerminating(p: Shared, uid: UID) {
    if uid in p.statuses then p.statuses[uid].startedTerminating else p.podsSynced
  }

  predicate ShouldPodRuntimeBeRemoved(p: Shared, uid: UID) {
    if uid in p.statuses then p.statuses[uid].Terminated() else p.podsSynced
  }
}
