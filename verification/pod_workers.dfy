/** The pod workers as the object the kubelet holds: maps that every method changes in place while it holds
    `podLock`. Each method is tied to the function on the whole state that the protocol is proved for. */
module PodWorkers {
  import opened Wrappers
  import opened Api
  import opened PodWorkerModel
  import opened PodWorkerSteps

  /** Counts what still runs, as the code does. */
  method StatusCacheTerminal(cached: CachedStatus) returns (terminal: bool)
    ensures terminal <==> (forall c :: c in cached.containers ==> c != ContainerRunning) &&
                          (forall ready :: ready in cached.sandboxesReady ==> !ready)
    ensures terminal == IsPodStatusCacheTerminal(cached)
  {
    var runningContainers: nat, runningSandboxes: nat := 0, 0;
    for i := 0 to |cached.containers|
      invariant runningContainers == 0 <==> ContainerRunning !in cached.containers[..i]
    {
      assert cached.containers[..i + 1] == cached.containers[..i] + [cached.containers[i]];
      if cached.containers[i] == ContainerRunning { runningContainers := runningContainers + 1; }
    }
    assert cached.containers[..|cached.containers|] == cached.containers;
    for i := 0 to |cached.sandboxesReady|
      invariant runningSandboxes == 0 <==> true !in cached.sandboxesReady[..i]
    {
      assert cached.sandboxesReady[..i + 1] == cached.sandboxesReady[..i] + [cached.sandboxesReady[i]];
      if cached.sandboxesReady[i] { runningSandboxes := runningSandboxes + 1; }
    }
    assert cached.sandboxesReady[..|cached.sandboxesReady|] == cached.sandboxesReady;
    terminal := runningContainers == 0 && runningSandboxes == 0;
  }

  /** The grace period in force after a request, and whether it differs from the one before. */
  method CalculateEffectiveGracePeriod(status: PodSyncStatus, pod: Pod, options: Option<KillPodOptions>)
    returns (gracePeriod: int, shortened: bool)
    ensures gracePeriod >= 1
    ensures (gracePeriod, shortened) == EffectiveGracePeriod(status.gracePeriod, pod, options)
  {
    gracePeriod := status.gracePeriod;
    if pod.deletionGracePeriodSeconds.Some? {
      var override := pod.deletionGracePeriodSeconds.value;
      if gracePeriod == 0 || override < gracePeriod { gracePeriod := override; }
    }
    if options.Some? && options.value.gracePeriodOverride.Some? {
      var override := options.value.gracePeriodOverride.value;
      if gracePeriod == 0 || override < gracePeriod { gracePeriod := override; }
    }
    if gracePeriod == 0 && pod.spec.terminationGracePeriodSeconds.Some? {
      gracePeriod := pod.spec.terminationGracePeriodSeconds.value;
    }
    if gracePeriod < 1 { gracePeriod := 1; }
    shortened := status.gracePeriod != 0 && status.gracePeriod != gracePeriod;
  }

  method Stage(status: PodSyncStatus) returns (stage: PodWorkerState)
    ensures stage == StageOf(status)
  {
    if status.Terminated() {
      stage := if status.restartRequested then TerminatedAndRecreatedPod else TerminatedPod;
    } else if status.TerminationRequested() {
      stage := TerminatingPod;
    } else {
      stage := SyncPod;
    }
  }

  class Workers {
    var podsSynced: bool
    var podUpdates: map<UID, nat>
    var lastUndeliveredWorkUpdate: map<UID, PodWork>
    var podSyncStatuses: map<UID, PodSyncStatus>
    var startedStaticPodsByFullname: map<string, UID>
    var waitingToStartStaticPodsByFullname: map<string, seq<UID>>
    /** The Go channels made so far; `podUpdates` refers to them by position. */
    var channels: seq<Chan>
    var closedCompletions: set<CompletedCh>
    /** What went wrong in the Go runtime; the protocol keeps it empty. */
    var faults: set<Fault>

    function View(): Shared
      reads this
    {
      Shared(podsSynced, podUpdates, lastUndeliveredWorkUpdate, podSyncStatuses, startedStaticPodsByFullname,
             waitingToStartStaticPodsByFullname, channels, closedCompletions, faults)
    }

    constructor ()
      ensures View() == NO_WORKERS
    {
      podsSynced := false;
      podUpdates, lastUndeliveredWorkUpdate, podSyncStatuses := map[], map[], map[];
      startedStaticPodsByFullname, waitingToStartStaticPodsByFullname := map[], map[];
      channels, closedCompletions, faults := [], {}, {};
    }

    // ---------- channels ----------

    method SendUpdate(uid: UID, work: PodWork)
      modifies this`channels, this`faults
      ensures View() == Send(old(View()), uid, work)
    {
      if uid !in podUpdates || podUpdates[uid] >= |channels| {
        faults := faults + {SendOnNilChannel};
      } else if channels[podUpdates[uid]].closed {
        faults := faults + {SendOnClosedChannel};
      } else if channels[podUpdates[uid]].buffer.Some? {
        faults := faults + {SendBlocks};
      } else {
        channels := channels[podUpdates[uid] := Chan(Some(work), false)];
      }
    }

    method CloseCompletion(ch: CompletedCh)
      modifies this`closedCompletions, this`faults
      ensures View() == CloseCompleted(old(View()), ch)
    {
      if ch in closedCompletions { faults := faults + {CloseOfClosedChannel}; }
      closedCompletions := closedCompletions + {ch};
    }

    method CleanupUpdates(uid: UID)
      modifies this`channels, this`faults, this`podUpdates, this`lastUndeliveredWorkUpdate
      ensures View() == CleanupPodUpdates(old(View()), uid)
    {
      if uid in podUpdates && podUpdates[uid] < |channels| {
        var ch := podUpdates[uid];
        if channels[ch].closed { faults := faults + {CloseOfClosedChannel}; }
        channels := channels[ch := channels[ch].(closed := true)];
      }
      podUpdates := podUpdates - {uid};
      lastUndeliveredWorkUpdate := lastUndeliveredWorkUpdate - {uid};
    }

    // ---------- UpdatePod ----------

    /** The status of a pod the workers know, or the one a new pod begins with: a pod whose last status is
        terminal and for which the runtime runs nothing was finished before the kubelet started. */
    method ObservePod(
        pod: Pod, isRuntimePod: bool, cached: Option<CachedStatus>, now: Time)
        returns (status: PodSyncStatus)
      ensures status == if pod.uid in podSyncStatuses then podSyncStatuses[pod.uid]
              else FirstStatus(pod, isRuntimePod, cached, now)
    {
      if pod.uid in podSyncStatuses { return podSyncStatuses[pod.uid]; }
      status := NewStatus(pod, now);
      if !isRuntimePod && (pod.status.phase == PodFailed || pod.status.phase == PodSucceeded) && cached.Some? {
        var over := StatusCacheTerminal(cached.value);
        if over {
          status := status.(terminatedAt := now, terminatingAt := now, startedTerminating := true, finished := true);
        }
      }
    }

    /** The transition to terminating, if the update asks for it. */
    method CheckTermination(
        observed: PodSyncStatus, pod: Pod, isRuntimePod: bool, updateType: SyncPodType, kill: Option<KillPodOptions>,
        now: Time)
        returns (status: PodSyncStatus, becameTerminating: bool)
      ensures status == BeginTermination(observed, pod, isRuntimePod, updateType, kill, now)
      ensures becameTerminating == BecomesTerminating(observed, pod, isRuntimePod, updateType)
    {
      status, becameTerminating := observed, false;
      if !status.TerminationRequested() {
        if isRuntimePod || pod.deletionTimestamp.Some? {
          status := status.(deleted := true, terminatingAt := now);
          becameTerminating := true;
        } else if pod.status.phase == PodFailed || pod.status.phase == PodSucceeded {
          status := status.(terminatingAt := now);
          becameTerminating := true;
        } else if updateType == SyncPodKill {
          if kill.Some? && kill.value.evict { status := status.(evicted := true); }
          status := status.(terminatingAt := now);
          becameTerminating := true;
        }
      }
    }

    /** Registers a kill request with a terminating pod. */
    method RegisterRequest(status: PodSyncStatus, pod: Pod, kill: KillPodOptions)
      returns (registered: PodSyncStatus, options: KillPodOptions, shortened: bool)
      ensures (registered, options, shortened) == RegisterKill(status, pod, kill)
    {
      registered := status;
      if kill.completedCh.Some? {
        registered := registered.(notifyPostTerminating := registered.notifyPostTerminating + [kill.completedCh.value]);
      }
      if kill.podStatusFunc.Some? {
        registered := registered.(statusPostTerminating := registered.statusPostTerminating +
                                  [kill.podStatusFunc.value]);
      }
      var gracePeriod;
      gracePeriod, shortened := CalculateEffectiveGracePeriod(status, pod, Some(kill));
      registered := registered.(gracePeriod := gracePeriod);
      options := kill.(gracePeriodOverride := Some(gracePeriod));
    }

    /** Makes the pod's channel and puts a static pod into the start queue, unless it has a worker. */
    method EnsureWorker(uid: UID, fullname: string, isStatic: bool)
      modifies this`channels, this`podUpdates, this`waitingToStartStaticPodsByFullname
      ensures View() == EnsureChannel(old(View()), uid, fullname, isStatic)
    {
      if uid !in podUpdates {
        podUpdates := podUpdates[uid := |channels|];
        channels := channels + [Chan(None, false)];
        if isStatic {
          var queue := if fullname in waitingToStartStaticPodsByFullname
              then waitingToStartStaticPodsByFullname[fullname] else [];
          waitingToStartStaticPodsByFullname := waitingToStartStaticPodsByFullname[fullname := queue + [uid]];
        }
      }
    }

    /** Hands the work to the idle worker, or leaves it for the busy one and interrupts its call if need be. */
    method DispatchWork(status: PodSyncStatus, work: PodWork, cancel: bool)
      modifies this
      ensures View() == Dispatch(old(View()), status, work, cancel)
    {
      var uid := work.pod.uid;
      EnsureWorker(uid, status.fullname, IsStaticPod(work.pod));
      if !status.working {
        podSyncStatuses := podSyncStatuses[uid := status.(working := true)];
        SendUpdate(uid, work);
        return;
      }
      KeepForLater(status, work, cancel);
    }

    /** A busy worker gets the latest work later, with the start time of what it replaces if that is earlier. */
    method KeepForLater(status: PodSyncStatus, work: PodWork, cancel: bool)
      requires status.working
      modifies this`podSyncStatuses, this`lastUndeliveredWorkUpdate
      ensures podSyncStatuses == old(podSyncStatuses)[work.pod.uid := Dispatched(status, cancel)]
      ensures lastUndeliveredWorkUpdate ==
                old(lastUndeliveredWorkUpdate)[work.pod.uid := Merged(Undelivered(old(View()), work.pod.uid), work)]
    {
      var uid := work.pod.uid;
      podSyncStatuses := podSyncStatuses[uid := status];
      var latest := work;
      if uid in lastUndeliveredWorkUpdate {
        var undelivered := lastUndeliveredWorkUpdate[uid];
        if undelivered.startTime != 0 && undelivered.startTime < latest.startTime {
          latest := latest.(startTime := undelivered.startTime);
        }
      }
      lastUndeliveredWorkUpdate := lastUndeliveredWorkUpdate[uid := latest];
      if cancel && status.ctx != NoContext {
        podSyncStatuses := podSyncStatuses[uid := status.(ctx := Cancelled)];
      }
    }

    method UpdatePod(o: UpdatePodOptions, cached: Option<CachedStatus>, now: Time)
      requires Callable(o)
      modifies this
      ensures View() == PodWorkerModel.UpdatePod(old(View()), o, cached, now)
    {
      var isRuntimePod := o.pod.None?;
      if isRuntimePod && o.updateType != SyncPodKill { return; }
      var pod := if isRuntimePod then ToAPIPod(o.runningPod.value) else o.pod.value;

      var status := ObservePod(pod, isRuntimePod, cached, now);
      if status.TerminationRequested() && o.updateType == SyncPodCreate {
        podSyncStatuses := podSyncStatuses[pod.uid := status.(restartRequested := true)];
        return;
      }
      if status.finished {
        podSyncStatuses := podSyncStatuses[pod.uid := status];
        return;
      }
      var becameTerminating;
      status, becameTerminating := CheckTermination(status, pod, isRuntimePod, o.updateType, o.kill, now);
      QueueWork(status, o, becameTerminating);
    }

    /** The part of UpdatePod that decides about the work and hands it over. */
    method QueueWork(observed: PodSyncStatus, o: UpdatePodOptions, becameTerminating: bool)
      requires Callable(o)
      modifies this
      ensures View() == Queue(old(View()), observed, o, becameTerminating)
    {
      var status, workType, kill, shortened := observed, SyncPodWork, None, false;
      if status.Terminated() {
        if o.pod.None? {
          podSyncStatuses := podSyncStatuses[PodOf(o).uid := status];
          return;
        }
        workType := TerminatedPodWork;
        CloseRequest(o.kill);
      } else if status.TerminationRequested() {
        workType := TerminatingPodWork;
        var options := if o.kill.Some? then o.kill.value else NO_KILL;
        status, options, shortened := RegisterRequest(status, PodOf(o), options);
        kill := Some(options);
      } else {
        CloseRequest(o.kill);
      }
      var work := WorkOf(o, workType, kill);
      assert (status, work, shortened) == Assign(observed, o);
      hide Assign, CloseIfSet;
      DispatchWork(status, work, becameTerminating || shortened);
    }

    method CloseRequest(kill: Option<KillPodOptions>)
      modifies this`closedCompletions, this`faults
      ensures View() == CloseIfSet(old(View()), kill)
    {
      if kill.Some? && kill.value.completedCh.Some? { CloseCompletion(kill.value.completedCh.value); }
    }

    // ---------- starting a pod ----------

    method AllowStaticPodStart(fullname: string, uid: UID) returns (allowed: bool)
      modifies this`startedStaticPodsByFullname, this`waitingToStartStaticPodsByFullname
      ensures (View(), allowed) == PodWorkerModel.AllowStaticPodStart(old(View()), fullname, uid)
    {
      if fullname in startedStaticPodsByFullname { return startedStaticPodsByFullname[fullname] == uid; }
      var waitingPods := if fullname in waitingToStartStaticPodsByFullname
          then waitingToStartStaticPodsByFullname[fullname] else [];
      var rest := waitingPods;
      for i := 0 to |waitingPods|
        invariant View() == old(View()) && rest == waitingPods
        invariant FirstWaiting(podSyncStatuses, waitingPods) >= i
      {
        FirstWaitingIs(podSyncStatuses, waitingPods, i);
        if CanStillStart(podSyncStatuses, waitingPods[i]) {
          if waitingPods[i] != uid {
            waitingToStartStaticPodsByFullname := waitingToStartStaticPodsByFullname[fullname := waitingPods[i..]];
            return false;
          }
          rest := waitingPods[i + 1..];
          break;
        }
      }
      if |rest| != 0 {
        waitingToStartStaticPodsByFullname := waitingToStartStaticPodsByFullname[fullname := rest];
      } else {
        waitingToStartStaticPodsByFullname := waitingToStartStaticPodsByFullname - {fullname};
      }
      startedStaticPodsByFullname := startedStaticPodsByFullname[fullname := uid];
      allowed := true;
    }

    method AllowPodStart(pod: Pod) returns (canStart: bool, canEverStart: bool)
      modifies this`startedStaticPodsByFullname, this`waitingToStartStaticPodsByFullname, this`podSyncStatuses
      ensures (View(), canStart, canEverStart) == PodWorkerModel.AllowPodStart(old(View()), pod)
    {
      if !IsStaticPod(pod) { return true, true; }
      if pod.uid !in podSyncStatuses { return false, false; }
      if podSyncStatuses[pod.uid].TerminationRequested() { return false, false; }
      var allowed := AllowStaticPodStart(podSyncStatuses[pod.uid].fullname, pod.uid);
      if !allowed {
        podSyncStatuses := podSyncStatuses[pod.uid := podSyncStatuses[pod.uid].(working := false)];
        return false, true;
      }
      return true, true;
    }

    // ---------- the worker's other critical sections ----------

    /** A context that was cancelled or never made is replaced by a live one. */
    method ContextForWorker(uid: UID) returns (ctx: Context)
      modifies this`podSyncStatuses
      ensures View() == PodWorkerModel.ContextForWorker(old(View()), uid)
      ensures ctx == if uid in podSyncStatuses then Live else NoContext
    {
      if uid !in podSyncStatuses { return NoContext; }
      var status := podSyncStatuses[uid];
      if status.ctx == NoContext || status.ctx == Cancelled {
        podSyncStatuses := podSyncStatuses[uid := status.(ctx := Live)];
      }
      ctx := podSyncStatuses[uid].ctx;
      assert old(podSyncStatuses)[uid := status.(ctx := Live)] == podSyncStatuses;
    }

    method AcknowledgeTerminating(pod: Pod) returns (statusFn: Option<PodStatusFunc>)
      modifies this`podSyncStatuses
      ensures (View(), statusFn) == PodWorkerModel.AcknowledgeTerminating(old(View()), pod.uid)
    {
      if pod.uid !in podSyncStatuses { return None; }
      var status := podSyncStatuses[pod.uid];
      if status.TerminationRequested() && !status.startedTerminating {
        podSyncStatuses := podSyncStatuses[pod.uid := status.(startedTerminating := true)];
      }
      assert status.TerminationRequested() ==>
        podSyncStatuses == old(podSyncStatuses)[pod.uid := status.(startedTerminating := true)];
      var l := |status.statusPostTerminating|;
      statusFn := if l > 0 then Some(status.statusPostTerminating[l - 1]) else None;
    }

    method CompleteSync(pod: Pod, now: Time)
      modifies this`podSyncStatuses, this`lastUndeliveredWorkUpdate
      ensures View() == PodWorkerModel.CompleteSync(old(View()), pod, now)
    {
      if pod.uid in podSyncStatuses {
        var status := podSyncStatuses[pod.uid];
        if !status.TerminationRequested() { status := status.(terminatingAt := now); }
        podSyncStatuses := podSyncStatuses[pod.uid := status.(startedTerminating := true)];
      }
      lastUndeliveredWorkUpdate := lastUndeliveredWorkUpdate[pod.uid := OwnWork(TerminatingPodWork, pod)];
    }

    method CompleteTerminating(pod: Pod, now: Time)
      modifies this
      ensures View() == PodWorkerModel.CompleteTerminating(old(View()), pod, now)
    {
      if pod.uid in podSyncStatuses {
        var status := podSyncStatuses[pod.uid];
        podSyncStatuses := podSyncStatuses[
          pod.uid := status.(terminatedAt := now, notifyPostTerminating := [], statusPostTerminating := [])];
        ghost var recorded := View();
        for i := 0 to |status.notifyPostTerminating|
          invariant CloseAll(View(), status.notifyPostTerminating[i..]) ==
                    CloseAll(recorded, status.notifyPostTerminating)
          invariant lastUndeliveredWorkUpdate == old(lastUndeliveredWorkUpdate)
        {
          CloseCompletion(status.notifyPostTerminating[i]);
          assert status.notifyPostTerminating[i..][1..] == status.notifyPostTerminating[i + 1..];
        }
      }
      lastUndeliveredWorkUpdate := lastUndeliveredWorkUpdate[pod.uid := OwnWork(TerminatedPodWork, pod)];
    }

    method FinishPod(uid: UID, terminatedAt: Option<Time>)
      modifies this`podSyncStatuses, this`startedStaticPodsByFullname
      ensures View() == Finish(old(View()), uid, terminatedAt)
    {
      if uid in podSyncStatuses {
        var status := podSyncStatuses[uid];
        status := status.(finished := true, working := false);
        if terminatedAt.Some? { status := status.(terminatedAt := terminatedAt.value); }
        podSyncStatuses := podSyncStatuses[uid := status];
        ReleaseName(status.fullname, uid);
      }
    }

    method ReleaseName(fullname: string, uid: UID)
      modifies this`startedStaticPodsByFullname
      ensures View() == old(View()).(startedStatic := ReleaseStatic(old(startedStaticPodsByFullname), fullname, uid))
    {
      if fullname in startedStaticPodsByFullname && startedStaticPodsByFullname[fullname] == uid {
        startedStaticPodsByFullname := startedStaticPodsByFullname - {fullname};
      }
    }

    method CompleteTerminatingRuntimePod(pod: Pod, now: Time)
      modifies this
      ensures View() == PodWorkerModel.CompleteTerminatingRuntimePod(old(View()), pod, now)
    {
      FinishPod(pod.uid, Some(now));
      CleanupUpdates(pod.uid);
    }

    method CompleteTerminated(pod: Pod)
      modifies this
      ensures View() == PodWorkerModel.CompleteTerminated(old(View()), pod)
    {
      CleanupUpdates(pod.uid);
      FinishPod(pod.uid, None);
    }

    method CompleteUnstartedTerminated(pod: Pod, now: Time)
      modifies this
      ensures View() == PodWorkerModel.CompleteUnstartedTerminated(old(View()), pod, now)
    {
      CleanupUpdates(pod.uid);
      FinishPod(pod.uid, Some(now));
    }

    method CompleteWorkQueueNext(uid: UID)
      modifies this
      ensures View() == PodWorkerModel.CompleteWorkQueueNext(old(View()), uid)
    {
      if uid in lastUndeliveredWorkUpdate {
        SendUpdate(uid, lastUndeliveredWorkUpdate[uid]);
        lastUndeliveredWorkUpdate := lastUndeliveredWorkUpdate - {uid};
      } else if uid in podSyncStatuses {
        podSyncStatuses := podSyncStatuses[uid := podSyncStatuses[uid].(working := false)];
      } else {
        faults := faults + {NilStatus};
      }
    }

    // ---------- housekeeping ----------

    method RemoveTerminatedWorker(uid: UID)
      modifies this
      ensures View() == PodWorkerModel.RemoveTerminatedWorker(old(View()), uid)
    {
      if uid !in podSyncStatuses || !podSyncStatuses[uid].finished { return; }
      var fullname := podSyncStatuses[uid].fullname;
      podSyncStatuses := podSyncStatuses - {uid};
      CleanupUpdates(uid);
      ReleaseName(fullname, uid);
    }

    /** The known pods in the order the map happens to yield them. */
    method KnownPods() returns (order: seq<UID>)
      ensures Enumerates(order, podSyncStatuses.Keys)
    {
      var left := podSyncStatuses.Keys;
      order := [];
      while left != {}
        invariant left <= podSyncStatuses.Keys && Enumerates(order, podSyncStatuses.Keys - left)
        decreases left
      {
        var uid :| uid in left;
        left := left - {uid};
        order := order + [uid];
      }
    }

    /** Purges the finished pods that are not desired or have to restart, and reports the stage that every pod
        known before the call had reached. */
    method SyncKnownPods(desiredPods: seq<Pod>) returns (workers: map<UID, PodWorkerState>, order: seq<UID>)
      modifies this
      ensures Enumerates(order, old(podSyncStatuses).Keys)
      ensures View() == PodWorkerModel.SyncKnownPods(old(View()), set pod <- desiredPods :: pod.uid, order)
      ensures workers.Keys == old(podSyncStatuses).Keys
      ensures forall uid :: uid in workers ==> workers[uid] == StageOf(old(podSyncStatuses)[uid])
    {
      var known: set<UID> := set pod <- desiredPods :: pod.uid;
      ghost var statuses := podSyncStatuses;
      order := KnownPods();
      workers := map[];
      podsSynced := true;
      ghost var synced := View();
      SyncedAtOnce(old(View()), known, order);
      hide PodWorkerModel.SyncKnownPods, VisitOne, StageOf;
      for i := 0 to |order|
        invariant PodWorkerModel.SyncKnownPods(View(), known, order[i..]) ==
                  PodWorkerModel.SyncKnownPods(synced, known, order)
        invariant forall j :: i <= j < |order| ==>
                  order[j] in podSyncStatuses && podSyncStatuses[order[j]] == statuses[order[j]]
        invariant workers == Stages(statuses, order[..i])
        invariant podsSynced
      {
        var uid := order[i];
        var status := podSyncStatuses[uid];
        SyncOneMore(View(), known, order, i);
        StagesOneMore(statuses, order, i);
        VisitPod(uid, known);
        var stage := Stage(status);
        workers := workers[uid := stage];
      }
      assert order[..|order|] == order && order[|order|..] == [];
      SyncNoMore(View(), known);
    }

    method VisitPod(uid: UID, known: set<UID>)
      requires uid in podSyncStatuses
      modifies this
      ensures View() == VisitOne(old(View()), known, uid)
      ensures podsSynced == old(podsSynced)
      ensures forall u :: u in old(podSyncStatuses) && u != uid ==>
                            u in podSyncStatuses && podSyncStatuses[u] == old(podSyncStatuses)[u]
    {
      if uid !in known || podSyncStatuses[uid].restartRequested { RemoveTerminatedWorker(uid); }
    }

    // ---------- queries ----------

    /** What follows from the answer is `PodWorkerTheorems.NothingRunsOnceTerminated`. */
    method IsPodKnownTerminated(uid: UID) returns (r: bool)
      ensures r <==> IsKnownTerminated(View(), uid)
    {
      if uid in podSyncStatuses { return podSyncStatuses[uid].Terminated(); }
      r := false;
    }

    /** A static pod of the name has started, is asked to stop and has not terminated. */
    method IsPodForMirrorPodTerminatingByFullName(fullname: string) returns (r: bool)
      ensures r <==> exists uid :: uid in podSyncStatuses && fullname in startedStaticPodsByFullname &&
                                   startedStaticPodsByFullname[fullname] == uid &&
                                   StageOf(podSyncStatuses[uid]) == TerminatingPod
    {
      if fullname !in startedStaticPodsByFullname { return false; }
      var uid := startedStaticPodsByFullname[fullname];
      if uid !in podSyncStatuses { return false; }
      r := podSyncStatuses[uid].TerminationRequested() && !podSyncStatuses[uid].Terminated();
    }
  }

  /** The stages of the pods in the list. */
  function Stages(statuses: map<UID, PodSyncStatus>, order: seq<UID>): map<UID, PodWorkerState>
    requires forall u :: u in order ==> u in statuses
  {
    map u | u in order :: StageOf(statuses[u])
  }

  lemma StagesOneMore(statuses: map<UID, PodSyncStatus>, order: seq<UID>, i: nat)
    requires i < |order| && forall u :: u in order ==> u in statuses
    ensures Stages(statuses, order[..i + 1]) == Stages(statuses, order[..i])[order[i] := StageOf(statuses[order[i]])]
  {
    assert order[..i + 1] == order[..i] + [order[i]];
    hide StageOf;
  }

  lemma SyncOneMore(p: Shared, known: set<UID>, order: seq<UID>, i: nat)
    requires i < |order|
    ensures PodWorkerModel.SyncKnownPods(p, known, order[i..]) ==
            PodWorkerModel.SyncKnownPods(VisitOne(p, known, order[i]), known, order[i + 1..])
  {
    assert order[i..][1..] == order[i + 1..];
  }

  lemma SyncNoMore(p: Shared, known: set<UID>)
    requires p.podsSynced
    ensures PodWorkerModel.SyncKnownPods(p, known, []) == p
  {
  }

  /** It makes no difference that the flag is set before the pods are visited. */
  lemma {:induction false} SyncedAtOnce(p: Shared, desired: set<UID>, order: seq<UID>)
    ensures PodWorkerModel.SyncKnownPods(p.(podsSynced := true), desired, order) ==
            PodWorkerModel.SyncKnownPods(p, desired, order)
    decreases |order|
  {
    if order != [] {
      var uid := order[0];
      SyncedAtOnce(VisitOne(p, desired, uid), desired, order[1..]);
    }
  }

  lemma {:induction false} FirstWaitingIs(statuses: map<UID, PodSyncStatus>, queue: seq<UID>, i: nat)
    requires i < |queue| && FirstWaiting(statuses, queue) >= i
    ensures if CanStillStart(statuses, queue[i]) then FirstWaiting(statuses, queue) == i
            else FirstWaiting(statuses, queue) > i
  {
  }
}
