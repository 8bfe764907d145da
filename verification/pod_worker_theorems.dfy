/** What holds of the pod workers in every interleaving: the channel protocol, the order of the stages,
    and what other parts of the kubelet may conclude from the queries. */
module PodWorkerTheorems {
  import opened Wrappers
  import opened Api
  import opened PodWorkerModel
  import opened PodWorkerSteps
  import opened PodWorkerSlot
  import opened PodWorkerRefine
  import opened PodWorkerInvariant

  // ---------- the channel protocol ----------

  predicate Alive(s: State, w: nat) {
    w < |s.workers| && s.workers[w].pc != Exited
  }

  /** The pods that are known and not finished are those with a channel; each has exactly one goroutine,
      which reads that channel. */
  ghost predicate OneWorkerEach(s: State) {
    (forall u :: u in s.p.podUpdates <==> u in s.p.statuses && !s.p.statuses[u].finished) &&
    (forall u :: u in s.p.podUpdates ==> Alive(s, s.p.podUpdates[u]) && s.workers[s.p.podUpdates[u]].uid == u) &&
    (forall v: nat, w: nat :: Alive(s, v) && Alive(s, w) && s.workers[v].uid == s.workers[w].uid ==> v == w)
  }

  /** Of the channel and the goroutine of a pod at most one holds an item; `working` says whether. */
  ghost predicate OneItemEach(s: State) {
    forall u :: u in s.p.podUpdates ==>
      var c := s.p.podUpdates[u];
      c < |s.p.chans| && c < |s.workers| && u in s.p.statuses && !s.p.chans[c].closed &&
      !(s.p.chans[c].buffer.Some? && Busy(s.workers[c].pc)) &&
      (s.p.statuses[u].working <==> s.p.chans[c].buffer.Some? || Busy(s.workers[c].pc))
  }

  lemma ProtocolFacts(s: State)
    requires Inv(s)
    ensures OneWorkerEach(s) && OneItemEach(s)
  {
    forall u ensures (u in s.p.podUpdates <==> u in s.p.statuses && !s.p.statuses[u].finished) &&
                     (u in s.p.podUpdates ==> Alive(s, s.p.podUpdates[u]) && s.workers[s.p.podUpdates[u]].uid == u)
    {
      assert SlotOk(u, SlotOf(s, u));
    }
    forall v: nat, w: nat | Alive(s, v) && Alive(s, w) && s.workers[v].uid == s.workers[w].uid ensures v == w {
      assert s.p.podUpdates[s.workers[v].uid] == v;
    }
    forall u | u in s.p.podUpdates
      ensures var c := s.p.podUpdates[u];
              !s.p.chans[c].closed && !(s.p.chans[c].buffer.Some? && Busy(s.workers[c].pc)) &&
              (s.p.statuses[u].working <==> s.p.chans[c].buffer.Some? || Busy(s.workers[c].pc))
    {
      assert SlotOk(u, SlotOf(s, u));
    }
  }

  /** In every run no send blocks or hits a nil or closed channel, no channel is closed twice, no missing
      status is dereferenced, and the one-worker, one-item protocol holds. */
  lemma ChannelProtocol(es: seq<Event>)
    requires Run(INITIAL, es)
    ensures var s := Exec(INITIAL, es); s.p.faults == {} && OneWorkerEach(s) && OneItemEach(s)
  {
    InitialInv();
    RunPreserves(INITIAL, es);
    ProtocolFacts(Exec(INITIAL, es));
  }

  // ---------- the stages ----------

  /** finished implies terminated, terminated implies asked to terminate, and so does having started to. */
  lemma StageOrder(es: seq<Event>, u: UID)
    requires Run(INITIAL, es) && u in Exec(INITIAL, es).p.statuses
    ensures var st := Exec(INITIAL, es).p.statuses[u];
            (st.finished ==> st.terminatedAt != 0) && (st.terminatedAt != 0 ==> st.terminatingAt != 0) &&
            (st.startedTerminating ==> st.terminatingAt != 0)
  {
    InitialInv();
    RunPreserves(INITIAL, es);
    assert SlotOk(u, SlotOf(Exec(INITIAL, es), u));
  }

  predicate StageKept(st: PodSyncStatus, st': PodSyncStatus) {
    (st.terminatingAt != 0 ==> st'.terminatingAt == st.terminatingAt) &&
    (st.startedTerminating ==> st'.startedTerminating) &&
    (st.terminatedAt != 0 ==> st'.terminatedAt == st.terminatedAt) &&
    (st.finished ==> st'.finished) && (st.restartRequested ==> st'.restartRequested) &&
    (st.evicted ==> st'.evicted) && (st.deleted ==> st'.deleted) && st'.fullname == st.fullname
  }

  lemma WorkerStageKept(u: UID, slot: Slot, e: Event, d: Decision)
    requires SlotOk(u, slot) && CanStep(slot, e)
    ensures var slot' := WorkerStep(slot, e, d); slot'.status.Some? && StageKept(slot.status.value, slot'.status.value)
  {
    if e.Complete? {
      CompleteStageKept(u, slot, e.now);
    } else {
      hide CompleteSlot;
    }
  }

  lemma CompleteStageKept(u: UID, slot: Slot, now: Time)
    requires SlotOk(u, slot) && CanStep(slot, Complete(0, now))
    ensures var slot' := CompleteSlot(slot, now); slot'.status.Some? && StageKept(slot.status.value, slot'.status.value)
  {
  }

  lemma AssignStageKept(st: PodSyncStatus, o: UpdatePodOptions)
    requires Callable(o)
    ensures StageKept(st, Assign(st, o).0)
  {
  }

  lemma QueueStageKept(slot: Slot, st: PodSyncStatus, o: UpdatePodOptions, became: bool)
    requires Callable(o)
    ensures var slot' := QueueSlot(slot, st, o, became); slot'.status.Some? && StageKept(st, slot'.status.value)
  {
    AssignStageKept(st, o);
    hide Assign;
  }

  lemma BegunStageKept(slot: Slot, o: UpdatePodOptions, cached: Option<CachedStatus>, now: Time)
    requires Callable(o) && slot.status.Some?
    ensures StageKept(slot.status.value, Begun(slot, o, cached, now))
  {
  }

  lemma UpdateStageKept(slot: Slot, o: UpdatePodOptions, cached: Option<CachedStatus>, now: Time)
    requires Callable(o) && slot.status.Some?
    ensures var slot' := UpdateSlot(slot, o, cached, now);
            slot'.status.Some? && StageKept(slot.status.value, slot'.status.value)
  {
    BegunStageKept(slot, o, cached, now);
    QueueStageKept(slot, Begun(slot, o, cached, now), o, Became(slot, o, cached, now));
    hide Begun, Became, QueueSlot;
  }

  /** No step undoes a stage: only forgetting a finished pod clears its history. */
  lemma StagesOnlyAdvance(s: State, e: Event, u: UID)
    requires Inv(s) && Admissible(s, e) && u in s.p.statuses
    ensures var s' := Step(s, e);
            if u in s'.p.statuses then StageKept(s.p.statuses[u], s'.p.statuses[u])
            else e.Housekeep? && s.p.statuses[u].finished && (u !in e.desired || s.p.statuses[u].restartRequested)
  {
    if e.Housekeep? {
      HousekeepExact(s, e.desired, e.order);
    } else {
      SlotStageKept(s, e, u);
      assert SlotOf(Step(s, e), u).status.Some?;
    }
  }

  lemma SlotStageKept(s: State, e: Event, u: UID)
    requires Inv(s) && Admissible(s, e) && u in s.p.statuses && !e.Housekeep?
    ensures var slot' := SlotOf(Step(s, e), u);
            slot'.status.Some? && StageKept(s.p.statuses[u], slot'.status.value)
  {
    assert SlotOk(u, SlotOf(s, u));
    if e.Update? {
      UpdateRefines(s, e.o, e.cached, e.now);
      if u == PodOf(e.o).uid { UpdateStageKept(SlotOf(s, u), e.o, e.cached, e.now); }
    } else {
      WorkerRefines(s, e);
      if u == s.workers[WorkerOf(e)].uid { WorkerStageKept(u, SlotOf(s, u), e, Answer(s, e)); }
    }
    hide Step, WorkerStep, UpdateSlot;
  }

  /** The branches of the complete functions that log a programmer error, but for completeSync's. */
  predicate ProgrammerError(s: State, e: Event)
    requires Enabled(s, e)
  {
    match e
    case Complete(w, _) =>
      var update := s.workers[w].update.value;
      update.pod.uid in s.p.statuses &&
      var st := s.p.statuses[update.pod.uid];
      (match update.workType
       case TerminatingPodWork => !st.TerminationRequested()
       case TerminatedPodWork => !st.TerminationRequested() || !st.Terminated()
       case SyncPodWork => false)
    case Abandon(w, _) =>
      var uid := s.workers[w].update.value.pod.uid;
      uid in s.p.statuses && (!s.p.statuses[uid].TerminationRequested() || s.p.statuses[uid].Terminated())
    case _ => false
  }

  lemma NoProgrammerErrors(es: seq<Event>, e: Event)
    requires Run(INITIAL, es) && Enabled(Exec(INITIAL, es), e)
    ensures !ProgrammerError(Exec(INITIAL, es), e)
  {
    var s := Exec(INITIAL, es);
    InitialInv();
    RunPreserves(INITIAL, es);
    if e.Complete? || e.Abandon? { LiveSlot(s, WorkerOf(e)); }
  }

  // ---------- what the queries promise ----------

  /** While a pod is being set up or torn down the kubelet believes it may have containers, keeps what they
      run on, and cannot forget the pod. */
  lemma RunningContainerSafety(es: seq<Event>, u: UID, desired: set<UID>, order: seq<UID>)
    requires Run(INITIAL, es)
    requires var s := Exec(INITIAL, es); Calling(s, u, SyncPodWork) || Calling(s, u, TerminatingPodWork)
    requires Enumerates(order, Exec(INITIAL, es).p.statuses.Keys)
    ensures var s := Exec(INITIAL, es);
            CouldHaveRunningContainers(s.p, u) && !ShouldPodRuntimeBeRemoved(s.p, u) &&
            u in SyncKnownPods(s.p, desired, order).statuses
  {
    InitialInv();
    RunPreserves(INITIAL, es);
    CallingNotTerminated(Exec(INITIAL, es), u);
    HousekeepExact(Exec(INITIAL, es), desired, order);
    hide Inv, Run, Exec, Calling, SyncKnownPods;
  }

  lemma CallingNotTerminated(s: State, u: UID)
    requires Inv(s) && (Calling(s, u, SyncPodWork) || Calling(s, u, TerminatingPodWork))
    ensures u in s.p.statuses && !s.p.statuses[u].Terminated() && !s.p.statuses[u].finished
  {
    var w: nat :| w < |s.workers| && s.workers[w].pc == Syncing && s.workers[w].update.Some? &&
                  s.workers[w].update.value.pod.uid == u && s.workers[w].update.value.workType != TerminatedPodWork;
    LiveSlot(s, w);
  }

  /** The pod stays known in every state the run goes through. */
  ghost predicate KnownThroughout(s: State, es: seq<Event>, u: UID)
    requires Run(s, es)
    decreases |es|
  {
    u in s.p.statuses && (es == [] || KnownThroughout(Step(s, es[0]), es[1..], u))
  }

  lemma {:induction false} StaysTerminated(s: State, es: seq<Event>, u: UID)
    requires Inv(s) && Run(s, es) && KnownThroughout(s, es, u) && s.p.statuses[u].Terminated()
    ensures Inv(Exec(s, es)) && u in Exec(s, es).p.statuses && Exec(s, es).p.statuses[u].Terminated()
    decreases |es|
  {
    if es != [] {
      StepPreserves(s, es[0]);
      StagesOnlyAdvance(s, es[0], u);
      StaysTerminated(Step(s, es[0]), es[1..], u);
    }
  }

  /** A pod that is known to have terminated is neither set up nor torn down by any worker, now or later, for as
      long as it is known. */
  lemma NothingRunsOnceTerminated(es: seq<Event>, fs: seq<Event>, u: UID)
    requires Run(INITIAL, es) && Run(Exec(INITIAL, es), fs) && KnownThroughout(Exec(INITIAL, es), fs, u)
    requires IsKnownTerminated(Exec(INITIAL, es).p, u)
    ensures var s := Exec(Exec(INITIAL, es), fs);
            IsKnownTerminated(s.p, u) && !Calling(s, u, SyncPodWork) && !Calling(s, u, TerminatingPodWork) &&
            !CouldHaveRunningContainers(s.p, u) && ShouldPodRuntimeBeRemoved(s.p, u)
  {
    InitialInv();
    RunPreserves(INITIAL, es);
    StaysTerminated(Exec(INITIAL, es), fs, u);
    var s := Exec(Exec(INITIAL, es), fs);
    if Calling(s, u, SyncPodWork) || Calling(s, u, TerminatingPodWork) { CallingNotTerminated(s, u); }
  }

  /** Housekeeping removes exactly the finished pods that are not desired or have to restart; it leaves every
      other pod, every channel and every undelivered item as they are. */
  lemma PurgeExact(es: seq<Event>, desired: set<UID>, order: seq<UID>)
    requires Run(INITIAL, es)
    requires Enumerates(order, Exec(INITIAL, es).p.statuses.Keys)
    ensures var p := Exec(INITIAL, es).p;
            var p' := SyncKnownPods(p, desired, order);
            p'.podUpdates == p.podUpdates && p'.chans == p.chans && p'.lastUndelivered == p.lastUndelivered &&
            (forall u :: u in p'.statuses <==>
               u in p.statuses && !(p.statuses[u].finished && (u !in desired || p.statuses[u].restartRequested))) &&
            (forall u :: u in p'.statuses ==> p'.statuses[u] == p.statuses[u])
  {
    var s := Exec(INITIAL, es);
    InitialInv();
    RunPreserves(INITIAL, es);
    HousekeepExact(s, desired, order);
    forall u | u in s.p.statuses
      ensures StillPurgeable(s.p, desired, order, u) <==>
              s.p.statuses[u].finished && (u !in desired || s.p.statuses[u].restartRequested)
    {
      assert u in order;
    }
  }
}
