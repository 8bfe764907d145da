/** The invariant holds in every reachable state, and what it says in the terms of the kubelet. */
module PodWorkerInvariant {
  import opened Wrappers
  import opened Api
  import opened PodWorkerModel
  import opened PodWorkerSteps
  import opened PodWorkerSlot
  import opened PodWorkerRefine

  lemma InitialInv()
    ensures Inv(INITIAL)
  {
    forall u ensures SlotOk(u, SlotOf(INITIAL, u)) {}
  }

  // ---------- completion channels ----------

  function Notify(slot: Slot): seq<CompletedCh> {
    if slot.status.Some? then slot.status.value.notifyPostTerminating else []
  }

  /** Which completion channels a step closes. */
  function ClosedBy(s: State, e: Event): set<CompletedCh>
    requires Enabled(s, e)
  {
    match e
    case Update(o, cached, now) =>
      var slot := SlotOf(s, PodOf(o).uid);
      var st := Begun(slot, o, cached, now);
      if Accepts(slot, o, cached, now) && ClosesAtOnce(st) && !(st.Terminated() && o.pod.None?) &&
         o.kill.Some? && o.kill.value.completedCh.Some?
      then {o.kill.value.completedCh.value} else {}
    case Complete(w, _) =>
      var update := s.workers[w].update.value;
      if update.workType == TerminatingPodWork && update.runningPod.None?
      then set ch | ch in Notify(SlotOf(s, update.pod.uid)) else {}
    case _ => {}
  }

  lemma WorkerCloses(s: State, e: Event)
    requires Inv(s) && IsWorkerEvent(e) && Enabled(s, e)
    ensures Step(s, e).p.completed == s.p.completed + ClosedBy(s, e)
  {
    hide Inv, SlotOf, CompleteStep, StartStep;
    if e.Complete? {
      assert s.workers[e.w].update.value.pod.uid in s.p.statuses by { CompletingKnown(s, e.w, e.now); }
      CompleteCloses(s, e.w, e.now);
    } else if e.Start? {
      StartCloses(s, e.w);
    }
  }

  lemma CompletingKnown(s: State, w: nat, now: Time)
    requires Inv(s) && Enabled(s, Complete(w, now))
    ensures s.workers[w].update.value.pod.uid in s.p.statuses
  {
    LiveSlot(s, w);
  }

  lemma StartCloses(s: State, w: nat)
    requires Inv(s) && Enabled(s, Start(w))
    ensures StartStep(s, w).p.completed == s.p.completed
  {
    LiveSlot(s, w);
    AllowPodStartShape(s.p, s.workers[w].update.value.pod);
    hide AllowPodStart, Inv, SlotOf;
  }

  lemma CompleteCloses(s: State, w: nat, now: Time)
    requires Inv(s) && Enabled(s, Complete(w, now)) && s.workers[w].update.value.pod.uid in s.p.statuses
    ensures CompleteStep(s, w, now).p.completed == s.p.completed + ClosedBy(s, Complete(w, now))
  {
    CompleteTerminatingShape(s.p, s.workers[w].update.value.pod, now);
    hide CompleteTerminating, Inv, CompletionOk, Linked, SlotsOk;
  }

  lemma DispatchCloses(s: State, p: Shared, st: PodSyncStatus, work: PodWork, cancel: bool)
    ensures Spawn(s, Dispatch(p, st, work, cancel), work.pod).p.completed == p.completed
  {
  }

  lemma UpdateCloses(s: State, o: UpdatePodOptions, cached: Option<CachedStatus>, now: Time)
    requires Inv(s) && Admissible(s, Update(o, cached, now))
    ensures Step(s, Update(o, cached, now)).p.completed == s.p.completed + ClosedBy(s, Update(o, cached, now))
  {
    var slot := SlotOf(s, PodOf(o).uid);
    assert CurrentStatus(s.p, o, cached, now) == StatusAtUpdate(slot, o, cached, now);
    if Accepts(slot, o, cached, now) {
      CloseIfSetShape(s.p, o);
      var st := Begun(slot, o, cached, now);
      hide Assign, BeginTermination, BecomesTerminating, Dispatch, StatusAtUpdate, CurrentStatus, Inv;
      if !(st.Terminated() && o.pod.None?) {
        var (st1, work, shortened) := Assign(st, o);
        AssignPod(st, o);
        DispatchCloses(s, if ClosesAtOnce(st) then CloseIfSet(s.p, o.kill) else s.p, st1, work,
                       Became(slot, o, cached, now) || shortened);
      }
    }
  }

  lemma AssignPod(st: PodSyncStatus, o: UpdatePodOptions)
    requires Callable(o)
    ensures Assign(st, o).1.pod == PodOf(o)
  {
  }

  lemma AssignNotify(st: PodSyncStatus, o: UpdatePodOptions)
    requires Callable(o)
    ensures Assign(st, o).0.notifyPostTerminating ==
            if !ClosesAtOnce(st) && o.kill.Some? && o.kill.value.completedCh.Some?
            then st.notifyPostTerminating + [o.kill.value.completedCh.value] else st.notifyPostTerminating
  {
  }

  lemma QueueNotify(slot: Slot, st: PodSyncStatus, o: UpdatePodOptions, became: bool)
    requires Callable(o)
    ensures Notify(QueueSlot(slot, st, o, became)) ==
            if !ClosesAtOnce(st) && o.kill.Some? && o.kill.value.completedCh.Some?
            then st.notifyPostTerminating + [o.kill.value.completedCh.value] else st.notifyPostTerminating
  {
    AssignNotify(st, o);
    hide Assign;
  }

  lemma BegunNotify(slot: Slot, o: UpdatePodOptions, cached: Option<CachedStatus>, now: Time)
    requires Callable(o)
    ensures Begun(slot, o, cached, now).notifyPostTerminating == Notify(slot)
    ensures StatusAtUpdate(slot, o, cached, now).notifyPostTerminating == Notify(slot)
  {
  }

  /** An update leaves the registered channels alone, or registers the one it brings. */
  lemma UpdateNotify(slot: Slot, o: UpdatePodOptions, cached: Option<CachedStatus>, now: Time)
    requires Callable(o)
    ensures Notify(UpdateSlot(slot, o, cached, now)) ==
            if Accepts(slot, o, cached, now) && !ClosesAtOnce(Begun(slot, o, cached, now)) &&
               o.kill.Some? && o.kill.value.completedCh.Some?
            then Notify(slot) + [o.kill.value.completedCh.value] else Notify(slot)
  {
    BegunNotify(slot, o, cached, now);
    QueueNotify(slot, Begun(slot, o, cached, now), o, Became(slot, o, cached, now));
    hide Begun, Became, QueueSlot, StatusAtUpdate;
  }

  /** Forgetting registrations is harmless. */
  lemma FewerRegistered(p: Shared, p': Shared)
    requires CompletionOk(p) && p'.completed == p.completed
    requires forall u :: Registered(p', u) == Registered(p, u) || Registered(p', u) == []
    ensures CompletionOk(p')
  {
    forall u ensures Distinct(Registered(p', u)) {
      assert Distinct(Registered(p, u));
    }
  }

  lemma KeptRegistered(s: State, s': State, u0: UID)
    requires OthersKept(s, s', u0)
    ensures forall u :: u != u0 ==> Registered(s'.p, u) == Registered(s.p, u)
  {
    forall u | u != u0 ensures Registered(s'.p, u) == Registered(s.p, u) {
      assert SlotOf(s', u).status == SlotOf(s, u).status;
    }
  }

  /** Closing channels that nobody has registered is harmless. */
  lemma SameRegistered(p: Shared, p': Shared, closed: set<CompletedCh>)
    requires CompletionOk(p) && p'.completed == p.completed + closed
    requires forall u :: Registered(p', u) == Registered(p, u)
    requires forall u, ch :: ch in closed ==> ch !in Registered(p, u)
    ensures CompletionOk(p')
  {
    hide Registered;
    forall u ensures Distinct(Registered(p', u)) {
      assert Distinct(Registered(p, u));
    }
  }

  /** One UID gives up exactly the channels that were closed. */
  lemma GivenUp(p: Shared, p': Shared, u0: UID, closed: set<CompletedCh>)
    requires CompletionOk(p) && p'.completed == p.completed + closed
    requires forall u :: u != u0 ==> Registered(p', u) == Registered(p, u)
    requires Registered(p', u0) == [] && closed == set ch | ch in Registered(p, u0)
    ensures CompletionOk(p')
  {
    hide Registered;
    forall u ensures Distinct(Registered(p', u)) {
      assert Distinct(Registered(p, u));
    }
  }

  lemma DistinctSnoc(xs: seq<CompletedCh>, x: CompletedCh)
    requires Distinct(xs) && x !in xs
    ensures Distinct(xs + [x])
  {
  }

  /** One UID registers a fresh channel. */
  lemma OneMoreRegistered(p: Shared, p': Shared, u0: UID, channel: CompletedCh)
    requires CompletionOk(p) && p'.completed == p.completed
    requires forall u :: u != u0 ==> Registered(p', u) == Registered(p, u)
    requires Registered(p', u0) == Registered(p, u0) + [channel]
    requires channel !in p.completed && forall u :: channel !in Registered(p, u)
    ensures CompletionOk(p')
  {
    hide Registered;
    DistinctSnoc(Registered(p, u0), channel);
    forall u ensures Distinct(Registered(p', u)) {
      assert Distinct(Registered(p, u));
    }
  }

  lemma WorkerCompletionOk(s: State, e: Event)
    requires Inv(s) && IsWorkerEvent(e) && Enabled(s, e) && RefinesSlot(s, e)
    ensures CompletionOk(Step(s, e).p)
  {
    hide Linked, SlotsOk, SlotOk;
    WorkerCloses(s, e);
    var s', u0 := Step(s, e), s.workers[WorkerOf(e)].uid;
    WorkerNotify(SlotOf(s, u0), e, Answer(s, e));
    BusyUpdate(s, e);
    KeptRegistered(s, s', u0);
    assert Registered(s'.p, u0) == Notify(SlotOf(s', u0)) && Registered(s.p, u0) == Notify(SlotOf(s, u0));
    var closed := ClosedBy(s, e);
    hide Step, ClosedBy, RefinesSlot, CompletionOk, Registered, Notify;
    if Registered(s'.p, u0) == Registered(s.p, u0) && closed == {} {
      SameRegistered(s.p, s'.p, closed);
    } else {
      GivenUp(s.p, s'.p, u0, closed);
    }
  }

  lemma BusyUpdate(s: State, e: Event)
    requires Inv(s) && IsWorkerEvent(e) && Enabled(s, e) && RefinesSlot(s, e)
    ensures var slot := SlotOf(s, s.workers[WorkerOf(e)].uid);
            ClosedBy(s, e) ==
              (if e.Complete? && slot.loop.value.worker.update.value.workType == TerminatingPodWork &&
                  slot.loop.value.worker.update.value.runningPod.None?
               then set ch | ch in Notify(slot) else {})
    ensures OthersKept(s, Step(s, e), s.workers[WorkerOf(e)].uid)
    ensures SlotOf(Step(s, e), s.workers[WorkerOf(e)].uid) ==
            WorkerStep(SlotOf(s, s.workers[WorkerOf(e)].uid), e, Answer(s, e))
  {
    LiveSlot(s, WorkerOf(e));
  }

  lemma WorkerNotify(slot: Slot, e: Event, d: Decision)
    requires CanStep(slot, e)
    ensures Notify(WorkerStep(slot, e, d)) ==
            (if e.Complete? && slot.loop.value.worker.update.value.workType == TerminatingPodWork &&
                slot.loop.value.worker.update.value.runningPod.None?
             then [] else Notify(slot))
  {
  }

  /** The channel the update brings waits with its pod. */
  predicate KeepsChannel(slot: Slot, o: UpdatePodOptions, cached: Option<CachedStatus>, now: Time)
    requires Callable(o)
  {
    Accepts(slot, o, cached, now) && !ClosesAtOnce(Begun(slot, o, cached, now)) &&
    o.kill.Some? && o.kill.value.completedCh.Some?
  }

  lemma UpdateRegisters(s: State, s': State, o: UpdatePodOptions, cached: Option<CachedStatus>, now: Time)
    requires Callable(o) && SlotOf(s', PodOf(o).uid) == UpdateSlot(SlotOf(s, PodOf(o).uid), o, cached, now)
    ensures var u0, slot := PodOf(o).uid, SlotOf(s, PodOf(o).uid);
            Registered(s'.p, u0) ==
              if KeepsChannel(slot, o, cached, now) then Registered(s.p, u0) + [o.kill.value.completedCh.value]
                else Registered(s.p, u0)
    ensures KeepsChannel(SlotOf(s, PodOf(o).uid), o, cached, now) ==> o.kill.Some? && o.kill.value.completedCh.Some?
  {
    UpdateNotify(SlotOf(s, PodOf(o).uid), o, cached, now);
    assert Registered(s'.p, PodOf(o).uid) == Notify(SlotOf(s', PodOf(o).uid));
    assert Registered(s.p, PodOf(o).uid) == Notify(SlotOf(s, PodOf(o).uid));
    hide UpdateSlot, Begun, Accepts;
  }

  /** What an update closes is the channel it brings, if that does not wait. */
  lemma UpdateClosesOwn(s: State, o: UpdatePodOptions, cached: Option<CachedStatus>, now: Time)
    requires Enabled(s, Update(o, cached, now))
    ensures var closed := ClosedBy(s, Update(o, cached, now));
            (KeepsChannel(SlotOf(s, PodOf(o).uid), o, cached, now) ==> closed == {}) &&
            (closed == {} || (o.kill.Some? && o.kill.value.completedCh.Some? &&
                              closed == {o.kill.value.completedCh.value}))
  {
    hide SlotOf, Accepts, Begun;
  }

  lemma UpdateCompletionOk(s: State, o: UpdatePodOptions, cached: Option<CachedStatus>, now: Time)
    requires Inv(s) && Admissible(s, Update(o, cached, now))
    requires OthersKept(s, Step(s, Update(o, cached, now)), PodOf(o).uid)
    requires SlotOf(Step(s, Update(o, cached, now)), PodOf(o).uid) ==
             UpdateSlot(SlotOf(s, PodOf(o).uid), o, cached, now)
    ensures CompletionOk(Step(s, Update(o, cached, now)).p)
  {
    hide Linked, SlotsOk, SlotOk, SlotOf, UpdateSlot, CompletionOk, KeepsChannel, ClosedBy, Registered;
    var s', u0, closed := Step(s, Update(o, cached, now)), PodOf(o).uid, ClosedBy(s, Update(o, cached, now));
    UpdateCloses(s, o, cached, now);
    UpdateClosesOwn(s, o, cached, now);
    UpdateRegisters(s, s', o, cached, now);
    KeptRegistered(s, s', u0);
    if o.kill.Some? && o.kill.value.completedCh.Some? { FreshRegistered(s.p, o); }
    hide Step, OthersKept, FreshChannel;
    if KeepsChannel(SlotOf(s, u0), o, cached, now) {
      assert s'.p.completed == s.p.completed;
      OneMoreRegistered(s.p, s'.p, u0, o.kill.value.completedCh.value);
    } else {
      SameRegistered(s.p, s'.p, closed);
    }
  }

  lemma FreshRegistered(p: Shared, o: UpdatePodOptions)
    requires FreshChannel(p, o) && o.kill.Some? && o.kill.value.completedCh.Some?
    ensures o.kill.value.completedCh.value !in p.completed
    ensures forall u :: o.kill.value.completedCh.value !in Registered(p, u)
  {
  }

  // ---------- housekeeping ----------

  /** A finished UID has no channel, so purging it only forgets its status. */
  lemma RemoveFinished(s: State, uid: UID)
    requires Inv(s)
    ensures RemoveTerminatedWorker(s.p, uid) ==
            if uid in s.p.statuses && s.p.statuses[uid].finished
            then s.p.(statuses := s.p.statuses - {uid},
                      startedStatic := ReleaseStatic(s.p.startedStatic, s.p.statuses[uid].fullname, uid)) else s.p
    ensures Inv(s.(p := RemoveTerminatedWorker(s.p, uid)))
  {
    assert SlotOk(uid, SlotOf(s, uid));
    if uid in s.p.statuses && s.p.statuses[uid].finished {
      assert s.p.podUpdates - {uid} == s.p.podUpdates;
      assert s.p.lastUndelivered - {uid} == s.p.lastUndelivered;
      var s' := s.(p := RemoveTerminatedWorker(s.p, uid));
      forall u ensures SlotOk(u, SlotOf(s', u)) {
        assert SlotOk(u, SlotOf(s, u));
        assert u != uid ==> SlotOf(s', u) == SlotOf(s, u);
      }
      KeptRegistered(s, s', uid);
      FewerRegistered(s.p, s'.p);
    }
  }

  lemma SyncedInv(s: State)
    requires Inv(s)
    ensures Inv(s.(p := s.p.(podsSynced := true)))
  {
    var s' := s.(p := s.p.(podsSynced := true));
    FewerRegistered(s.p, s'.p);
    forall u ensures SlotOk(u, SlotOf(s', u)) {
      assert SlotOk(u, SlotOf(s, u));
      assert SlotOf(s', u) == SlotOf(s, u);
    }
  }

  ghost predicate StillPurgeable(p: Shared, desired: set<UID>, order: seq<UID>, u: UID) {
    u in order && u in p.statuses && Purged(p.statuses[u], u in desired)
  }

  /** Only the statuses and the started static pods change, and only by forgetting. */
  ghost predicate OnlyForgets(p: Shared, p': Shared) {
    p' == p.(podsSynced := p'.podsSynced, statuses := p'.statuses, startedStatic := p'.startedStatic) &&
    (forall u :: u in p'.statuses ==> u in p.statuses && p'.statuses[u] == p.statuses[u])
  }

  lemma VisitOneExact(s: State, desired: set<UID>, uid: UID)
    requires Inv(s)
    ensures var p' := VisitOne(s.p, desired, uid);
            Inv(s.(p := p')) && OnlyForgets(s.p, p') && p'.podsSynced == s.p.podsSynced &&
            forall u :: u in p'.statuses <==>
              u in s.p.statuses && !(u == uid && Purged(s.p.statuses[u], u in desired))
  {
    RemoveFinished(s, uid);
  }

  /** Housekeeping forgets exactly the finished pods that are not desired or have to restart. */
  lemma {:induction false} HousekeepExact(s: State, desired: set<UID>, order: seq<UID>)
    requires Inv(s)
    ensures var p' := SyncKnownPods(s.p, desired, order);
            Inv(s.(p := p')) && p'.podsSynced && OnlyForgets(s.p, p') &&
            forall u :: u in p'.statuses <==> u in s.p.statuses && !StillPurgeable(s.p, desired, order, u)
    decreases |order|
  {
    hide Inv, RemoveTerminatedWorker;
    if order == [] {
      SyncedInv(s);
    } else {
      var p1 := VisitOne(s.p, desired, order[0]);
      VisitOneExact(s, desired, order[0]);
      HousekeepExact(s.(p := p1), desired, order[1..]);
      forall u ensures StillPurgeable(s.p, desired, order, u) <==>
                       (u == order[0] && u in s.p.statuses && Purged(s.p.statuses[u], u in desired)) ||
                       StillPurgeable(p1, desired, order[1..], u)
      {
        assert u in order <==> u == order[0] || u in order[1..];
      }
    }
  }

  // ---------- steps and runs ----------

  lemma WorkerPreserves(s: State, e: Event)
    requires Inv(s) && IsWorkerEvent(e) && Enabled(s, e)
    ensures Inv(Step(s, e))
  {
    WorkerRefines(s, e);
    WorkerCompletionOk(s, e);
    var u0 := s.workers[WorkerOf(e)].uid;
    var s' := Step(s, e);
    hide Step, Linked, CompletionOk, CanStep, WorkerStep, SlotOk, DecisionFits;
    forall u ensures SlotOk(u, SlotOf(s', u)) {
      assert SlotOk(u, SlotOf(s, u));
      if u == u0 { WorkerStepOk(u, SlotOf(s, u), e, Answer(s, e)); }
    }
  }

  lemma UpdatePreserves(s: State, o: UpdatePodOptions, cached: Option<CachedStatus>, now: Time)
    requires Inv(s) && Admissible(s, Update(o, cached, now))
    ensures Inv(Step(s, Update(o, cached, now)))
  {
    UpdateRefines(s, o, cached, now);
    UpdateCompletionOk(s, o, cached, now);
    var s' := Step(s, Update(o, cached, now));
    hide Step, Linked, CompletionOk, SlotOk, UpdateSlot;
    forall u ensures SlotOk(u, SlotOf(s', u)) {
      assert SlotOk(u, SlotOf(s, u));
      if u == PodOf(o).uid { UpdateSlotOk(SlotOf(s, u), o, cached, now); }
    }
  }

  lemma StepPreserves(s: State, e: Event)
    requires Inv(s) && Admissible(s, e)
    ensures Inv(Step(s, e))
  {
    if e.Update? {
      UpdatePreserves(s, e.o, e.cached, e.now);
    } else if e.Housekeep? {
      HousekeepExact(s, e.desired, e.order);
    } else {
      WorkerPreserves(s, e);
    }
  }

  lemma {:induction false} RunPreserves(s: State, es: seq<Event>)
    requires Inv(s) && Run(s, es)
    ensures Inv(Exec(s, es))
    decreases |es|
  {
    if es != [] {
      StepPreserves(s, es[0]);
      RunPreserves(Step(s, es[0]), es[1..]);
    }
  }
}
