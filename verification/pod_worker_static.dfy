/** Static pods with the same full name start one after the other, in the order of the start queue. */
module PodWorkerStatic {
  import opened Wrappers
  import opened Api
  import opened PodWorkerModel
  import opened PodWorkerSteps
  import opened PodWorkerSlot
  import opened PodWorkerRefine
  import opened PodWorkerInvariant
  import opened PodWorkerTheorems

  /** A pod that got its worker as a static one is past its start. */
  predicate StartedStatic(slot: Slot) {
    slot.status.Some? && slot.loop.Some? && slot.loop.value.worker.isStatic && slot.loop.value.worker.podStarted
  }

  /** A full name is held by a live static pod that has started under that name. */
  predicate HolderOk(slot: Slot, fullname: string) {
    StartedStatic(slot) && slot.status.value.fullname == fullname
  }

  /** A static pod that waits to start: nobody has asked it to stop. */
  predicate Waits(slot: Slot) {
    slot.status.Some? && slot.loop.Some? && slot.loop.value.worker.isStatic && !slot.loop.value.worker.podStarted &&
    !slot.status.value.TerminationRequested()
  }

  ghost predicate Holders(s: State) {
    forall f :: f in s.p.startedStatic ==> HolderOk(SlotOf(s, s.p.startedStatic[f]), f)
  }

  /** No waiting pod is missing from the queue of its full name. */
  ghost predicate Queued(s: State) {
    forall u :: Waits(SlotOf(s, u)) ==> u in StartQueue(s.p, SlotOf(s, u).status.value.fullname)
  }

  ghost predicate StaticInv(s: State) {
    Inv(s) && Holders(s) && Queued(s)
  }

  // ---------- what allowStaticPodStart does to the queue ----------

  lemma {:induction false} FirstWaitingIn(statuses: map<UID, PodSyncStatus>, queue: seq<UID>, u: UID)
    requires u in queue && CanStillStart(statuses, u)
    ensures var i := FirstWaiting(statuses, queue);
            i < |queue| && u in queue[i..] && (queue[i] != u ==> u in queue[i + 1..])
  {
    var i := FirstWaiting(statuses, queue);
    var k :| 0 <= k < |queue| && queue[k] == u;
    assert i <= k;
    assert queue[i..][k - i] == u;
    if queue[i] != u { assert queue[i + 1..][k - i - 1] == u; }
  }

  /** Whoever still waits stays in its queue, except the pod that starts. */
  lemma QueueKept(p: Shared, fullname: string, uid: UID, f: string, u: UID)
    requires CanStillStart(p.statuses, u) && u in StartQueue(p, f)
    requires u != uid || !AllowStaticPodStart(p, fullname, uid).1
    ensures u in StartQueue(AllowStaticPodStart(p, fullname, uid).0, f)
  {
    if f == fullname && fullname !in p.startedStatic { FirstWaitingIn(p.statuses, StartQueue(p, f), u); }
  }

  // ---------- how steps change the two static maps ----------

  function KnownAs(p: Shared, u: UID): string {
    if u in p.statuses then p.statuses[u].fullname else ""
  }

  /** The worker gives up for good. */
  predicate Ends(e: Event, update: Option<PodWork>) {
    e.Abandon? ||
    (e.Complete? && update.Some? &&
     (update.value.workType == TerminatedPodWork ||
      (update.value.workType == TerminatingPodWork && update.value.runningPod.Some?)))
  }

  /** Except for starting, workers leave the queues alone and at most give up their own name. */
  lemma NamesAfterWorker(s: State, e: Event)
    requires Inv(s) && IsWorkerEvent(e) && Enabled(s, e) && !e.Start?
    ensures Step(s, e).p.waitingStatic == s.p.waitingStatic
    ensures var w := s.workers[WorkerOf(e)];
            Step(s, e).p.startedStatic ==
              if Ends(e, w.update) then ReleaseStatic(s.p.startedStatic, KnownAs(s.p, w.uid), w.uid)
                else s.p.startedStatic
  {
    LiveSlot(s, WorkerOf(e));
    hide Inv, SlotOf, SlotOk, CompleteStep, ReleaseStatic;
    if e.Complete? {
      NamesAfterComplete(s, e.w, e.now);
    }
  }

  lemma {:induction false} NamesAfterClosing(p: Shared, chs: seq<CompletedCh>)
    ensures CloseAll(p, chs).waitingStatic == p.waitingStatic && CloseAll(p, chs).startedStatic == p.startedStatic
    decreases |chs|
  {
    if chs != [] { NamesAfterClosing(CloseCompleted(p, chs[0]), chs[1..]); }
  }

  lemma NamesAfterTerminating(p: Shared, pod: Pod, now: Time)
    ensures CompleteTerminating(p, pod, now).waitingStatic == p.waitingStatic
    ensures CompleteTerminating(p, pod, now).startedStatic == p.startedStatic
  {
    if pod.uid in p.statuses {
      var st := p.statuses[pod.uid];
      NamesAfterClosing(SetStatus(p, pod.uid,
                                  st.(terminatedAt := now, notifyPostTerminating := [], statusPostTerminating := [])),
                        st.notifyPostTerminating);
    }
  }

  lemma NamesAfterFinish(p: Shared, uid: UID, at: Option<Time>)
    ensures CleanupPodUpdates(p, uid).waitingStatic == p.waitingStatic
    ensures CleanupPodUpdates(p, uid).startedStatic == p.startedStatic
    ensures CleanupPodUpdates(p, uid).statuses == p.statuses
    ensures Finish(p, uid, at).waitingStatic == p.waitingStatic
    ensures Finish(p, uid, at).startedStatic ==
              if uid in p.statuses then ReleaseStatic(p.startedStatic, p.statuses[uid].fullname, uid)
                else p.startedStatic
  {
  }

  lemma NamesAfterComplete(s: State, w: nat, now: Time)
    requires Enabled(s, Complete(w, now)) && s.workers[w].update.value.pod.uid in s.p.statuses
    ensures var p', update := CompleteStep(s, w, now).p, s.workers[w].update.value;
            p'.waitingStatic == s.p.waitingStatic &&
            p'.startedStatic ==
              if Ends(Complete(w, now), Some(update))
              then ReleaseStatic(s.p.startedStatic, s.p.statuses[update.pod.uid].fullname, update.pod.uid)
              else s.p.startedStatic
  {
    hide CompleteTerminating, Finish, CleanupPodUpdates, ReleaseStatic;
    var pod, update := s.workers[w].update.value.pod, s.workers[w].update.value;
    if update.workType == TerminatedPodWork {
      NamesAfterFinish(s.p, pod.uid, None);
      NamesAfterFinish(CleanupPodUpdates(s.p, pod.uid), pod.uid, None);
    } else if update.workType == TerminatingPodWork && update.runningPod.Some? {
      NamesAfterFinish(s.p, pod.uid, Some(now));
      NamesAfterFinish(Finish(s.p, pod.uid, Some(now)), pod.uid, None);
    } else {
      NamesAfterTerminating(s.p, pod, now);
    }
  }

  lemma NamesAfterDispatch(p: Shared, st: PodSyncStatus, work: PodWork, cancel: bool)
    ensures Dispatch(p, st, work, cancel).startedStatic == p.startedStatic
    ensures Dispatch(p, st, work, cancel).waitingStatic ==
              if IsStaticPod(work.pod) && work.pod.uid !in p.podUpdates
              then p.waitingStatic[st.fullname := StartQueue(p, st.fullname) + [work.pod.uid]] else p.waitingStatic
  {
  }

  lemma NamesAfterClose(p: Shared, kill: Option<KillPodOptions>)
    ensures var p' := CloseIfSet(p, kill);
            p'.startedStatic == p.startedStatic && p'.waitingStatic == p.waitingStatic && p'.podUpdates == p.podUpdates
  {
  }

  /** The pod is static and gets a worker, so it joins the queue of its name. */
  predicate Joins(p: Shared, st: PodSyncStatus, o: UpdatePodOptions)
    requires Callable(o)
  {
    IsStaticPod(PodOf(o)) && PodOf(o).uid !in p.podUpdates && !(st.Terminated() && o.pod.None?)
  }

  lemma NamesAfterQueue(p: Shared, st: PodSyncStatus, o: UpdatePodOptions, became: bool)
    requires Callable(o)
    ensures Queue(p, st, o, became).startedStatic == p.startedStatic
    ensures Queue(p, st, o, became).waitingStatic ==
              if Joins(p, st, o) then p.waitingStatic[st.fullname := StartQueue(p, st.fullname) + [PodOf(o).uid]]
              else p.waitingStatic
  {
    if !(st.Terminated() && o.pod.None?) {
      AssignNames(st, o);
      NamesAfterClose(p, o.kill);
      hide Assign, CloseIfSet;
      var (st1, work, shortened) := Assign(st, o);
      NamesAfterDispatch(if ClosesAtOnce(st) then CloseIfSet(p, o.kill) else p, st1, work, became || shortened);
      hide Dispatch, IsStaticPod;
    }
  }

  /** An update leaves the names alone and at most appends its pod to the queue of the pod's name. */
  lemma NamesAfterUpdate(s: State, o: UpdatePodOptions, cached: Option<CachedStatus>, now: Time)
    requires Enabled(s, Update(o, cached, now))
    ensures var p', slot := Step(s, Update(o, cached, now)).p, SlotOf(s, PodOf(o).uid);
            var st := Begun(slot, o, cached, now);
            p'.startedStatic == s.p.startedStatic &&
            p'.waitingStatic ==
              if Accepts(slot, o, cached, now) && Joins(s.p, st, o)
              then s.p.waitingStatic[st.fullname := StartQueue(s.p, st.fullname) + [PodOf(o).uid]]
                else s.p.waitingStatic
  {
    var slot := SlotOf(s, PodOf(o).uid);
    assert CurrentStatus(s.p, o, cached, now) == StatusAtUpdate(slot, o, cached, now);
    hide CurrentStatus, StatusAtUpdate, BeginTermination, BecomesTerminating;
    if Accepts(slot, o, cached, now) {
      var st := Begun(slot, o, cached, now);
      assert UpdatePod(s.p, o, cached, now) == Queue(s.p, st, o, Became(slot, o, cached, now));
      NamesAfterQueue(s.p, st, o, Became(slot, o, cached, now));
    }
    hide Queue, Joins;
  }

  // ---------- preservation ----------

  /** Nobody starts to wait. */
  predicate NoNewWaiter(slot: Slot, slot': Slot) {
    Waits(slot') ==> Waits(slot) && slot'.status.value.fullname == slot.status.value.fullname
  }

  /** Whoever may hold a name still may. */
  ghost predicate KeepsHolding(slot: Slot, slot': Slot) {
    forall f :: HolderOk(slot, f) ==> HolderOk(slot', f)
  }

  /** Steps that keep the queues keep everyone queued, if nobody starts to wait. */
  lemma StillQueued(s: State, s': State, u0: UID)
    requires Queued(s) && OthersKept(s, s', u0) && NoNewWaiter(SlotOf(s, u0), SlotOf(s', u0))
    requires forall u, f :: Waits(SlotOf(s', u)) && u in StartQueue(s.p, f) ==> u in StartQueue(s'.p, f)
    ensures Queued(s')
  {
    hide SlotOf, StartQueue;
    forall u | Waits(SlotOf(s', u)) ensures u in StartQueue(s'.p, SlotOf(s', u).status.value.fullname) {
      if u != u0 { assert SlotOf(s', u) == SlotOf(s, u); }
      assert u in StartQueue(s.p, SlotOf(s, u).status.value.fullname);
    }
  }

  /** Names stay with pods that still may hold them. */
  lemma StillHeld(s: State, s': State, u0: UID)
    requires Holders(s) && OthersKept(s, s', u0)
    requires forall f | f in s'.p.startedStatic ::
               (f in s.p.startedStatic && s.p.startedStatic[f] == s'.p.startedStatic[f] &&
                (s'.p.startedStatic[f] == u0 ==> KeepsHolding(SlotOf(s, u0), SlotOf(s', u0)))) ||
               (s'.p.startedStatic[f] == u0 && HolderOk(SlotOf(s', u0), f))
    ensures Holders(s')
  {
    hide SlotOf, HolderOk;
    forall f | f in s'.p.startedStatic ensures HolderOk(SlotOf(s', s'.p.startedStatic[f]), f) {
      var u := s'.p.startedStatic[f];
      if u != u0 { assert SlotOf(s', u) == SlotOf(s, u); }
    }
  }

  lemma WorkerWaits(u: UID, slot: Slot, e: Event, d: Decision)
    requires SlotOk(u, slot) && CanStep(slot, e)
    ensures NoNewWaiter(slot, WorkerStep(slot, e, d))
    ensures e.Start? && d == Go ==> !Waits(WorkerStep(slot, e, d))
    ensures e.Start? && d == Go && !slot.loop.value.worker.podStarted &&
            IsStaticPod(slot.loop.value.worker.update.value.pod) ==>
              HolderOk(WorkerStep(slot, e, d), slot.status.value.fullname)
    ensures !Ends(e, slot.loop.value.worker.update) ==> KeepsHolding(slot, WorkerStep(slot, e, d))
  {
  }

  lemma WorkerWaitsInRun(s: State, e: Event)
    requires Inv(s) && IsWorkerEvent(e) && Enabled(s, e)
    ensures var s', w := Step(s, e), s.workers[WorkerOf(e)];
            OthersKept(s, s', w.uid) && NoNewWaiter(SlotOf(s, w.uid), SlotOf(s', w.uid)) &&
            (!Ends(e, w.update) ==> KeepsHolding(SlotOf(s, w.uid), SlotOf(s', w.uid)))
  {
    WorkerRefines(s, e);
    LiveSlot(s, WorkerOf(e));
    hide Inv, Step, WorkerStep, NoNewWaiter, KeepsHolding, Answer, SlotOk;
    WorkerWaits(s.workers[WorkerOf(e)].uid, SlotOf(s, s.workers[WorkerOf(e)].uid), e, Answer(s, e));
  }

  lemma WorkerKeepsStatic(s: State, e: Event)
    requires StaticInv(s) && IsWorkerEvent(e) && Enabled(s, e) && !e.Start?
    ensures StaticInv(Step(s, e))
  {
    var s', u0 := Step(s, e), s.workers[WorkerOf(e)].uid;
    WorkerPreserves(s, e);
    WorkerWaitsInRun(s, e);
    NamesAfterWorker(s, e);
    HolderName(s, u0);
    hide Step, Inv, Enabled, SlotOf, KeepsHolding, NoNewWaiter, Ends, Holders, Queued, Waits;
    StillHeld(s, s', u0);
    StillQueued(s, s', u0);
  }

  lemma HolderName(s: State, u0: UID)
    requires Holders(s)
    ensures forall f :: f in s.p.startedStatic && s.p.startedStatic[f] == u0 ==> f == KnownAs(s.p, u0)
  {
    forall f | f in s.p.startedStatic && s.p.startedStatic[f] == u0 ensures f == KnownAs(s.p, u0) {
      assert HolderOk(SlotOf(s, u0), f);
    }
  }

  lemma StartKeepsStatic(s: State, w: nat)
    requires StaticInv(s) && Enabled(s, Start(w))
    ensures StaticInv(Step(s, Start(w)))
  {
    var e := Start(w);
    WorkerPreserves(s, e);
    WorkerRefines(s, e);
    LiveSlot(s, w);
    var s', u0 := Step(s, e), s.workers[w].uid;
    WorkerWaits(u0, SlotOf(s, u0), e, Answer(s, e));
    assert SlotOf(s', u0) == WorkerStep(SlotOf(s, u0), e, Answer(s, e));
    StartNames(s, w);
    WaitsIs(s, s', u0);
    hide Step, WorkerStep, Inv, CanStep, SlotOk, Enabled, Answer, SlotOf, KeepsHolding, NoNewWaiter, HolderOk, Holders,
      Queued, Waits,
      CanStillStart;
    StillHeld(s, s', u0);
    StillQueued(s, s', u0);
  }

  lemma WaitsIs(s: State, s': State, u0: UID)
    requires OthersKept(s, s', u0) && NoNewWaiter(SlotOf(s, u0), SlotOf(s', u0)) && SlotsOk(s)
    ensures forall u :: Waits(SlotOf(s', u)) ==> CanStillStart(s.p.statuses, u)
  {
    forall u | Waits(SlotOf(s', u)) ensures CanStillStart(s.p.statuses, u) {
      if u != u0 { assert SlotOf(s', u) == SlotOf(s, u); }
      assert SlotOk(u, SlotOf(s, u));
      assert Waits(SlotOf(s, u));
    }
  }

  predicate Holds(p: Shared, f: string, u: UID) {
    f in p.startedStatic && p.startedStatic[f] == u
  }

  /** Starting under a static name that nobody holds takes the name; whoever else waits stays in its queue. */
  lemma StartNames(s: State, w: nat)
    requires Inv(s) && Enabled(s, Start(w))
    ensures var s', u0 := Step(s, Start(w)), s.workers[w].uid;
            var goes := !s.workers[w].podStarted && Answer(s, Start(w)) == Go;
            (s'.p.startedStatic == s.p.startedStatic ||
             (goes && IsStaticPod(s.workers[w].update.value.pod) && KnownAs(s.p, u0) !in s.p.startedStatic &&
              s'.p.startedStatic == s.p.startedStatic[KnownAs(s.p, u0) := u0])) &&
            (goes && IsStaticPod(s.workers[w].update.value.pod) ==> Holds(s'.p, KnownAs(s.p, u0), u0)) &&
            forall u, f :: CanStillStart(s.p.statuses, u) && u in StartQueue(s.p, f) && (u != u0 || !goes) ==>
                           u in StartQueue(s'.p, f)
  {
    LiveSlot(s, w);
    var u0 := s.workers[w].uid;
    var s' := Step(s, Start(w));
    hide Inv, SlotOk;
    forall u, f | CanStillStart(s.p.statuses, u) && u in StartQueue(s.p, f) &&
                  (u != u0 || s.workers[w].podStarted || Answer(s, Start(w)) != Go)
      ensures u in StartQueue(s'.p, f)
    {
      if u != u0 || !AllowStaticPodStart(s.p, s.p.statuses[u0].fullname, u0).1 {
        QueueKept(s.p, s.p.statuses[u0].fullname, u0, f, u);
      }
    }
  }

  /** Only a pod that gets its worker now starts to wait; it is static. */
  lemma UpdateWaits(slot: Slot, o: UpdatePodOptions, cached: Option<CachedStatus>, now: Time)
    requires Callable(o) && now != 0 && SlotOk(PodOf(o).uid, slot)
    ensures KeepsHolding(slot, UpdateSlot(slot, o, cached, now))
    ensures var slot' := UpdateSlot(slot, o, cached, now);
            NoNewWaiter(slot, slot') ||
            (slot.loop.None? && Accepts(slot, o, cached, now) && IsStaticPod(PodOf(o)) &&
             !(Begun(slot, o, cached, now).Terminated() && o.pod.None?) &&
             slot'.status.value.fullname == Begun(slot, o, cached, now).fullname)
  {
    if slot.status.Some? { UpdateStageKept(slot, o, cached, now); }
    if Accepts(slot, o, cached, now) {
      BegunReady(slot, o, cached, now);
      AssignNames(Begun(slot, o, cached, now), o);
      hide Assign, Became;
    }
  }

  lemma AssignNames(st: PodSyncStatus, o: UpdatePodOptions)
    requires Callable(o)
    ensures Assign(st, o).1.pod == PodOf(o)
    ensures Assign(st, o).0.fullname == st.fullname && Assign(st, o).0.terminatingAt == st.terminatingAt
  {
  }

  lemma QueueGrows(p: Shared, p': Shared, f: string, u0: UID)
    requires p'.waitingStatic == p.waitingStatic ||
             p'.waitingStatic == p.waitingStatic[f := StartQueue(p, f) + [u0]]
    ensures forall u, g :: u in StartQueue(p, g) ==> u in StartQueue(p', g)
    ensures p'.waitingStatic == p.waitingStatic[f := StartQueue(p, f) + [u0]] ==> u0 in StartQueue(p', f)
  {
  }

  lemma UpdateKeepsStatic(s: State, o: UpdatePodOptions, cached: Option<CachedStatus>, now: Time)
    requires StaticInv(s) && Admissible(s, Update(o, cached, now))
    ensures StaticInv(Step(s, Update(o, cached, now)))
  {
    var e := Update(o, cached, now);
    UpdatePreserves(s, o, cached, now);
    UpdateRefines(s, o, cached, now);
    NamesAfterUpdate(s, o, cached, now);
    var s', u0 := Step(s, e), PodOf(o).uid;
    assert SlotOk(u0, SlotOf(s, u0));
    assert SlotOf(s, u0).loop.None? ==> u0 !in s.p.podUpdates;
    UpdateWaits(SlotOf(s, u0), o, cached, now);
    assert SlotOf(s', u0) == UpdateSlot(SlotOf(s, u0), o, cached, now);
    QueueGrows(s.p, s'.p, Begun(SlotOf(s, u0), o, cached, now).fullname, u0);
    hide Step, Inv, UpdateSlot, SlotOk, Begun, Accepts, SlotOf, HolderOk, Waits, KeepsHolding, IsStaticPod, Admissible,
      StartQueue;
    StillHeld(s, s', u0);
    forall u | Waits(SlotOf(s', u)) ensures u in StartQueue(s'.p, SlotOf(s', u).status.value.fullname) {
      if u != u0 { assert SlotOf(s', u) == SlotOf(s, u); }
    }
  }

  lemma HousekeepKeepsStatic(s: State, desired: set<UID>, order: seq<UID>)
    requires StaticInv(s)
    ensures StaticInv(s.(p := SyncKnownPods(s.p, desired, order)))
  {
    var s' := s.(p := SyncKnownPods(s.p, desired, order));
    HousekeepExact(s, desired, order);
    HousekeepNames(s, desired, order);
    forall u | Waits(SlotOf(s', u)) ensures u in StartQueue(s'.p, SlotOf(s', u).status.value.fullname) {
      assert SlotOf(s', u) == SlotOf(s, u);
    }
    forall f | f in s'.p.startedStatic ensures HolderOk(SlotOf(s', s'.p.startedStatic[f]), f) {
      var u := s.p.startedStatic[f];
      assert HolderOk(SlotOf(s, u), f);
      assert SlotOk(u, SlotOf(s, u));
    }
  }

  /** Finished pods hold no name, so housekeeping releases none. */
  lemma {:induction false} HousekeepNames(s: State, desired: set<UID>, order: seq<UID>)
    requires Inv(s) && Holders(s)
    ensures SyncKnownPods(s.p, desired, order).startedStatic == s.p.startedStatic
    decreases |order|
  {
    if order != [] {
      var uid := order[0];
      var p1 := VisitOne(s.p, desired, uid);
      VisitOneExact(s, desired, uid);
      RemoveFinished(s, uid);
      assert SlotOk(uid, SlotOf(s, uid));
      forall f | f in s.p.startedStatic ensures HolderOk(SlotOf(s.(p := p1), s.p.startedStatic[f]), f) {
        var u := s.p.startedStatic[f];
        assert HolderOk(SlotOf(s, u), f);
        assert SlotOk(u, SlotOf(s, u));
      }
      assert p1.startedStatic == s.p.startedStatic;
      HousekeepNames(s.(p := p1), desired, order[1..]);
    }
  }

  lemma StepKeepsStatic(s: State, e: Event)
    requires StaticInv(s) && Admissible(s, e)
    ensures StaticInv(Step(s, e))
  {
    if e.Update? {
      UpdateKeepsStatic(s, e.o, e.cached, e.now);
    } else if e.Housekeep? {
      HousekeepKeepsStatic(s, e.desired, e.order);
    } else if e.Start? {
      StartKeepsStatic(s, e.w);
    } else {
      WorkerKeepsStatic(s, e);
    }
  }

  lemma {:induction false} RunStatic(s: State, es: seq<Event>)
    requires StaticInv(s) && Run(s, es)
    ensures StaticInv(Exec(s, es))
    decreases |es|
  {
    if es != [] {
      StepKeepsStatic(s, es[0]);
      RunStatic(Step(s, es[0]), es[1..]);
    }
  }

  lemma InitialStatic()
    ensures StaticInv(INITIAL)
  {
    InitialInv();
    forall u ensures !Waits(SlotOf(INITIAL, u)) {}
  }

  // ---------- exclusion ----------

  predicate Finished(p: Shared, u: UID) {
    u in p.statuses && p.statuses[u].finished
  }

  /** A name leaves its holder only in the step that finishes the holder. */
  lemma NameKept(s: State, e: Event, f: string, u: UID)
    requires StaticInv(s) && Admissible(s, e) && Holds(s.p, f, u)
    ensures Holds(Step(s, e).p, f, u) || Finished(Step(s, e).p, u)
  {
    if e.Housekeep? {
      HousekeepNames(s, e.desired, e.order);
    } else if e.Update? {
      NamesAfterUpdate(s, e.o, e.cached, e.now);
      hide Step, Inv, Enabled, Begun, Joins, Accepts;
    } else {
      NameKeptByWorker(s, e, f, u);
    }
  }

  lemma NameKeptByWorker(s: State, e: Event, f: string, u: UID)
    requires StaticInv(s) && IsWorkerEvent(e) && Enabled(s, e) && Holds(s.p, f, u)
    ensures Holds(Step(s, e).p, f, u) || Finished(Step(s, e).p, u)
  {
    HolderName(s, u);
    StartedNames(s, e);
    if Ends(e, s.workers[WorkerOf(e)].update) { EndFinishes(s, e); }
    hide Step, Inv, Enabled, Holders, Queued, Ends, Finished, Answer;
  }

  /** A worker's step takes no name from another pod, and gives its own up only at its end. */
  lemma StartedNames(s: State, e: Event)
    requires Inv(s) && IsWorkerEvent(e) && Enabled(s, e)
    ensures var s', w := Step(s, e), s.workers[WorkerOf(e)];
            (forall f, u :: u != w.uid && Holds(s.p, f, u) ==> Holds(s'.p, f, u)) &&
            (!Ends(e, w.update) && Holds(s.p, KnownAs(s.p, w.uid), w.uid) ==>
               Holds(s'.p, KnownAs(s.p, w.uid), w.uid)) &&
            (e.Start? && !w.podStarted && Answer(s, e) == Go && IsStaticPod(w.update.value.pod) ==>
               Holds(s'.p, KnownAs(s.p, w.uid), w.uid))
  {
    if e.Start? { StartNames(s, e.w); } else { NamesAfterWorker(s, e); }
    hide Step, Inv, Enabled, Ends, Answer;
  }

  lemma EndFinishes(s: State, e: Event)
    requires Inv(s) && IsWorkerEvent(e) && Enabled(s, e) && Ends(e, s.workers[WorkerOf(e)].update)
    ensures Finished(Step(s, e).p, s.workers[WorkerOf(e)].uid)
  {
    LiveSlot(s, WorkerOf(e));
    WorkerRefines(s, e);
    assert SlotOf(Step(s, e), s.workers[WorkerOf(e)].uid).status.Some?;
  }

  /** The pod is known and unfinished in every state the run goes through. */
  ghost predicate UnfinishedThroughout(s: State, es: seq<Event>, u: UID)
    requires Run(s, es)
    decreases |es|
  {
    u in s.p.statuses && !s.p.statuses[u].finished && (es == [] || UnfinishedThroughout(Step(s, es[0]), es[1..], u))
  }

  lemma {:induction false} HeldThroughout(s: State, es: seq<Event>, f: string, u: UID)
    requires StaticInv(s) && Run(s, es) && UnfinishedThroughout(s, es, u) && Holds(s.p, f, u)
    ensures Holds(Exec(s, es).p, f, u)
    decreases |es|
  {
    if es != [] {
      NameKept(s, es[0], f, u);
      StepKeepsStatic(s, es[0]);
      HeldThroughout(Step(s, es[0]), es[1..], f, u);
    }
  }

  /** The event asks allowPodStart for a static pod known under the name `f`. */
  predicate AsksToStart(s: State, e: Event, u: UID, f: string)
    requires Enabled(s, e)
  {
    e.Start? && s.workers[e.w].uid == u && !s.workers[e.w].podStarted &&
    IsStaticPod(s.workers[e.w].update.value.pod) && KnownAs(s.p, u) == f
  }

  /** From the moment allowPodStart lets a static pod start until that pod has finished, it lets no other
      pod of the same full name start, whatever else happens. */
  lemma StaticExclusion(es: seq<Event>, e: Event, fs: seq<Event>, e2: Event, u: UID, v: UID, f: string)
    requires Run(INITIAL, es) && Admissible(Exec(INITIAL, es), e)
    requires AsksToStart(Exec(INITIAL, es), e, u, f) && Answer(Exec(INITIAL, es), e) == Go
    requires var s1 := Step(Exec(INITIAL, es), e);
             Run(s1, fs) && UnfinishedThroughout(s1, fs, u) &&
             Enabled(Exec(s1, fs), e2) && AsksToStart(Exec(s1, fs), e2, v, f)
    ensures Answer(Exec(Step(Exec(INITIAL, es), e), fs), e2) == Go ==> u == v
  {
    var s := Exec(INITIAL, es);
    InitialStatic();
    RunStatic(INITIAL, es);
    StepKeepsStatic(s, e);
    StartNames(s, e.w);
    HeldThroughout(Step(s, e), fs, f, u);
    RunStatic(Step(s, e), fs);
    HeldBlocks(Exec(Step(s, e), fs), e2, u, v, f);
  }

  lemma HeldBlocks(s: State, e: Event, u: UID, v: UID, f: string)
    requires StaticInv(s) && Enabled(s, e) && AsksToStart(s, e, v, f) && Holds(s.p, f, u)
    ensures Answer(s, e) == Go ==> u == v
  {
    LiveSlot(s, e.w);
    assert WorkerOk(v, s.p.statuses[v], s.workers[e.w]);
  }

  // ---------- order ----------

  /** In every run, a static pod that waits and has not been asked to stop is in the queue of its name. */
  lemma NoWaitingPodDropped(es: seq<Event>, u: UID)
    requires Run(INITIAL, es) && Waits(SlotOf(Exec(INITIAL, es), u))
    ensures u in StartQueue(Exec(INITIAL, es).p, KnownAs(Exec(INITIAL, es).p, u))
  {
    InitialStatic();
    RunStatic(INITIAL, es);
  }

  /** The static pod that takes a free name is the first entry of the queue that is still known and not
      asked to stop; the entries behind it stay. */
  lemma StartsInOrder(es: seq<Event>, e: Event, u: UID, f: string)
    requires Run(INITIAL, es) && Enabled(Exec(INITIAL, es), e)
    requires AsksToStart(Exec(INITIAL, es), e, u, f) && f !in Exec(INITIAL, es).p.startedStatic
    requires Answer(Exec(INITIAL, es), e) == Go
    ensures var p, p' := Exec(INITIAL, es).p, Step(Exec(INITIAL, es), e).p;
            var i := FirstWaiting(p.statuses, StartQueue(p, f));
            i < |StartQueue(p, f)| && StartQueue(p, f)[i] == u && StartQueue(p', f) == StartQueue(p, f)[i + 1..]
  {
    InitialStatic();
    RunStatic(INITIAL, es);
    StartsFirst(Exec(INITIAL, es), e, u, f);
  }

  lemma FirstOfQueue(p: Shared, f: string, u: UID)
    requires f !in p.startedStatic && CanStillStart(p.statuses, u) && u in StartQueue(p, f)
    requires AllowStaticPodStart(p, f, u).1
    ensures var i := FirstWaiting(p.statuses, StartQueue(p, f));
            i < |StartQueue(p, f)| && StartQueue(p, f)[i] == u &&
            StartQueue(AllowStaticPodStart(p, f, u).0, f) == StartQueue(p, f)[i + 1..]
  {
    FirstWaitingIn(p.statuses, StartQueue(p, f), u);
  }

  lemma StartsFirst(s: State, e: Event, u: UID, f: string)
    requires StaticInv(s) && Enabled(s, e) && AsksToStart(s, e, u, f) && f !in s.p.startedStatic && Answer(s, e) == Go
    ensures var i := FirstWaiting(s.p.statuses, StartQueue(s.p, f));
            i < |StartQueue(s.p, f)| && StartQueue(s.p, f)[i] == u &&
            StartQueue(Step(s, e).p, f) == StartQueue(s.p, f)[i + 1..]
  {
    LiveSlot(s, e.w);
    var st := s.p.statuses[u];
    assert StageOk(st) && SlotOf(s, u).status == Some(st);
    assert Waits(SlotOf(s, u)) && CanStillStart(s.p.statuses, u);
    assert u in StartQueue(s.p, f);
    hide StaticInv, Inv, SlotOf, SlotOk, AllowStaticPodStart, StartQueue, FirstWaiting;
    assert AllowStaticPodStart(s.p, f, u).1 && Step(s, e).p == AllowStaticPodStart(s.p, f, u).0;
    FirstOfQueue(s.p, f, u);
  }
}
