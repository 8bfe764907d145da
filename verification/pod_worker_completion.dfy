/** What becomes of the channel a kill request hands over to learn that the pod has terminated. */
module PodWorkerCompletion {
  import opened Wrappers
  import opened Api
  import opened PodWorkerModel
  import opened PodWorkerSteps
  import opened PodWorkerSlot
  import opened PodWorkerRefine
  import opened PodWorkerInvariant
  import opened PodWorkerTheorems

  predicate Carries(o: UpdatePodOptions, ch: CompletedCh) {
    o.kill.Some? && o.kill.value.completedCh == Some(ch)
  }

  predicate Known(p: Shared, u: UID) {
    u in p.statuses
  }

  predicate IsTerminated(p: Shared, u: UID) {
    u in p.statuses && p.statuses[u].Terminated()
  }

  /** The request is ignored, only asks for a restart, finds the pod finished, or is about an orphan whose pod
      has terminated: nobody keeps its channel. */
  predicate Drops(p: Shared, o: UpdatePodOptions, cached: Option<CachedStatus>, now: Time)
    requires Callable(o)
  {
    var st := CurrentStatus(p, o, cached, now);
    Ignored(o) || st.finished || (st.TerminationRequested() && o.updateType == SyncPodCreate) ||
    (st.Terminated() && o.pod.None?)
  }

  predicate Open(p: Shared, ch: CompletedCh) {
    ch !in p.completed
  }

  /** Whether the pod is asked to stop, by this update or before, and has not terminated. */
  predicate StopsNow(slot: Slot, o: UpdatePodOptions, cached: Option<CachedStatus>, now: Time)
    requires Callable(o)
  {
    !ClosesAtOnce(Begun(slot, o, cached, now))
  }

  /** The channel of a request waits with the pod, is closed at once, or is dropped, each in exactly one case. */
  lemma ChannelFate(s: State, o: UpdatePodOptions, cached: Option<CachedStatus>, now: Time, ch: CompletedCh)
    requires Inv(s) && Admissible(s, Update(o, cached, now)) && Carries(o, ch)
    ensures var s', slot := Step(s, Update(o, cached, now)), SlotOf(s, PodOf(o).uid);
            var dropped := Drops(s.p, o, cached, now);
            (Open(s'.p, ch) <==> dropped || StopsNow(slot, o, cached, now)) &&
            (ch in Registered(s'.p, PodOf(o).uid) <==> !dropped && StopsNow(slot, o, cached, now)) &&
            (forall u :: u != PodOf(o).uid ==> ch !in Registered(s'.p, u))
  {
    var e, slot := Update(o, cached, now), SlotOf(s, PodOf(o).uid);
    assert CurrentStatus(s.p, o, cached, now) == StatusAtUpdate(slot, o, cached, now);
    UpdateRefines(s, o, cached, now);
    UpdateCloses(s, o, cached, now);
    UpdateNotify(slot, o, cached, now);
    FreshRegistered(s.p, o);
    KeptRegistered(s, Step(s, e), PodOf(o).uid);
    assert Registered(Step(s, e).p, PodOf(o).uid) == Notify(SlotOf(Step(s, e), PodOf(o).uid));
    assert Registered(s.p, PodOf(o).uid) == Notify(slot);
    TerminatedAtStart(slot, o, cached, now);
    hide Step, Inv, UpdateSlot, StatusAtUpdate, CurrentStatus, Begun;
  }

  lemma TerminatedAtStart(slot: Slot, o: UpdatePodOptions, cached: Option<CachedStatus>, now: Time)
    requires Callable(o)
    ensures Begun(slot, o, cached, now).Terminated() == StatusAtUpdate(slot, o, cached, now).Terminated()
  {
  }

  // ---------- a waiting channel ----------

  /** The step that lets a successful syncTerminatingPod take effect for a configured pod. */
  predicate TerminatesFully(s: State, e: Event, u: UID)
    requires Enabled(s, e)
  {
    e.Complete? &&
    var update := s.workers[e.w].update.value;
    update.pod.uid == u && update.workType == TerminatingPodWork && update.runningPod.None?
  }

  /** Exactly that step empties the list of a pod, and closes all of it. */
  lemma WorkerChannels(s: State, e: Event, u: UID)
    requires Inv(s) && IsWorkerEvent(e) && Enabled(s, e) && Known(s.p, u)
    ensures var s' := Step(s, e);
            Known(s'.p, u) &&
            (if TerminatesFully(s, e, u)
             then Registered(s'.p, u) == [] && IsTerminated(s'.p, u) && !IsTerminated(s.p, u) &&
                  forall ch :: ch in Registered(s.p, u) ==> !Open(s'.p, ch)
             else Registered(s'.p, u) == Registered(s.p, u) && forall ch :: ch in Registered(s.p, u) ==> Open(s'.p, ch))
  {
    var s', u0 := Step(s, e), s.workers[WorkerOf(e)].uid;
    ClosedBySlot(s, e);
    hide Step, Inv, WorkerStep, CanStep, SlotOf, Registered, Notify, TerminatesFully, Enabled, Succeeds, CompletionOk;
    WorkerNotify(SlotOf(s, u0), e, Answer(s, e));
    WorkerTerminates(u0, SlotOf(s, u0), e, Answer(s, e));
    WaitingIsOpen(s, u0, u);
    SlotQueries(s, u);
    SlotQueries(s', u);
    if u != u0 { assert SlotOf(s', u) == SlotOf(s, u); }
  }

  lemma WaitingIsOpen(s: State, u0: UID, u: UID)
    requires Inv(s)
    ensures forall ch :: ch in Registered(s.p, u) ==> Open(s.p, ch)
    ensures u != u0 ==> forall ch :: ch in Registered(s.p, u) ==> ch !in Notify(SlotOf(s, u0))
  {
    SlotQueries(s, u0);
  }

  lemma ClosedBySlot(s: State, e: Event)
    requires Inv(s) && IsWorkerEvent(e) && Enabled(s, e)
    ensures var s', u0 := Step(s, e), s.workers[WorkerOf(e)].uid;
            var slot := SlotOf(s, u0);
            SlotOk(u0, slot) && CanStep(slot, e) && SlotOf(s', u0) == WorkerStep(slot, e, Answer(s, e)) &&
            OthersKept(s, s', u0) &&
            (forall u :: TerminatesFully(s, e, u) <==> u == u0 && Succeeds(slot, e)) &&
            s'.p.completed == s.p.completed + (if Succeeds(slot, e) then set ch | ch in Notify(slot) else {})
  {
    LiveSlot(s, WorkerOf(e));
    WorkerRefines(s, e);
    WorkerCloses(s, e);
    BusyUpdate(s, e);
    hide Step, WorkerStep, Answer, CompletionOk;
  }

  predicate Succeeds(slot: Slot, e: Event)
    requires CanStep(slot, e)
  {
    e.Complete? && slot.loop.value.worker.update.value.workType == TerminatingPodWork &&
    slot.loop.value.worker.update.value.runningPod.None?
  }

  lemma SlotQueries(s: State, u: UID)
    ensures Registered(s.p, u) == Notify(SlotOf(s, u))
    ensures Known(s.p, u) == SlotOf(s, u).status.Some?
    ensures IsTerminated(s.p, u) == (SlotOf(s, u).status.Some? && SlotOf(s, u).status.value.Terminated())
  {
  }

  lemma WorkerTerminates(u: UID, slot: Slot, e: Event, d: Decision)
    requires SlotOk(u, slot) && CanStep(slot, e)
    ensures WorkerStep(slot, e, d).status.Some?
    ensures Succeeds(slot, e) ==> !slot.status.value.Terminated() && WorkerStep(slot, e, d).status.value.Terminated()
  {
  }

  /** An update adds its own channel at most, never to a terminated pod, and closes none that waits. */
  lemma UpdateChannels(s: State, o: UpdatePodOptions, cached: Option<CachedStatus>, now: Time, u: UID)
    requires Inv(s) && Admissible(s, Update(o, cached, now)) && Known(s.p, u)
    ensures var s' := Step(s, Update(o, cached, now));
            Known(s'.p, u) && (IsTerminated(s'.p, u) <==> IsTerminated(s.p, u)) &&
            (forall ch :: ch in Registered(s.p, u) ==> ch in Registered(s'.p, u) && Open(s'.p, ch)) &&
            (IsTerminated(s.p, u) ==> Registered(s'.p, u) == Registered(s.p, u))
  {
    var u0 := PodOf(o).uid;
    var s', slot := Step(s, Update(o, cached, now)), SlotOf(s, u0);
    UpdateRefines(s, o, cached, now);
    UpdateClosesNoneWaiting(s, o, cached, now, u);
    SlotQueries(s, u);
    SlotQueries(s', u);
    hide Step, Inv, SlotOf, Registered, Notify, Begun, UpdateSlot, StatusAtUpdate, Accepts, FreshChannel;
    UpdateNotify(slot, o, cached, now);
    if slot.status.Some? { UpdateTerminates(slot, o, cached, now); }
    assert u != u0 ==> SlotOf(s', u) == SlotOf(s, u);
  }

  lemma UpdateClosesNoneWaiting(s: State, o: UpdatePodOptions, cached: Option<CachedStatus>, now: Time, u: UID)
    requires Inv(s) && Admissible(s, Update(o, cached, now))
    ensures forall ch :: ch in Registered(s.p, u) ==> Open(Step(s, Update(o, cached, now)).p, ch)
  {
    UpdateCloses(s, o, cached, now);
    UpdateClosesOwn(s, o, cached, now);
    if o.kill.Some? && o.kill.value.completedCh.Some? { FreshRegistered(s.p, o); }
    hide Step, ClosedBy, Registered, Linked, SlotsOk, FreshChannel;
  }

  lemma UpdateTerminates(slot: Slot, o: UpdatePodOptions, cached: Option<CachedStatus>, now: Time)
    requires Callable(o) && slot.status.Some?
    ensures UpdateSlot(slot, o, cached, now).status.Some?
    ensures UpdateSlot(slot, o, cached, now).status.value.Terminated() == slot.status.value.Terminated()
    ensures slot.status.value.Terminated() ==> ClosesAtOnce(Begun(slot, o, cached, now))
  {
    TerminatedAtStart(slot, o, cached, now);
    AssignTerminated(Begun(slot, o, cached, now), o);
    hide Assign, BeginTermination;
  }

  lemma AssignTerminated(st: PodSyncStatus, o: UpdatePodOptions)
    requires Callable(o)
    ensures Assign(st, o).0.Terminated() == st.Terminated()
  {
  }

  /** In every run a waiting channel goes on waiting, open and with its pod, until the pod's successful
      syncTerminatingPod closes it with all the others, or housekeeping forgets the finished pod. */
  lemma WaitsUntilTerminated(es: seq<Event>, e: Event, u: UID, ch: CompletedCh)
    requires Run(INITIAL, es) && Admissible(Exec(INITIAL, es), e) && ch in Registered(Exec(INITIAL, es).p, u)
    ensures var s, s' := Exec(INITIAL, es), Step(Exec(INITIAL, es), e);
            Known(s.p, u) && Open(s.p, ch) &&
            if TerminatesFully(s, e, u) then
              !Open(s'.p, ch) && !IsTerminated(s.p, u) && IsTerminated(s'.p, u) && Registered(s'.p, u) == []
            else if Known(s'.p, u) then Open(s'.p, ch) && ch in Registered(s'.p, u)
            else e.Housekeep? && s.p.statuses[u].finished && Open(s'.p, ch)
  {
    var s := Exec(INITIAL, es);
    InitialInv();
    RunPreserves(INITIAL, es);
    if e.Update? {
      UpdateChannels(s, e.o, e.cached, e.now, u);
    } else if e.Housekeep? {
      HousekeepExact(s, e.desired, e.order);
    } else {
      WorkerChannels(s, e, u);
    }
    hide Inv;
  }

  /** No channel is ever registered for a pod that has terminated. */
  lemma NoneRegisteredAfterwards(es: seq<Event>, e: Event, u: UID)
    requires Run(INITIAL, es) && Admissible(Exec(INITIAL, es), e) && IsTerminated(Exec(INITIAL, es).p, u)
    ensures Known(Step(Exec(INITIAL, es), e).p, u) ==>
              Registered(Step(Exec(INITIAL, es), e).p, u) == Registered(Exec(INITIAL, es).p, u)
  {
    var s := Exec(INITIAL, es);
    InitialInv();
    RunPreserves(INITIAL, es);
    if e.Update? {
      UpdateChannels(s, e.o, e.cached, e.now, u);
    } else if e.Housekeep? {
      HousekeepExact(s, e.desired, e.order);
    } else {
      WorkerChannels(s, e, u);
    }
    hide Inv;
  }

  /** When a pod terminates, the promise that no channel of it is left open is kept exactly by the step that
      follows syncTerminatingPod of a configured pod: an orphan and a pod that never started keep theirs open. */
  lemma PromiseKeptIff(es: seq<Event>, e: Event, u: UID)
    requires Run(INITIAL, es) && Admissible(Exec(INITIAL, es), e)
    requires Known(Exec(INITIAL, es).p, u) && !IsTerminated(Exec(INITIAL, es).p, u)
    requires IsTerminated(Step(Exec(INITIAL, es), e).p, u)
    ensures var s, s' := Exec(INITIAL, es), Step(Exec(INITIAL, es), e);
            (forall ch :: ch in Registered(s.p, u) ==> !Open(s'.p, ch)) <==>
            Registered(s.p, u) == [] || TerminatesFully(s, e, u)
  {
    var s := Exec(INITIAL, es);
    InitialInv();
    RunPreserves(INITIAL, es);
    if e.Update? {
      UpdateChannels(s, e.o, e.cached, e.now, u);
    } else if e.Housekeep? {
      HousekeepExact(s, e.desired, e.order);
    } else {
      WorkerChannels(s, e, u);
      if Registered(s.p, u) != [] { assert Registered(s.p, u)[0] in Registered(s.p, u); }
    }
    hide Inv;
  }

  // ---------- a channel nobody keeps ----------

  ghost predicate Lost(p: Shared, ch: CompletedCh) {
    Open(p, ch) && forall u :: ch !in Registered(p, u)
  }

  ghost predicate NotHandedOver(es: seq<Event>, ch: CompletedCh) {
    forall i :: 0 <= i < |es| && es[i].Update? ==> !Carries(es[i].o, ch)
  }

  lemma LostStays(s: State, e: Event, ch: CompletedCh)
    requires Inv(s) && Admissible(s, e) && Lost(s.p, ch) && (e.Update? ==> !Carries(e.o, ch))
    ensures Lost(Step(s, e).p, ch)
  {
    var s' := Step(s, e);
    if e.Housekeep? {
      HousekeepExact(s, e.desired, e.order);
      forall u ensures ch !in Registered(s'.p, u) {
        assert ch !in Registered(s.p, u);
      }
    } else if e.Update? {
      UpdateCloses(s, e.o, e.cached, e.now);
      UpdateRefines(s, e.o, e.cached, e.now);
      UpdateNotify(SlotOf(s, PodOf(e.o).uid), e.o, e.cached, e.now);
      KeptRegistered(s, s', PodOf(e.o).uid);
      SlotQueries(s, PodOf(e.o).uid);
      SlotQueries(s', PodOf(e.o).uid);
      hide Step, Inv, UpdateSlot, Begun, SlotOf, Notify, Accepts;
    } else {
      LostStaysAtWorker(s, e, ch);
    }
  }

  lemma LostStaysAtWorker(s: State, e: Event, ch: CompletedCh)
    requires Inv(s) && IsWorkerEvent(e) && Enabled(s, e) && Lost(s.p, ch)
    ensures Lost(Step(s, e).p, ch)
  {
    var s', u0 := Step(s, e), s.workers[WorkerOf(e)].uid;
    LiveSlot(s, WorkerOf(e));
    WorkerRefines(s, e);
    WorkerCloses(s, e);
    BusyUpdate(s, e);
    WorkerNotify(SlotOf(s, u0), e, Answer(s, e));
    KeptRegistered(s, s', u0);
    SlotQueries(s, u0);
    SlotQueries(s', u0);
    hide Step, WorkerStep, Inv, SlotOf, Notify, ClosedBy, SlotOk, Answer, Enabled;
  }

  /** Nothing ever closes a channel that nobody keeps. */
  lemma {:induction false} LostForGood(s: State, es: seq<Event>, ch: CompletedCh)
    requires Inv(s) && Run(s, es) && Lost(s.p, ch) && NotHandedOver(es, ch)
    ensures Open(Exec(s, es).p, ch)
    decreases |es|
  {
    if es != [] {
      LostStays(s, es[0], ch);
      StepPreserves(s, es[0]);
      assert forall i :: 0 <= i < |es[1..]| ==> es[1..][i] == es[i + 1];
      LostForGood(Step(s, es[0]), es[1..], ch);
    }
  }

  /** The channel of a dropped request is never closed, however the run goes on. */
  lemma DroppedIsNeverClosed(
      es: seq<Event>, o: UpdatePodOptions, cached: Option<CachedStatus>, now: Time, ch: CompletedCh, fs: seq<Event>)
    requires Run(INITIAL, es) && Admissible(Exec(INITIAL, es), Update(o, cached, now)) && Carries(o, ch)
    requires Drops(Exec(INITIAL, es).p, o, cached, now)
    requires Run(Step(Exec(INITIAL, es), Update(o, cached, now)), fs) && NotHandedOver(fs, ch)
    ensures Open(Exec(Step(Exec(INITIAL, es), Update(o, cached, now)), fs).p, ch)
  {
    var s, e := Exec(INITIAL, es), Update(o, cached, now);
    InitialInv();
    RunPreserves(INITIAL, es);
    ChannelFate(s, o, cached, now, ch);
    StepPreserves(s, e);
    LostForGood(Step(s, e), fs, ch);
  }

  const FAILED_POD := Pod("a", "web", "default", map[], None, None, None, EMPTY_SPEC, EMPTY_STATUS.(phase := PodFailed))
  const FIRST_KILL := UpdatePodOptions(SyncPodKill, 1, Some(FAILED_POD), None, None,
                                       Some(NO_KILL.(completedCh := Some(7))))

  /** A pod that had failed before the kubelet started is finished at once. A request to kill it is dropped: its
      channel stays open although the pod can have no running containers. */
  lemma PromiseBroken()
    ensures var e := Update(FIRST_KILL, Some(CachedStatus([], [])), 1);
            Admissible(INITIAL, e) && Drops(INITIAL.p, FIRST_KILL, Some(CachedStatus([], [])), 1) &&
            !CouldHaveRunningContainers(Step(INITIAL, e).p, "a") &&
            Lost(Step(INITIAL, e).p, 7)
  {
  }
}
