/** The order in which a worker makes its calls, and exactly when that order is safe.

    A worker runs syncPod until the pod has to stop, then syncTerminatingPod until it succeeds, then
    syncTerminatedPod. One branch of UpdatePod can break this: an idle worker is handed the request to stop through
    its channel although an older item is still in the undelivered slot, and the older item runs later. */
module PodWorkerLifecycle {
  import opened Wrappers
  import opened Api
  import opened PodWorkerModel
  import opened PodWorkerSteps
  import opened PodWorkerSlot
  import opened PodWorkerRefine
  import opened PodWorkerInvariant
  import opened PodWorkerTheorems

  /** The update goes past an older undelivered item, and its own item does not have to wait to start. */
  predicate Overtakes(p: Shared, o: UpdatePodOptions)
    requires Callable(o)
  {
    var uid := PodOf(o).uid;
    !Ignored(o) && uid in p.lastUndelivered && uid in p.statuses && !p.statuses[uid].working && !IsStaticPod(PodOf(o))
  }

  /** The update goes past an older item and asks its pod to stop. */
  predicate Endangers(s: State, e: Event)
    requires e.Update? ==> Callable(e.o)
  {
    e.Update? && Overtakes(s.p, e.o) && Became(SlotOf(s, PodOf(e.o).uid), e.o, e.cached, e.now)
  }

  ghost predicate Orderly(s: State, e: Event) {
    Admissible(s, e) && !Endangers(s, e)
  }

  ghost predicate OrderlyRun(s: State, es: seq<Event>)
    decreases |es|
  {
    es == [] || (Orderly(s, es[0]) && OrderlyRun(Step(s, es[0]), es[1..]))
  }

  lemma {:induction false} OrderlyRuns(s: State, es: seq<Event>)
    requires OrderlyRun(s, es)
    ensures Run(s, es)
    decreases |es|
  {
    if es != [] { OrderlyRuns(Step(s, es[0]), es[1..]); }
  }

  // ---------- the order of the items ----------

  predicate IsSync(work: Option<PodWork>) {
    work.Some? && work.value.workType == SyncPodWork
  }

  predicate HoldsStatic(l: Loop) {
    (l.chan.buffer.Some? && IsStaticPod(l.chan.buffer.value.pod)) ||
    (l.worker.pc == Starting && l.worker.update.Some? && IsStaticPod(l.worker.update.value.pod)) ||
    l.worker.pc == Abandoning
  }

  /** Once the worker has started to terminate, no sync work is left for it. */
  predicate OrderOk(slot: Slot) {
    slot.status.Some? && slot.loop.Some? ==>
      var st, l := slot.status.value, slot.loop.value;
      (st.TerminationRequested() && IsSync(slot.undelivered) ==> !l.worker.podStarted && HoldsStatic(l)) &&
      (st.startedTerminating ==>
         l.worker.podStarted && !IsSync(l.chan.buffer) && !IsSync(slot.undelivered) &&
         (Busy(l.worker.pc) && l.worker.pc != Queueing ==> !IsSync(l.worker.update)))
  }

  lemma WorkerOrderOk(u: UID, slot: Slot, e: Event, d: Decision)
    requires SlotOk(u, slot) && OrderOk(slot) && CanStep(slot, e)
    requires e.Start? && !slot.loop.value.worker.podStarted ==> DecisionFits(slot, d)
    ensures OrderOk(WorkerStep(slot, e, d))
  {
  }

  lemma QueueOrderOk(u: UID, slot: Slot, st: PodSyncStatus, o: UpdatePodOptions, became: bool)
    requires Callable(o) && PodOf(o).uid == u && ReadyFor(u, slot, st)
    requires slot.status.Some? ==> OrderOk(slot) && slot.status.value.working == st.working &&
                                   slot.status.value.startedTerminating == st.startedTerminating
    requires slot.status.None? ==> slot.loop.None? && !st.startedTerminating
    requires (slot.status.Some? && st.TerminationRequested() && !slot.status.value.TerminationRequested() &&
              slot.undelivered.Some? && !st.working) ==> IsStaticPod(PodOf(o))
    requires slot.status.Some? && st.TerminationRequested() && IsSync(slot.undelivered) &&
             !slot.status.value.TerminationRequested()
             ==> st.working || slot.loop.None? || !slot.loop.value.worker.podStarted
    requires slot.loop.None? ==> !st.startedTerminating
    ensures OrderOk(QueueSlot(slot, st, o, became))
  {
    if !(st.Terminated() && o.pod.None?) {
      AssignFacts(st, o);
      hide Assign, EffectiveGracePeriod;
    }
  }

  lemma AssignFacts(st: PodSyncStatus, o: UpdatePodOptions)
    requires Callable(o)
    ensures var (st1, work, _) := Assign(st, o);
            work.pod == PodOf(o) && st1.working == st.working && st1.startedTerminating == st.startedTerminating &&
            st1.terminatingAt == st.terminatingAt && st1.terminatedAt == st.terminatedAt &&
            (work.workType == SyncPodWork <==> !st.TerminationRequested() && !st.Terminated())
  {
  }

  lemma UpdateOrderOk(slot: Slot, o: UpdatePodOptions, cached: Option<CachedStatus>, now: Time)
    requires Callable(o) && now != 0 && SlotOk(PodOf(o).uid, slot) && OrderOk(slot)
    requires (!Ignored(o) && slot.undelivered.Some? && slot.status.Some? && !slot.status.value.working &&
              Became(slot, o, cached, now)) ==> IsStaticPod(PodOf(o))
    ensures OrderOk(UpdateSlot(slot, o, cached, now))
  {
    if Accepts(slot, o, cached, now) {
      BegunReady(slot, o, cached, now);
      var st := Begun(slot, o, cached, now);
      assert slot.status.Some? ==> slot.status.value.working == st.working &&
                                   slot.status.value.startedTerminating == st.startedTerminating;
      hide QueueSlot, Became;
      QueueOrderOk(PodOf(o).uid, slot, st, o, Became(slot, o, cached, now));
    }
  }

  ghost predicate OrderInv(s: State) {
    Inv(s) && forall u :: OrderOk(SlotOf(s, u))
  }

  lemma StepOrder(s: State, e: Event)
    requires OrderInv(s) && Orderly(s, e)
    ensures OrderInv(Step(s, e))
  {
    StepPreserves(s, e);
    var s' := Step(s, e);
    if e.Housekeep? {
      HousekeepExact(s, e.desired, e.order);
      forall u ensures OrderOk(SlotOf(s', u)) {
        assert OrderOk(SlotOf(s, u));
        assert SlotOk(u, SlotOf(s, u));
      }
    } else if e.Update? {
      UpdateRefines(s, e.o, e.cached, e.now);
      UpdateKeepsOrder(s, e.o, e.cached, e.now);
    } else {
      WorkerRefines(s, e);
      WorkerKeepsOrder(s, e);
    }
  }

  lemma UpdateKeepsSlotOrder(s: State, o: UpdatePodOptions, cached: Option<CachedStatus>, now: Time)
    requires OrderInv(s) && Orderly(s, Update(o, cached, now))
    ensures OrderOk(UpdateSlot(SlotOf(s, PodOf(o).uid), o, cached, now))
  {
    var u0 := PodOf(o).uid;
    assert SlotOk(u0, SlotOf(s, u0)) && OrderOk(SlotOf(s, u0));
    hide SlotOk, OrderOk, UpdateSlot, Became, Inv;
    UpdateOrderOk(SlotOf(s, u0), o, cached, now);
  }

  lemma UpdateKeepsOrder(s: State, o: UpdatePodOptions, cached: Option<CachedStatus>, now: Time)
    requires OrderInv(s) && Orderly(s, Update(o, cached, now))
    requires RefinesUpdate(s, Step(s, Update(o, cached, now)), PodOf(o).uid,
                           UpdateSlot(SlotOf(s, PodOf(o).uid), o, cached, now))
    ensures forall u :: OrderOk(SlotOf(Step(s, Update(o, cached, now)), u))
  {
    UpdateKeepsSlotOrder(s, o, cached, now);
    hide Step, UpdateSlot, Inv, SlotOf, OrderOk, Orderly;
    var s', u0 := Step(s, Update(o, cached, now)), PodOf(o).uid;
    forall u ensures OrderOk(SlotOf(s', u)) {
      assert OrderOk(SlotOf(s, u));
    }
  }

  lemma WorkerKeepsOrder(s: State, e: Event)
    requires OrderInv(s) && IsWorkerEvent(e) && Enabled(s, e) && RefinesSlot(s, e)
    requires e.Start? ==> DecisionFits(SlotOf(s, s.workers[e.w].uid), Answer(s, e))
    ensures forall u :: OrderOk(SlotOf(Step(s, e), u))
  {
    var s', u0 := Step(s, e), s.workers[WorkerOf(e)].uid;
    assert SlotOk(u0, SlotOf(s, u0));
    WorkerOrderOk(u0, SlotOf(s, u0), e, Answer(s, e));
    hide Step, WorkerStep, Inv, SlotOk, OrderOk, CanStep, DecisionFits;
    forall u ensures OrderOk(SlotOf(s', u)) {
      assert OrderOk(SlotOf(s, u));
    }
  }

  lemma {:induction false} RunOrder(s: State, es: seq<Event>)
    requires OrderInv(s) && OrderlyRun(s, es)
    ensures Run(s, es) && OrderInv(Exec(s, es))
    decreases |es|
  {
    OrderlyRuns(s, es);
    if es != [] {
      StepOrder(s, es[0]);
      RunOrder(Step(s, es[0]), es[1..]);
    }
  }

  lemma InitialOrder()
    ensures OrderInv(INITIAL)
  {
    InitialInv();
    forall u ensures OrderOk(SlotOf(INITIAL, u)) {}
  }

  // ---------- no set-up after tear-down has begun ----------

  /** When the kubelet says a pod's containers should be terminating, syncPod is not running for it. */
  lemma NoSyncWhileTerminating(es: seq<Event>, u: UID)
    requires OrderlyRun(INITIAL, es) && Run(INITIAL, es)
    requires ShouldPodContainersBeTerminating(Exec(INITIAL, es).p, u)
    ensures !Calling(Exec(INITIAL, es), u, SyncPodWork)
  {
    InitialOrder();
    RunOrder(INITIAL, es);
    NoSync(Exec(INITIAL, es), u);
  }

  lemma NoSync(s: State, u: UID)
    requires OrderInv(s) && (u in s.p.statuses ==> s.p.statuses[u].startedTerminating)
    ensures !Calling(s, u, SyncPodWork)
  {
    forall w: nat | w < |s.workers| && s.workers[w].pc == Syncing && s.workers[w].update.Some? &&
                    s.workers[w].update.value.pod.uid == u
      ensures s.workers[w].update.value.workType != SyncPodWork
    {
      LiveSlot(s, w);
      assert OrderOk(SlotOf(s, u));
    }
  }

  /** Once a worker has started to terminate its pod, no run that still knows the pod sets it up again. */
  lemma {:induction false} SetUpIsOver(s: State, es: seq<Event>, u: UID)
    requires OrderInv(s) && OrderlyRun(s, es) && Run(s, es) && KnownThroughout(s, es, u)
    requires s.p.statuses[u].startedTerminating
    ensures !Calling(Exec(s, es), u, SyncPodWork) && ShouldPodContainersBeTerminating(Exec(s, es).p, u)
    decreases |es|
  {
    if es == [] {
      NoSync(s, u);
    } else {
      StepOrder(s, es[0]);
      StagesOnlyAdvance(s, es[0], u);
      SetUpIsOver(Step(s, es[0]), es[1..], u);
    }
  }

  // ---------- the language of the calls ----------

  /** What one incarnation of a UID has done: the calls it began, and how they ended. */
  datatype CallEvent = Began(workType: PodWorkType) | Returned(workType: PodWorkType, ok: bool)

  function Rank(workType: PodWorkType): nat {
    match workType case SyncPodWork => 0 case TerminatingPodWork => 1 case TerminatedPodWork => 2
  }

  /** Sync* Terminating* Terminated*, with a successful syncTerminatingPod before any syncTerminatedPod. */
  ghost predicate InLanguage(log: seq<CallEvent>) {
    (forall i, j :: 0 <= i < j < |log| && log[i].Began? && log[j].Began? ==>
       Rank(log[i].workType) <= Rank(log[j].workType)) &&
    SucceedsFirst(log)
  }

  ghost predicate SucceedsFirst(log: seq<CallEvent>) {
    forall j :: 0 <= j < |log| && log[j] == Began(TerminatedPodWork) ==> Returned(TerminatingPodWork, true) in log[..j]
  }

  /** Nothing but syncTerminatedPod begins after a syncTerminatedPod, and a successful syncTerminatingPod comes
      before it. */
  ghost predicate EndsOnce(log: seq<CallEvent>) {
    (forall i, j :: 0 <= i < j < |log| && log[i] == Began(TerminatedPodWork) && log[j].Began? ==>
       log[j] == Began(TerminatedPodWork)) &&
    SucceedsFirst(log)
  }

  /** No syncPod begins after a syncTerminatingPod. */
  ghost predicate SyncsFirst(log: seq<CallEvent>) {
    forall i, j :: 0 <= i < j < |log| && log[i] == Began(TerminatingPodWork) ==> log[j] != Began(SyncPodWork)
  }

  lemma LanguageIs(log: seq<CallEvent>)
    ensures InLanguage(log) <==> EndsOnce(log) && SyncsFirst(log)
  {
    if EndsOnce(log) && SyncsFirst(log) {
      forall i, j | 0 <= i < j < |log| && log[i].Began? && log[j].Began?
        ensures Rank(log[i].workType) <= Rank(log[j].workType)
      {
        assert log[i] == Began(log[i].workType) && log[j] == Began(log[j].workType);
      }
    }
    if InLanguage(log) {
      forall i, j | 0 <= i < j < |log| && log[i] == Began(TerminatedPodWork) && log[j].Began?
        ensures log[j] == Began(TerminatedPodWork)
      {
        assert Rank(log[i].workType) <= Rank(log[j].workType);
      }
    }
  }

  /** The log of the current incarnation of `u` after one more event; a purge starts a new one. */
  ghost function Logged(s: State, e: Event, u: UID, log: seq<CallEvent>): seq<CallEvent>
    requires Enabled(s, e)
  {
    match e
    case TakeContext(w) =>
      var update := s.workers[w].update.value;
      if update.pod.uid == u && update.workType != TerminatingPodWork then log + [Began(update.workType)] else log
    case Acknowledge(w) =>
      if s.workers[w].update.value.pod.uid == u then log + [Began(TerminatingPodWork)] else log
    case Return(w, result) =>
      var update := s.workers[w].update.value;
      if update.pod.uid == u then log + [Returned(update.workType, result.SyncOk?)] else log
    case Housekeep(_, _) => if u in Step(s, e).p.statuses then log else []
    case _ => log
  }

  ghost function LogOf(s: State, es: seq<Event>, u: UID, log: seq<CallEvent>): seq<CallEvent>
    requires Run(s, es)
    decreases |es|
  {
    if es == [] then log else LogOf(Step(s, es[0]), es[1..], u, Logged(s, es[0], u, log))
  }

  /** What the slot says about the calls made so far. */
  predicate LogFacts(slot: Slot, log: seq<CallEvent>) {
    (slot.status.None? ==> log == []) &&
    (slot.status.Some? ==>
      var st := slot.status.value;
      (Began(TerminatingPodWork) in log || Began(TerminatedPodWork) in log ==> st.startedTerminating) &&
      (Began(TerminatedPodWork) in log ==> st.Terminated()) &&
      (Returned(TerminatingPodWork, true) in log ==> st.startedTerminating) &&
      (slot.loop.Some? && TearingDown(slot.loop.value.worker) ==> st.startedTerminating) &&
      (slot.loop.Some? && (st.Terminated() || Succeeded(slot.loop.value.worker)) ==>
        Returned(TerminatingPodWork, true) in log))
  }

  /** The worker is inside syncTerminatingPod. */
  predicate TearingDown(w: Worker) {
    w.pc == Syncing && w.update.Some? && w.update.value.workType == TerminatingPodWork
  }

  /** The worker comes out of a successful syncTerminatingPod. */
  predicate Succeeded(w: Worker) {
    w.pc == Completing && w.update.Some? && w.update.value.workType == TerminatingPodWork
  }

  ghost predicate LogOk(slot: Slot, log: seq<CallEvent>) {
    EndsOnce(log) && LogFacts(slot, log)
  }

  lemma AppendBegan(log: seq<CallEvent>, workType: PodWorkType)
    requires EndsOnce(log)
    requires workType != TerminatedPodWork ==> Began(TerminatedPodWork) !in log
    requires workType == TerminatedPodWork ==> Returned(TerminatingPodWork, true) in log
    ensures EndsOnce(log + [Began(workType)])
  {
    var log' := log + [Began(workType)];
    assert log'[..|log|] == log;
    forall i, j | 0 <= i < j < |log'| && log'[i] == Began(TerminatedPodWork) && log'[j].Began?
      ensures log'[j] == Began(TerminatedPodWork)
    {
      assert log[i] in log;
    }
    forall j | 0 <= j < |log'| && log'[j] == Began(TerminatedPodWork)
      ensures Returned(TerminatingPodWork, true) in log'[..j]
    {
      if j < |log| { assert log'[..j] == log[..j]; }
    }
  }

  lemma AppendReturned(log: seq<CallEvent>, workType: PodWorkType, ok: bool)
    requires EndsOnce(log)
    ensures EndsOnce(log + [Returned(workType, ok)])
  {
    var log' := log + [Returned(workType, ok)];
    forall j | 0 <= j < |log'| && log'[j] == Began(TerminatedPodWork)
      ensures Returned(TerminatingPodWork, true) in log'[..j]
    {
      assert log'[..j] == log[..j];
    }
  }

  /** What a step of the worker of `slot` appends. */
  function Appended(slot: Slot, e: Event): seq<CallEvent>
    requires CanStep(slot, e)
  {
    if e.TakeContext? then
      (if slot.loop.value.worker.update.value.workType != TerminatingPodWork
       then [Began(slot.loop.value.worker.update.value.workType)] else [])
    else if e.Acknowledge? then [Began(TerminatingPodWork)]
    else if e.Return? then [Returned(slot.loop.value.worker.update.value.workType, e.result.SyncOk?)]
    else []
  }

  lemma WorkerEndsOnce(u: UID, slot: Slot, e: Event, log: seq<CallEvent>)
    requires SlotOk(u, slot) && LogOk(slot, log) && CanStep(slot, e)
    ensures EndsOnce(log + Appended(slot, e))
  {
    var update := slot.loop.value.worker.update;
    if e.Return? {
      AppendReturned(log, update.value.workType, e.result.SyncOk?);
    } else if e.TakeContext? && update.value.workType != TerminatingPodWork {
      hide EndsOnce;
      AppendBegan(log, update.value.workType);
    } else if e.Acknowledge? {
      hide EndsOnce;
      AppendBegan(log, TerminatingPodWork);
    } else {
      assert log + Appended(slot, e) == log;
    }
  }

  lemma WorkerFacts(u: UID, slot: Slot, e: Event, d: Decision, log: seq<CallEvent>)
    requires SlotOk(u, slot) && LogFacts(slot, log) && CanStep(slot, e)
    ensures LogFacts(WorkerStep(slot, e, d), log + Appended(slot, e))
  {
  }

  lemma WorkerLogOk(u: UID, slot: Slot, e: Event, d: Decision, log: seq<CallEvent>)
    requires SlotOk(u, slot) && LogOk(slot, log) && CanStep(slot, e)
    ensures LogOk(WorkerStep(slot, e, d), log + Appended(slot, e))
  {
    WorkerEndsOnce(u, slot, e, log);
    WorkerFacts(u, slot, e, d, log);
  }

  lemma UpdateLogOk(slot: Slot, o: UpdatePodOptions, cached: Option<CachedStatus>, now: Time, log: seq<CallEvent>)
    requires Callable(o) && now != 0 && SlotOk(PodOf(o).uid, slot) && LogOk(slot, log)
    ensures LogOk(UpdateSlot(slot, o, cached, now), log)
  {
    hide EndsOnce;
    if slot.status.Some? { UpdateStageKept(slot, o, cached, now); }
    UpdateLoopKept(slot, o, cached, now);
    hide UpdateSlot;
  }

  /** An update does not terminate a pod, and leaves its goroutine where it is. */
  lemma UpdateLoopKept(slot: Slot, o: UpdatePodOptions, cached: Option<CachedStatus>, now: Time)
    requires Callable(o) && now != 0 && SlotOk(PodOf(o).uid, slot)
    ensures var slot' := UpdateSlot(slot, o, cached, now);
            (slot'.status.Some? && slot'.loop.Some? && slot'.status.value.Terminated() ==>
               slot.status.Some? && slot.loop.Some? && slot.status.value.Terminated()) &&
            (slot.loop.Some? ==> slot'.loop.Some? && slot'.loop.value.worker == slot.loop.value.worker) &&
            (slot.loop.None? && slot'.loop.Some? ==> slot'.loop.value.worker.pc == Receiving) &&
            (slot.status.Some? ==> slot'.status.Some?)
  {
    if Accepts(slot, o, cached, now) {
      BegunReady(slot, o, cached, now);
      AssignFacts(Begun(slot, o, cached, now), o);
      hide Assign, Became;
    }
  }

  lemma StepLog(s: State, e: Event, u: UID, log: seq<CallEvent>)
    requires Inv(s) && Admissible(s, e) && LogOk(SlotOf(s, u), log)
    ensures LogOk(SlotOf(Step(s, e), u), Logged(s, e, u, log))
  {
    assert SlotOk(u, SlotOf(s, u));
    if e.Housekeep? {
      HousekeepExact(s, e.desired, e.order);
    } else if e.Update? {
      UpdateRefines(s, e.o, e.cached, e.now);
      if u == PodOf(e.o).uid { UpdateLogOk(SlotOf(s, u), e.o, e.cached, e.now, log); }
      hide UpdateSlot, LogOk, Step;
    } else {
      WorkerRefines(s, e);
      var w := WorkerOf(e);
      LiveSlot(s, w);
      if u == s.workers[w].uid {
        WorkerLogOk(u, SlotOf(s, u), e, Answer(s, e), log);
        LoggedIs(s, e, u, log);
      } else {
        LoggedOther(s, e, u, log);
      }
      hide WorkerStep, LogOk, Step, Logged;
    }
  }

  lemma LoggedIs(s: State, e: Event, u: UID, log: seq<CallEvent>)
    requires Inv(s) && IsWorkerEvent(e) && Enabled(s, e) && u == s.workers[WorkerOf(e)].uid && CanStep(SlotOf(s, u), e)
    ensures Logged(s, e, u, log) == log + Appended(SlotOf(s, u), e)
  {
    LiveSlot(s, WorkerOf(e));
    assert log + [] == log;
  }

  lemma LoggedOther(s: State, e: Event, u: UID, log: seq<CallEvent>)
    requires Inv(s) && IsWorkerEvent(e) && Enabled(s, e) && u != s.workers[WorkerOf(e)].uid
    requires s.workers[WorkerOf(e)].pc != Exited
    ensures Logged(s, e, u, log) == log
  {
    LiveSlot(s, WorkerOf(e));
  }

  lemma {:induction false} RunLog(s: State, es: seq<Event>, u: UID, log: seq<CallEvent>)
    requires Inv(s) && Run(s, es) && LogOk(SlotOf(s, u), log)
    ensures Inv(Exec(s, es)) && LogOk(SlotOf(Exec(s, es), u), LogOf(s, es, u, log))
    decreases |es|
  {
    if es != [] {
      StepLog(s, es[0], u, log);
      StepPreserves(s, es[0]);
      RunLog(Step(s, es[0]), es[1..], u, Logged(s, es[0], u, log));
    }
  }

  /** In every run, nothing but syncTerminatedPod begins for an incarnation of a pod after a syncTerminatedPod, a
      successful syncTerminatingPod comes before it, and no goroutine is left for a finished pod. */
  lemma TerminatedIsTheEnd(es: seq<Event>, u: UID)
    requires Run(INITIAL, es)
    ensures EndsOnce(LogOf(INITIAL, es, u, []))
    ensures var s := Exec(INITIAL, es);
            u in s.p.statuses && s.p.statuses[u].finished ==>
              forall w: nat :: w < |s.workers| && s.workers[w].pc != Exited ==> s.workers[w].uid != u
  {
    InitialInv();
    RunLog(INITIAL, es, u, []);
    var s := Exec(INITIAL, es);
    forall w: nat | w < |s.workers| && s.workers[w].pc != Exited && u in s.p.statuses && s.p.statuses[u].finished
      ensures s.workers[w].uid != u
    {
      LiveSlot(s, w);
    }
  }

  lemma SyncsFirstOneMore(log: seq<CallEvent>, more: seq<CallEvent>)
    requires SyncsFirst(log) && |more| <= 1
    requires Began(SyncPodWork) in more ==> Began(TerminatingPodWork) !in log
    ensures SyncsFirst(log + more)
  {
    var log' := log + more;
    forall i, j | 0 <= i < j < |log'| && log'[i] == Began(TerminatingPodWork) ensures log'[j] != Began(SyncPodWork) {
      assert i < |log| && log[i] in log;
      if j >= |log| { assert more[0] in more; }
    }
  }

  /** A worker begins no syncPod once it has started to terminate its pod. */
  lemma StepSyncsFirst(s: State, e: Event, u: UID, log: seq<CallEvent>)
    requires OrderInv(s) && Admissible(s, e) && LogOk(SlotOf(s, u), log) && SyncsFirst(log)
    ensures SyncsFirst(Logged(s, e, u, log))
  {
    if IsWorkerEvent(e) {
      var w := WorkerOf(e);
      LiveSlot(s, w);
      if u == s.workers[w].uid && s.workers[w].pc != Exited {
        assert OrderOk(SlotOf(s, u));
        LoggedIs(s, e, u, log);
        SyncsFirstOneMore(log, Appended(SlotOf(s, u), e));
      } else {
        LoggedOther(s, e, u, log);
      }
      hide Logged, SyncsFirst;
    }
  }

  lemma {:induction false} RunSyncsFirst(s: State, es: seq<Event>, u: UID, log: seq<CallEvent>)
    requires OrderInv(s) && OrderlyRun(s, es) && Run(s, es) && LogOk(SlotOf(s, u), log) && SyncsFirst(log)
    ensures SyncsFirst(LogOf(s, es, u, log))
    decreases |es|
  {
    if es != [] {
      StepLog(s, es[0], u, log);
      StepSyncsFirst(s, es[0], u, log);
      StepOrder(s, es[0]);
      RunSyncsFirst(Step(s, es[0]), es[1..], u, Logged(s, es[0], u, log));
    }
  }

  /** In every orderly run the calls made for an incarnation of a pod form the language of the lifecycle. */
  lemma LifecycleLanguage(es: seq<Event>, u: UID)
    requires OrderlyRun(INITIAL, es) && Run(INITIAL, es)
    ensures InLanguage(LogOf(INITIAL, es, u, []))
  {
    InitialOrder();
    RunSyncsFirst(INITIAL, es, u, []);
    TerminatedIsTheEnd(es, u);
    LanguageIs(LogOf(INITIAL, es, u, []));
  }
}
