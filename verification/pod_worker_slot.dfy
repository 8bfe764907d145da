/** The pod workers seen from one UID. Everything the state holds about a UID is its slot, and every
    step changes one slot by a small function that does not look at the rest of the state. */
module PodWorkerSlot {
  import opened Wrappers
  import opened Api
  import opened PodWorkerModel
  import opened PodWorkerSteps

  datatype Loop = Loop(chan: Chan, worker: Worker)

  datatype Slot = Slot(status: Option<PodSyncStatus>, undelivered: Option<PodWork>, loop: Option<Loop>)

  const EMPTY_SLOT := Slot(None, None, None)

  function SlotOf(s: State, u: UID): Slot {
    Slot(if u in s.p.statuses then Some(s.p.statuses[u]) else None,
         Undelivered(s.p, u),
         if u in s.p.podUpdates && s.p.podUpdates[u] < |s.p.chans| && s.p.podUpdates[u] < |s.workers|
         then Some(Loop(s.p.chans[s.p.podUpdates[u]], s.workers[s.p.podUpdates[u]])) else None)
  }

  /** The answer of allowPodStart to a worker that has not started. */
  datatype Decision = Go | Wait | Never

  function DecisionOf(p: Shared, pod: Pod): Decision {
    var (_, canStart, canEverStart) := AllowPodStart(p, pod);
    if !canEverStart then Never else if !canStart then Wait else Go
  }

  predicate IsWorkerEvent(e: Event) {
    !e.Update? && !e.Housekeep?
  }

  function WorkerOf(e: Event): nat
    requires IsWorkerEvent(e)
  {
    e.w
  }

  predicate Busy(pc: PC) {
    pc != Receiving && pc != Exited
  }

  /** A live slot in which the worker can take the step `e`. */
  predicate CanStep(slot: Slot, e: Event) {
    IsWorkerEvent(e) && slot.status.Some? && slot.loop.Some? && !slot.loop.value.chan.closed &&
    var l := slot.loop.value;
    (if e.Receive? then l.worker.pc == Receiving && l.chan.buffer.Some?
     else Busy(l.worker.pc) && l.worker.update.Some? && l.chan.buffer.None?) &&
    (match e
     case Receive(_) => true
     case Start(_) => l.worker.pc == Starting
     case Abandon(_, now) => l.worker.pc == Abandoning && now != 0
     case Fetch(_, ok) => l.worker.pc == Fetching && (ok || l.worker.update.value.runningPod.None?)
     case TakeContext(_) => l.worker.pc == Contexting
     case Acknowledge(_) => l.worker.pc == Acknowledging
     case Return(_, _) => l.worker.pc == Syncing
     case Complete(_, now) => l.worker.pc == Completing && now != 0
     case Next(_) => l.worker.pc == Queueing)
  }

  function Ended(st: PodSyncStatus, terminatedAt: Option<Time>): Slot {
    Slot(Some(FinishedStatus(st, terminatedAt)), None, None)
  }

  /** One step of the worker of a slot; `d` is what allowPodStart answers. */
  function WorkerStep(slot: Slot, e: Event, d: Decision): Slot
    requires CanStep(slot, e)
  {
    var st, l := slot.status.value, slot.loop.value;
    match e
    case Receive(_) =>
      slot.(loop := Some(Loop(Chan(None, false), l.worker.(pc := Starting, update := l.chan.buffer))))
    case Start(_) =>
      if l.worker.podStarted then MoveTo(slot, Fetching)
      else if d.Never? then MoveTo(slot, Abandoning)
      else if d.Wait? then MoveTo(slot, Receiving).(status := Some(st.(working := false)))
      else slot.(loop := Some(Loop(l.chan, l.worker.(pc := Fetching, podStarted := true))))
    case Abandon(_, now) => Ended(st, Some(now))
    case Fetch(_, ok) => MoveTo(slot, if ok then Contexting else Queueing)
    case TakeContext(_) =>
      MoveTo(slot, if l.worker.update.value.workType == TerminatingPodWork then Acknowledging else Syncing)
        .(status := Some(st.(ctx := Live)))
    case Acknowledge(_) =>
      MoveTo(slot, Syncing).(
        status := Some(if st.TerminationRequested() then st.(startedTerminating := true) else st))
    case Return(_, result) => MoveTo(slot, AfterCall(l.worker.update.value, result))
    case Complete(_, now) => CompleteSlot(slot, now)
    case Next(_) =>
      if slot.undelivered.Some?
      then Slot(slot.status, None, Some(Loop(Chan(slot.undelivered, false), l.worker.(pc := Receiving))))
      else MoveTo(slot, Receiving).(status := Some(st.(working := false)))
  }

  function MoveTo(slot: Slot, pc: PC): Slot
    requires slot.loop.Some?
  {
    slot.(loop := Some(Loop(slot.loop.value.chan, slot.loop.value.worker.(pc := pc))))
  }

  function CompleteSlot(slot: Slot, now: Time): Slot
    requires slot.status.Some? && slot.loop.Some? && slot.loop.value.worker.update.Some?
  {
    var st, update := slot.status.value, slot.loop.value.worker.update.value;
    match update.workType
    case TerminatedPodWork => Ended(st, None)
    case TerminatingPodWork =>
      if update.runningPod.Some? then Ended(st, Some(now))
      else MoveTo(slot, Queueing).(
        status := Some(st.(terminatedAt := now, notifyPostTerminating := [], statusPostTerminating := [])),
        undelivered := Some(OwnWork(TerminatedPodWork, update.pod)))
    case SyncPodWork => MoveTo(slot, Queueing).(
      status := Some(st.(terminatingAt := if st.TerminationRequested() then st.terminatingAt else now,
                         startedTerminating := true)),
      undelivered := Some(OwnWork(TerminatingPodWork, update.pod)))
  }

  // ---------- UpdatePod on a slot ----------

  function DispatchSlot(slot: Slot, st: PodSyncStatus, work: PodWork, cancel: bool): Slot {
    var l :=
      if slot.loop.Some? then slot.loop.value
      else Loop(Chan(None, false), Worker(work.pod.uid, IsStaticPod(work.pod), Receiving, None, false));
    if !st.working then
      Slot(Some(Dispatched(st, cancel)), slot.undelivered, Some(l.(chan := Chan(Some(work), false))))
    else
      Slot(Some(Dispatched(st, cancel)), Some(Merged(slot.undelivered, work)), Some(l))
  }

  function QueueSlot(slot: Slot, st: PodSyncStatus, o: UpdatePodOptions, became: bool): Slot
    requires Callable(o)
  {
    if st.Terminated() && o.pod.None? then slot.(status := Some(st))
    else
      var (st1, work, shortened) := Assign(st, o);
      DispatchSlot(slot, st1, work, became || shortened)
  }

  function StatusAtUpdate(slot: Slot, o: UpdatePodOptions, cached: Option<CachedStatus>, now: Time): PodSyncStatus
    requires Callable(o)
  {
    if slot.status.Some? then slot.status.value else FirstStatus(PodOf(o), o.pod.None?, cached, now)
  }

  /** Whether UpdatePod gets as far as deciding about the work. */
  predicate Accepts(slot: Slot, o: UpdatePodOptions, cached: Option<CachedStatus>, now: Time)
    requires Callable(o)
  {
    var st := StatusAtUpdate(slot, o, cached, now);
    !Ignored(o) && !st.finished && !(st.TerminationRequested() && o.updateType == SyncPodCreate)
  }

  /** The status after the decision about terminating. */
  function Begun(slot: Slot, o: UpdatePodOptions, cached: Option<CachedStatus>, now: Time): PodSyncStatus
    requires Callable(o)
  {
    BeginTermination(StatusAtUpdate(slot, o, cached, now), PodOf(o), o.pod.None?, o.updateType, o.kill, now)
  }

  predicate Became(slot: Slot, o: UpdatePodOptions, cached: Option<CachedStatus>, now: Time)
    requires Callable(o)
  {
    BecomesTerminating(StatusAtUpdate(slot, o, cached, now), PodOf(o), o.pod.None?, o.updateType)
  }

  function UpdateSlot(slot: Slot, o: UpdatePodOptions, cached: Option<CachedStatus>, now: Time): Slot
    requires Callable(o)
  {
    var st := StatusAtUpdate(slot, o, cached, now);
    if Ignored(o) then slot
    else if st.TerminationRequested() && o.updateType == SyncPodCreate then
      slot.(status := Some(st.(restartRequested := true)))
    else if st.finished then slot.(status := Some(st))
    else
      QueueSlot(slot, Begun(slot, o, cached, now), o, Became(slot, o, cached, now))
  }

  // ---------- what always holds of a slot ----------

  predicate PastStart(pc: PC) {
    Busy(pc) && pc != Starting && pc != Abandoning
  }

  predicate StageOk(st: PodSyncStatus) {
    (st.finished ==> st.Terminated() && !st.working) &&
    (st.Terminated() ==> st.TerminationRequested()) &&
    (st.startedTerminating ==> st.TerminationRequested())
  }

  /** A work item belongs to its pod and never runs ahead of the stage the pod has reached. */
  predicate ItemOk(u: UID, st: PodSyncStatus, work: PodWork) {
    work.pod.uid == u &&
    (work.workType == TerminatingPodWork ==> st.TerminationRequested()) &&
    (work.workType == TerminatedPodWork ==> st.Terminated()) &&
    (work.runningPod.Some? ==> work.workType == TerminatingPodWork)
  }

  predicate PendingOk(u: UID, st: PodSyncStatus, work: Option<PodWork>) {
    work.Some? ==> ItemOk(u, st, work.value) && (st.Terminated() ==> work.value.workType == TerminatedPodWork)
  }

  /** What the goroutine has in its hands. */
  predicate WorkerOk(u: UID, st: PodSyncStatus, w: Worker) {
    w.uid == u && w.pc != Exited &&
    (Busy(w.pc) ==> w.update.Some? && ItemOk(u, st, w.update.value)) &&
    (Busy(w.pc) && st.Terminated() ==> w.update.value.workType == TerminatedPodWork || w.pc == Queueing) &&
    (PastStart(w.pc) || st.Terminated() || st.startedTerminating ==> w.podStarted) &&
    (w.pc == Abandoning ==> !w.podStarted && st.TerminationRequested()) &&
    (w.pc == Acknowledging ==> w.update.value.workType == TerminatingPodWork)
  }

  /** `working` is set exactly when there is one item in the channel or in the worker's hands, and only a
      static pod that waits for its turn can be idle with an item left in the undelivered slot. */
  predicate ChannelOk(st: PodSyncStatus, undelivered: Option<PodWork>, l: Loop) {
    !l.chan.closed &&
    st.working == (l.chan.buffer.Some? || Busy(l.worker.pc)) &&
    !(l.chan.buffer.Some? && Busy(l.worker.pc)) &&
    (!st.working && undelivered.Some? ==> l.worker.isStatic && !l.worker.podStarted)
  }

  /** A pod that was not static at first never waits: its first item starts it. */
  predicate FirstItemOk(l: Loop) {
    !l.worker.isStatic && !l.worker.podStarted ==>
      (l.chan.buffer.Some? && !IsStaticPod(l.chan.buffer.value.pod)) ||
      (l.worker.pc == Starting && l.worker.update.Some? && !IsStaticPod(l.worker.update.value.pod))
  }

  predicate LoopOk(u: UID, st: PodSyncStatus, undelivered: Option<PodWork>, l: Loop) {
    !st.finished &&
    WorkerOk(u, st, l.worker) &&
    ChannelOk(st, undelivered, l) &&
    FirstItemOk(l) &&
    PendingOk(u, st, l.chan.buffer) &&
    PendingOk(u, st, undelivered)
  }

  predicate SlotOk(u: UID, slot: Slot) {
    match slot.status
    case None => slot.undelivered.None? && slot.loop.None?
    case Some(st) =>
      StageOk(st) &&
      if slot.loop.None? then st.finished && slot.undelivered.None?
      else LoopOk(u, st, slot.undelivered, slot.loop.value)
  }

  /** The decision fits the pod: only static pods wait, and only pods asked to terminate are given up. */
  predicate DecisionFits(slot: Slot, d: Decision) {
    slot.status.Some? && slot.loop.Some? && slot.loop.value.worker.update.Some? &&
    var pod := slot.loop.value.worker.update.value.pod;
    if !IsStaticPod(pod) then d == Go
    else (d == Never <==> slot.status.value.TerminationRequested())
  }

  lemma WorkerStepOk(u: UID, slot: Slot, e: Event, d: Decision)
    requires SlotOk(u, slot) && CanStep(slot, e)
    requires e.Start? && !slot.loop.value.worker.podStarted ==> DecisionFits(slot, d)
    ensures SlotOk(u, WorkerStep(slot, e, d))
  {
  }

  /** UpdatePod half way: the status is decided, the worker may still be missing. */
  predicate ReadyFor(u: UID, slot: Slot, st: PodSyncStatus) {
    StageOk(st) && !st.finished &&
    if slot.loop.Some? then LoopOk(u, st, slot.undelivered, slot.loop.value)
    else !st.working && slot.undelivered.None? && !st.Terminated() && !st.startedTerminating
  }

  lemma DispatchSlotOk(u: UID, slot: Slot, st: PodSyncStatus, work: PodWork, cancel: bool)
    requires ReadyFor(u, slot, st) && work.pod.uid == u && PendingOk(u, st, Some(work))
    ensures SlotOk(u, DispatchSlot(slot, st, work, cancel))
  {
  }

  lemma AssignOk(u: UID, slot: Slot, st: PodSyncStatus, o: UpdatePodOptions)
    requires Callable(o) && PodOf(o).uid == u && ReadyFor(u, slot, st)
    requires o.pod.None? ==> st.TerminationRequested() && !st.Terminated()
    ensures var (st1, work, shortened) := Assign(st, o);
            ReadyFor(u, slot, st1) && work.pod.uid == u && PendingOk(u, st1, Some(work))
  {
  }

  lemma BegunReady(slot: Slot, o: UpdatePodOptions, cached: Option<CachedStatus>, now: Time)
    requires Callable(o) && now != 0 && SlotOk(PodOf(o).uid, slot) && Accepts(slot, o, cached, now)
    ensures var st := Begun(slot, o, cached, now);
            ReadyFor(PodOf(o).uid, slot, st) && (o.pod.None? ==> st.TerminationRequested())
  {
  }

  lemma UpdateSlotOk(slot: Slot, o: UpdatePodOptions, cached: Option<CachedStatus>, now: Time)
    requires Callable(o) && now != 0 && SlotOk(PodOf(o).uid, slot)
    ensures SlotOk(PodOf(o).uid, UpdateSlot(slot, o, cached, now))
  {
    if Accepts(slot, o, cached, now) {
      var u, st := PodOf(o).uid, Begun(slot, o, cached, now);
      BegunReady(slot, o, cached, now);
      hide ReadyFor, SlotOk, PendingOk, Assign, DispatchSlot, Begun, Became;
      if st.Terminated() && o.pod.None? {
        TerminatedStays(u, slot, st);
      } else {
        AssignOk(u, slot, st, o);
        var (st1, work, shortened) := Assign(st, o);
        DispatchSlotOk(u, slot, st1, work, Became(slot, o, cached, now) || shortened);
      }
    }
  }

  lemma TerminatedStays(u: UID, slot: Slot, st: PodSyncStatus)
    requires ReadyFor(u, slot, st) && st.Terminated()
    ensures SlotOk(u, slot.(status := Some(st)))
  {
  }
}
