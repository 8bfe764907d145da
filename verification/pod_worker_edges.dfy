/** Two edges of the stage order: the end of a pod can be requested twice, and a pod can finish without its worker
    ever having started to terminate it. */
module PodWorkerEdges {
  import opened Wrappers
  import opened Api
  import opened PodWorkerModel
  import opened PodWorkerSteps
  import opened PodWorkerSlot
  import opened PodWorkerRefine
  import opened PodWorkerInvariant
  import opened PodWorkerLifecycle

  /** completeSync finds the pod asked to terminate already: the branch that logs a programmer error. */
  predicate SetsTwice(s: State, e: Event, u: UID)
    requires Enabled(s, e)
  {
    e.Complete? && s.workers[e.w].update.value.workType == SyncPodWork && s.workers[e.w].update.value.pod.uid == u &&
    u in s.p.statuses && s.p.statuses[u].TerminationRequested()
  }

  ghost predicate CanSetTwice(s: State, u: UID) {
    exists es, e :: Run(s, es) && Enabled(Exec(s, es), e) && SetsTwice(Exec(s, es), e, u)
  }

  lemma StepBack(s: State, e: Event, u: UID)
    requires Admissible(s, e) && CanSetTwice(Step(s, e), u)
    ensures CanSetTwice(s, u)
  {
    var es, f :| Run(Step(s, e), es) && Enabled(Exec(Step(s, e), es), f) && SetsTwice(Exec(Step(s, e), es), f, u);
    var fs := [e] + es;
    assert fs[1..] == es;
    assert Run(s, fs) && Exec(s, fs) == Exec(Step(s, e), es);
  }

  /** A pod that is being set up, and whose worker is on its way into syncPod or inside it. */
  predicate SettingUp(slot: Slot) {
    slot.status.Some? && slot.loop.Some? && slot.undelivered.None? &&
    var st, l := slot.status.value, slot.loop.value;
    !st.TerminationRequested() && !l.worker.isStatic && Distance(l.worker.pc) > 0 &&
    var item := if l.worker.pc == Receiving then l.chan.buffer else l.worker.update;
    item.Some? && item.value.workType == SyncPodWork && !IsStaticPod(item.value.pod)
  }

  function Distance(pc: PC): nat {
    match pc
    case Receiving => 5 case Starting => 4 case Fetching => 3 case Contexting => 2 case Syncing => 1
    case _ => 0
  }

  function Onwards(pc: PC, w: nat): Event {
    match pc
    case Receiving => Receive(w)
    case Starting => Start(w)
    case Fetching => Fetch(w, true)
    case _ => TakeContext(w)
  }

  lemma SettingUpStep(u: UID, slot: Slot, w: nat, d: Decision)
    requires SlotOk(u, slot) && SettingUp(slot) && slot.loop.value.worker.pc != Syncing
    requires slot.loop.value.worker.pc == Starting && !slot.loop.value.worker.podStarted ==> d == Go
    ensures var e := Onwards(slot.loop.value.worker.pc, w);
            CanStep(slot, e) && SettingUp(WorkerStep(slot, e, d)) &&
            Distance(WorkerStep(slot, e, d).loop.value.worker.pc) < Distance(slot.loop.value.worker.pc)
  {
  }

  function Kill(pod: Pod): UpdatePodOptions {
    UpdatePodOptions(SyncPodKill, 1, Some(pod), None, None, None)
  }

  /** A kill that comes while syncPod runs, and then syncPod says that the pod has ended by itself. */
  lemma KillDuringSync(s: State, u: UID)
    requires Inv(s) && SettingUp(SlotOf(s, u)) && SlotOf(s, u).loop.value.worker.pc == Syncing
    ensures CanSetTwice(s, u)
  {
    var slot := SlotOf(s, u);
    assert SlotOk(u, slot);
    var w, pod := s.p.podUpdates[u], slot.loop.value.worker.update.value.pod;
    var e := Update(Kill(pod), None, 1);
    UpdateRefines(s, Kill(pod), None, 1);
    UpdatePreserves(s, Kill(pod), None, 1);
    KilledSlot(u, slot, pod);
    var s1 := Step(s, e);
    assert SlotOf(s1, u) == UpdateSlot(slot, Kill(pod), None, 1);
    ReturnThenSet(s1, u);
    StepBack(s, e, u);
  }

  lemma KilledSlot(u: UID, slot: Slot, pod: Pod)
    requires SlotOk(u, slot) && SettingUp(slot) && slot.loop.value.worker.pc == Syncing
    requires pod == slot.loop.value.worker.update.value.pod
    ensures var slot' := UpdateSlot(slot, Kill(pod), None, 1);
            slot'.status.Some? && slot'.status.value.TerminationRequested() && slot'.loop == slot.loop
  {
    AssignFacts(Begun(slot, Kill(pod), None, 1), Kill(pod));
    hide Assign;
  }

  lemma ReturnThenSet(s: State, u: UID)
    requires Inv(s) && SlotOf(s, u).status.Some? && SlotOf(s, u).loop.Some?
    requires SlotOf(s, u).status.value.TerminationRequested() && SlotOf(s, u).loop.value.worker.pc == Syncing
    requires SlotOf(s, u).loop.value.worker.update.Some?
    requires SlotOf(s, u).loop.value.worker.update.value.workType == SyncPodWork
    ensures CanSetTwice(s, u)
  {
    assert SlotOk(u, SlotOf(s, u));
    var w := s.p.podUpdates[u];
    LiveSlot(s, w);
    var e, f := Return(w, SyncOk(true)), Complete(w, 1);
    var s1 := Step(s, e);
    assert Enabled(s1, f) && SetsTwice(s1, f, u);
    assert [e][1..] == [];
    assert Run(s1, []) && Exec(s1, []) == s1;
    assert Run(s, [e]) && Exec(s, [e]) == s1;
  }

  lemma {:induction false} SettingUpCanSetTwice(s: State, u: UID)
    requires Inv(s) && SettingUp(SlotOf(s, u))
    ensures CanSetTwice(s, u)
    decreases Distance(SlotOf(s, u).loop.value.worker.pc)
  {
    var slot := SlotOf(s, u);
    assert SlotOk(u, slot);
    if slot.loop.value.worker.pc == Syncing {
      KillDuringSync(s, u);
    } else {
      var w := s.p.podUpdates[u];
      var e := Onwards(slot.loop.value.worker.pc, w);
      SettingUpStep(u, slot, w, Go);
      assert Enabled(s, e) by { LiveSlot(s, w); }
      WorkerRefines(s, e);
      SettingUpStep(u, slot, w, Answer(s, e));
      WorkerPreserves(s, e);
      SettingUpCanSetTwice(Step(s, e), u);
      StepBack(s, e, u);
    }
  }

  const NEW_POD := Pod("a", "web", "default", map[], None, None, None, EMPTY_SPEC, EMPTY_STATUS)
  const CREATE := UpdatePodOptions(SyncPodCreate, 1, Some(NEW_POD), None, None, None)

  /** The branch is reachable: a pod can be killed while the syncPod that ends it runs. */
  lemma SettingTwiceIsReachable()
    ensures CanSetTwice(INITIAL, "a")
  {
    InitialInv();
    UpdateRefines(INITIAL, CREATE, None, 1);
    UpdatePreserves(INITIAL, CREATE, None, 1);
    var s := Step(INITIAL, Update(CREATE, None, 1));
    assert SlotOf(s, "a") == UpdateSlot(SlotOf(INITIAL, "a"), CREATE, None, 1);
    CreatedSettingUp();
    SettingUpCanSetTwice(s, "a");
    StepBack(INITIAL, Update(CREATE, None, 1), "a");
  }

  lemma CreatedSettingUp()
    ensures SettingUp(UpdateSlot(SlotOf(INITIAL, "a"), CREATE, None, 1))
  {
    assert SlotOf(INITIAL, "a") == EMPTY_SLOT;
    var st := NewStatus(NEW_POD, 1);
    assert Assign(st, CREATE) == (st, WorkOf(CREATE, SyncPodWork, None), false);
    hide Assign;
  }

  /** A static pod that is given up before it started finishes although its worker never began to terminate it. */
  lemma UnstartedNeverTerminates(es: seq<Event>, e: Event)
    requires Run(INITIAL, es) && e.Abandon? && Enabled(Exec(INITIAL, es), e)
    ensures var s, s' := Exec(INITIAL, es), Step(Exec(INITIAL, es), e);
            var u := s.workers[e.w].uid;
            u in s'.p.statuses && s'.p.statuses[u].finished && s'.p.statuses[u].Terminated() &&
            !s'.p.statuses[u].startedTerminating && !ShouldPodContainersBeTerminating(s'.p, u)
  {
    var s := Exec(INITIAL, es);
    InitialInv();
    RunPreserves(INITIAL, es);
    LiveSlot(s, e.w);
    var u := s.workers[e.w].uid;
    WorkerRefines(s, e);
    assert SlotOf(Step(s, e), u).status.Some?;
  }
}
