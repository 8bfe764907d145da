/** A run that ends outside the condition of `PodWorkerCompletion.PromiseKeptIff`. */
module PodWorkerExamples {
  import opened Wrappers
  import opened Api
  import opened PodWorkerModel
  import opened PodWorkerSteps
  import opened PodWorkerSlot
  import opened PodWorkerRefine
  import opened PodWorkerInvariant
  import PodWorkerCompletion

  // ---------- an orphan ends and its channel stays open ----------

  /** The pod has terminated and can have no running containers, and the channel is registered and open. */
  ghost predicate EndedOpen(s: State, u: UID, ch: CompletedCh) {
    PodWorkerCompletion.IsTerminated(s.p, u) && !CouldHaveRunningContainers(s.p, u) &&
    ch in Registered(s.p, u) && PodWorkerCompletion.Open(s.p, ch)
  }

  ghost predicate CanEndOpen(s: State, u: UID, ch: CompletedCh) {
    exists es :: Run(s, es) && EndedOpen(Exec(s, es), u, ch)
  }

  lemma EndStepBack(s: State, e: Event, u: UID, ch: CompletedCh)
    requires Admissible(s, e) && CanEndOpen(Step(s, e), u, ch)
    ensures CanEndOpen(s, u, ch)
  {
    var es :| Run(Step(s, e), es) && EndedOpen(Exec(Step(s, e), es), u, ch);
    var fs := [e] + es;
    assert fs[1..] == es;
    assert Run(s, fs) && Exec(s, fs) == Exec(Step(s, e), es);
  }

  function Item(l: Loop): Option<PodWork> {
    if l.worker.pc == Receiving then l.chan.buffer else l.worker.update
  }

  /** An orphan that is on its way through syncTerminatingPod while a channel waits for it. */
  predicate Ending(slot: Slot, ch: CompletedCh) {
    slot.status.Some? && slot.loop.Some? && slot.undelivered.None? && ch in Notify(slot) &&
    var st, l := slot.status.value, slot.loop.value;
    st.TerminationRequested() && !st.Terminated() && !l.worker.isStatic && Left(l.worker.pc) > 0 &&
    Item(l).Some? && Item(l).value.workType == TerminatingPodWork && Item(l).value.runningPod.Some? &&
    !IsStaticPod(Item(l).value.pod)
  }

  function Left(pc: PC): nat {
    match pc
    case Receiving => 7 case Starting => 6 case Fetching => 5 case Contexting => 4
    case Acknowledging => 3 case Syncing => 2 case Completing => 1
    case _ => 0
  }

  function Onwards(pc: PC, w: nat): Event {
    match pc
    case Receiving => Receive(w)
    case Starting => Start(w)
    case Fetching => Fetch(w, true)
    case Contexting => TakeContext(w)
    case Acknowledging => Acknowledge(w)
    case Syncing => Return(w, SyncOk(false))
    case _ => Complete(w, 1)
  }

  lemma EndingStep(u: UID, slot: Slot, w: nat, d: Decision, ch: CompletedCh)
    requires SlotOk(u, slot) && Ending(slot, ch)
    requires slot.loop.value.worker.pc == Starting && !slot.loop.value.worker.podStarted ==> d == Go
    ensures var e := Onwards(slot.loop.value.worker.pc, w);
            CanStep(slot, e) &&
            var slot' := WorkerStep(slot, e, d);
            if e.Complete? then slot'.status.Some? && slot'.status.value.Terminated() && ch in Notify(slot')
            else Ending(slot', ch) && Left(slot'.loop.value.worker.pc) < Left(slot.loop.value.worker.pc)
  {
  }

  lemma {:induction false} EndingEndsOpen(s: State, u: UID, ch: CompletedCh)
    requires Inv(s) && Ending(SlotOf(s, u), ch)
    ensures CanEndOpen(s, u, ch)
    decreases Left(SlotOf(s, u).loop.value.worker.pc)
  {
    var slot := SlotOf(s, u);
    assert SlotOk(u, slot);
    var w := s.p.podUpdates[u];
    var e := Onwards(slot.loop.value.worker.pc, w);
    EndingStep(u, slot, w, Go, ch);
    assert Enabled(s, e) by { LiveSlot(s, w); }
    WorkerRefines(s, e);
    EndingStep(u, slot, w, Answer(s, e), ch);
    WorkerPreserves(s, e);
    var s' := Step(s, e);
    assert SlotOf(s', u) == WorkerStep(slot, e, Answer(s, e));
    hide Step, WorkerStep, CanStep, SlotOk, Enabled, Answer;
    if e.Complete? {
      TerminatedSlot(s', u, ch);
      assert Run(s', []) && Exec(s', []) == s';
      assert CanEndOpen(s', u, ch);
    } else {
      EndingEndsOpen(s', u, ch);
    }
    EndStepBack(s, e, u, ch);
  }

  lemma TerminatedSlot(s: State, u: UID, ch: CompletedCh)
    requires Inv(s) && SlotOf(s, u).status.Some? && SlotOf(s, u).status.value.Terminated() && ch in Notify(SlotOf(s, u))
    ensures EndedOpen(s, u, ch)
  {
    assert Registered(s.p, u) == Notify(SlotOf(s, u));
  }

  const KILL_ORPHAN := UpdatePodOptions(
    SyncPodKill, 1, None, None, Some(RuntimePod("a", "web", "default", [])), Some(NO_KILL.(completedCh := Some(7))))

  /** The kill of an orphan is registered, the orphan is torn down successfully, and its channel stays open. */
  lemma OrphanEndsOpen()
    ensures CanEndOpen(INITIAL, "a", 7)
  {
    InitialInv();
    UpdateRefines(INITIAL, KILL_ORPHAN, None, 1);
    UpdatePreserves(INITIAL, KILL_ORPHAN, None, 1);
    var s := Step(INITIAL, Update(KILL_ORPHAN, None, 1));
    assert SlotOf(s, "a") == UpdateSlot(SlotOf(INITIAL, "a"), KILL_ORPHAN, None, 1);
    OrphanEnding();
    EndingEndsOpen(s, "a", 7);
    EndStepBack(INITIAL, Update(KILL_ORPHAN, None, 1), "a", 7);
  }

  lemma OrphanEnding()
    ensures Ending(UpdateSlot(SlotOf(INITIAL, "a"), KILL_ORPHAN, None, 1), 7)
  {
    assert SlotOf(INITIAL, "a") == EMPTY_SLOT;
    var st := Begun(EMPTY_SLOT, KILL_ORPHAN, None, 1);
    assert st.TerminationRequested() && !st.Terminated() && !st.working;
    assert Assign(st, KILL_ORPHAN).1.workType == TerminatingPodWork;
    assert Assign(st, KILL_ORPHAN).1.runningPod.Some?;
    assert Assign(st, KILL_ORPHAN).0.notifyPostTerminating == [7];
  }
}
