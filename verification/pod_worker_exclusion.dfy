/** No two static pods of one full name run at the same time, exactly as long as no update slips a static pod an item
    that is not static. */
module PodWorkerExclusion {
  import opened Wrappers
  import opened Api
  import opened PodWorkerModel
  import opened PodWorkerSteps
  import opened PodWorkerSlot
  import opened PodWorkerRefine
  import opened PodWorkerInvariant
  import opened PodWorkerTheorems
  import opened PodWorkerStatic
  import PodWorkerLifecycle
  import opened PodWorkerOvertaking

  /** The update hands an item that is not static to the idle worker of a static pod that has not started. */
  predicate Slips(slot: Slot, o: UpdatePodOptions, cached: Option<CachedStatus>, now: Time)
    requires Callable(o)
  {
    Accepts(slot, o, cached, now) && slot.status.Some? && !slot.status.value.working &&
    slot.loop.Some? && slot.loop.value.worker.isStatic && !slot.loop.value.worker.podStarted && !IsStaticPod(PodOf(o))
  }

  ghost predicate Agreeing(s: State, e: Event) {
    Admissible(s, e) && (e.Update? ==> !Slips(SlotOf(s, PodOf(e.o).uid), e.o, e.cached, e.now))
  }

  ghost predicate AgreeingRun(s: State, es: seq<Event>)
    decreases |es|
  {
    es == [] || (Agreeing(s, es[0]) && AgreeingRun(Step(s, es[0]), es[1..]))
  }

  // ---------- exclusion in agreeing runs ----------

  predicate StaticItem(work: Option<PodWork>) {
    work.Some? ==> IsStaticPod(work.value.pod)
  }

  /** All a static worker can start with is static. */
  predicate ItemsAgree(slot: Slot) {
    slot.loop.Some? && slot.loop.value.worker.isStatic && !slot.loop.value.worker.podStarted ==>
      StaticItem(slot.loop.value.chan.buffer) &&
      (Busy(slot.loop.value.worker.pc) ==> StaticItem(slot.loop.value.worker.update))
  }

  ghost predicate AgreeInv(s: State) {
    StaticInv(s) && (forall u :: ItemsAgree(SlotOf(s, u))) &&
    (forall u :: StartedStatic(SlotOf(s, u)) ==> Holds(s.p, KnownAs(s.p, u), u))
  }

  lemma WorkerAgrees(u: UID, slot: Slot, e: Event, d: Decision)
    requires SlotOk(u, slot) && CanStep(slot, e) && ItemsAgree(slot)
    requires e.Start? && !slot.loop.value.worker.podStarted ==> DecisionFits(slot, d)
    ensures ItemsAgree(WorkerStep(slot, e, d))
    ensures StartedStatic(WorkerStep(slot, e, d)) ==>
              WorkerStep(slot, e, d).status.value.fullname == slot.status.value.fullname &&
              !Ends(e, slot.loop.value.worker.update) &&
              (StartedStatic(slot) || (e.Start? && d == Go && IsStaticPod(slot.loop.value.worker.update.value.pod)))
  {
  }

  lemma UpdateAgrees(slot: Slot, o: UpdatePodOptions, cached: Option<CachedStatus>, now: Time)
    requires Callable(o) && now != 0 && SlotOk(PodOf(o).uid, slot) && ItemsAgree(slot)
    requires !Slips(slot, o, cached, now)
    ensures ItemsAgree(UpdateSlot(slot, o, cached, now))
    ensures StartedStatic(UpdateSlot(slot, o, cached, now)) ==>
              StartedStatic(slot) && UpdateSlot(slot, o, cached, now).status.value.fullname ==
                slot.status.value.fullname
  {
    if slot.status.Some? { UpdateStageKept(slot, o, cached, now); }
    if Accepts(slot, o, cached, now) {
      BegunReady(slot, o, cached, now);
      AssignNames(Begun(slot, o, cached, now), o);
      hide Assign, Became;
    }
  }

  lemma StepAgrees(s: State, e: Event)
    requires AgreeInv(s) && Agreeing(s, e)
    ensures AgreeInv(Step(s, e))
  {
    StepKeepsStatic(s, e);
    if e.Update? {
      UpdateKeepsAgreement(s, e.o, e.cached, e.now);
    } else if e.Housekeep? {
      HousekeepKeepsAgreement(s, e.desired, e.order);
    } else {
      WorkerKeepsAgreement(s, e);
    }
  }

  lemma UpdateKeepsAgreement(s: State, o: UpdatePodOptions, cached: Option<CachedStatus>, now: Time)
    requires AgreeInv(s) && Agreeing(s, Update(o, cached, now))
    requires StaticInv(Step(s, Update(o, cached, now)))
    ensures AgreeInv(Step(s, Update(o, cached, now)))
  {
    var s', u0 := Step(s, Update(o, cached, now)), PodOf(o).uid;
    UpdateRefines(s, o, cached, now);
    NamesAfterUpdate(s, o, cached, now);
    assert SlotOk(u0, SlotOf(s, u0));
    UpdateAgrees(SlotOf(s, u0), o, cached, now);
    assert SlotOf(s', u0) == UpdateSlot(SlotOf(s, u0), o, cached, now);
    AgreementKept(s, s', u0);
  }

  /** A step that takes no name from a started static pod keeps the agreement. */
  lemma AgreementKept(s: State, s': State, u0: UID)
    requires AgreeInv(s) && OthersKept(s, s', u0) && StaticInv(s')
    requires ItemsAgree(SlotOf(s', u0))
    requires StartedStatic(SlotOf(s', u0)) ==> Holds(s'.p, KnownAs(s'.p, u0), u0)
    requires forall u :: u != u0 && Holds(s.p, KnownAs(s.p, u), u) ==> Holds(s'.p, KnownAs(s.p, u), u)
    ensures AgreeInv(s')
  {
    hide StaticInv, ItemsAgree, StartedStatic, Holds;
    forall u ensures ItemsAgree(SlotOf(s', u)) && (StartedStatic(SlotOf(s', u)) ==> Holds(s'.p, KnownAs(s'.p, u), u)) {
      if u != u0 {
        assert SlotOf(s', u) == SlotOf(s, u) && SlotOf(s', u).status == SlotOf(s, u).status;
        assert KnownAs(s'.p, u) == KnownAs(s.p, u);
      }
    }
  }

  lemma HousekeepKeepsAgreement(s: State, desired: set<UID>, order: seq<UID>)
    requires AgreeInv(s) && Enumerates(order, s.p.statuses.Keys)
    ensures AgreeInv(s.(p := SyncKnownPods(s.p, desired, order)))
  {
    var s' := s.(p := SyncKnownPods(s.p, desired, order));
    HousekeepKeepsStatic(s, desired, order);
    HousekeepExact(s, desired, order);
    HousekeepNames(s, desired, order);
    forall u ensures ItemsAgree(SlotOf(s', u)) && (StartedStatic(SlotOf(s', u)) ==> Holds(s'.p, KnownAs(s'.p, u), u)) {
      assert ItemsAgree(SlotOf(s, u));
      assert StartedStatic(SlotOf(s', u)) ==> SlotOf(s', u) == SlotOf(s, u);
    }
  }

  lemma WorkerKeepsAgreement(s: State, e: Event)
    requires AgreeInv(s) && IsWorkerEvent(e) && Enabled(s, e) && StaticInv(Step(s, e))
    ensures AgreeInv(Step(s, e))
  {
    var s', u0 := Step(s, e), s.workers[WorkerOf(e)].uid;
    WorkerRefines(s, e);
    LiveSlot(s, WorkerOf(e));
    assert ItemsAgree(SlotOf(s, u0));
    WorkerAgrees(u0, SlotOf(s, u0), e, Answer(s, e));
    assert SlotOf(s', u0) == WorkerStep(SlotOf(s, u0), e, Answer(s, e));
    StartedNames(s, e);
    hide Step, WorkerStep, StaticInv, CanStep, SlotOk, Enabled, Answer, ItemsAgree, Ends;
    AgreementKept(s, s', u0);
  }

  lemma {:induction false} RunAgrees(s: State, es: seq<Event>)
    requires AgreeInv(s) && AgreeingRun(s, es)
    ensures Run(s, es) && AgreeInv(Exec(s, es))
    decreases |es|
  {
    if es != [] {
      StepAgrees(s, es[0]);
      RunAgrees(Step(s, es[0]), es[1..]);
    }
  }

  ghost predicate TwoStarted(s: State, u: UID, v: UID) {
    u != v && StartedStatic(SlotOf(s, u)) && StartedStatic(SlotOf(s, v)) && KnownAs(s.p, u) == KnownAs(s.p, v)
  }

  lemma InitialAgrees()
    ensures AgreeInv(INITIAL)
  {
    InitialStatic();
    forall x ensures ItemsAgree(SlotOf(INITIAL, x)) && !StartedStatic(SlotOf(INITIAL, x)) {}
  }

  /** As long as no update slips a waiting static pod an item that is not static, no two static pods of the same full
      name are ever past their start at the same time. */
  lemma StaticMutualExclusion(es: seq<Event>, u: UID, v: UID)
    requires AgreeingRun(INITIAL, es) && Run(INITIAL, es)
    ensures !TwoStarted(Exec(INITIAL, es), u, v)
  {
    InitialAgrees();
    RunAgrees(INITIAL, es);
  }

  // ---------- an update that slips leads to two started pods ----------

  ghost predicate CanStartTwo(s: State) {
    exists es, u, v :: AgreeingRun(s, es) && Run(s, es) && TwoStarted(Exec(s, es), u, v)
  }

  lemma StepBack(s: State, e: Event)
    requires Agreeing(s, e) && CanStartTwo(Step(s, e))
    ensures CanStartTwo(s)
  {
    var es, u, v :| AgreeingRun(Step(s, e), es) && Run(Step(s, e), es) && TwoStarted(Exec(Step(s, e), es), u, v);
    var fs := [e] + es;
    assert fs[1..] == es;
    hide Step, Agreeing, TwoStarted;
    assert AgreeingRun(s, fs) && Run(s, fs) && Exec(s, fs) == Exec(Step(s, e), es);
  }

  lemma Already(s: State, u: UID, v: UID)
    requires TwoStarted(s, u, v)
    ensures CanStartTwo(s)
  {
    assert AgreeingRun(s, []) && Run(s, []) && Exec(s, []) == s;
  }

  /** Every pod is known by the full name of some pod. */
  ghost predicate Named(s: State) {
    forall u :: u in s.p.statuses ==> IsFullName(s.p.statuses[u].fullname)
  }

  ghost predicate IsFullName(f: string) {
    exists pod :: FullName(pod) == f
  }

  lemma FirstName(slot: Slot, o: UpdatePodOptions, cached: Option<CachedStatus>, now: Time)
    requires Callable(o) && slot.status.None?
    ensures UpdateSlot(slot, o, cached, now).status.Some? ==>
              UpdateSlot(slot, o, cached, now).status.value.fullname == FullName(PodOf(o))
  {
    QueueStageKept(slot, Begun(slot, o, cached, now), o, Became(slot, o, cached, now));
    hide QueueSlot, Became;
  }

  lemma StepNamed(s: State, e: Event)
    requires Inv(s) && Named(s) && Admissible(s, e)
    ensures Named(Step(s, e))
  {
    var s' := Step(s, e);
    forall u | u in s'.p.statuses ensures IsFullName(s'.p.statuses[u].fullname) {
      if u in s.p.statuses { StagesOnlyAdvance(s, e, u); } else { NewIsNamed(s, e, u); }
    }
  }

  lemma NewIsNamed(s: State, e: Event, u: UID)
    requires Inv(s) && Admissible(s, e) && u !in s.p.statuses && u in Step(s, e).p.statuses
    ensures IsFullName(Step(s, e).p.statuses[u].fullname)
  {
    assert SlotOf(Step(s, e), u).status.Some? && SlotOf(s, u).status.None?;
    if e.Update? {
      UpdateRefines(s, e.o, e.cached, e.now);
      FirstName(SlotOf(s, u), e.o, e.cached, e.now);
    } else if e.Housekeep? {
      HousekeepExact(s, e.desired, e.order);
    } else {
      WorkerRefines(s, e);
    }
  }

  lemma {:induction false} RunNamed(s: State, es: seq<Event>)
    requires Inv(s) && Named(s) && Run(s, es)
    ensures Named(Exec(s, es))
    decreases |es|
  {
    if es != [] {
      StepPreserves(s, es[0]);
      StepNamed(s, es[0]);
      RunNamed(Step(s, es[0]), es[1..]);
    }
  }

  /** A static pod has started without holding its name. */
  ghost predicate Rogue(s: State, u: UID) {
    StaticInv(s) && Named(s) && StartedStatic(SlotOf(s, u)) && !Holds(s.p, KnownAs(s.p, u), u)
  }

  /** Nobody holds the name of the rogue pod, and the first entries of its queue wait no longer. */
  ghost predicate Cleared(s: State, u: UID, f: string, k: nat) {
    Rogue(s, u) && f == KnownAs(s.p, u) && f !in s.p.startedStatic && k <= |StartQueue(s.p, f)| &&
    forall i :: 0 <= i < k ==> !CanStillStart(s.p.statuses, StartQueue(s.p, f)[i])
  }

  // One by one, those that wait for the name are killed.

  function KillFile(x: UID): UpdatePodOptions {
    Configured(x, SyncPodKill).o
  }

  lemma KillSlot(x: UID, slot: Slot)
    requires SlotOk(x, slot) && slot.status.Some? && !slot.status.value.TerminationRequested()
    ensures var slot' := UpdateSlot(slot, KillFile(x), None, 1);
            slot'.status.Some? && slot'.status.value.TerminationRequested() &&
            slot'.status.value.fullname == slot.status.value.fullname &&
            slot.loop.Some? && slot'.loop.Some? && slot'.loop.value.worker == slot.loop.value.worker
  {
    PodWorkerLifecycle.UpdateLoopKept(slot, KillFile(x), None, 1);
    UpdateStageKept(slot, KillFile(x), None, 1);
    PodWorkerLifecycle.AssignFacts(Begun(slot, KillFile(x), None, 1), KillFile(x));
    hide Assign;
  }

  /** What an update does to the slots. */
  lemma Updated(s: State, o: UpdatePodOptions)
    requires StaticInv(s) && Named(s) && Admissible(s, Update(o, None, 1))
    ensures var s', u0 := Step(s, Update(o, None, 1)), PodOf(o).uid;
            StaticInv(s') && Named(s') && OthersKept(s, s', u0) &&
            SlotOf(s', u0) == UpdateSlot(SlotOf(s, u0), o, None, 1)
  {
    StepKeepsStatic(s, Update(o, None, 1));
    StepNamed(s, Update(o, None, 1));
    UpdateRefines(s, o, None, 1);
    hide StaticInv, Named, UpdateSlot;
  }

  lemma StaysRogue(s: State, s': State, u: UID)
    requires Rogue(s, u) && StaticInv(s') && Named(s') && s'.p.startedStatic == s.p.startedStatic
    requires SlotOf(s', u).status.Some? && SlotOf(s', u).loop.Some?
    requires SlotOf(s', u).status.value.fullname == KnownAs(s.p, u)
    requires SlotOf(s', u).loop.value.worker == SlotOf(s, u).loop.value.worker
    ensures Rogue(s', u) && KnownAs(s'.p, u) == KnownAs(s.p, u)
  {
    hide StaticInv, Named;
  }

  lemma KillNames(s: State, x: UID)
    requires StaticInv(s) && CanStillStart(s.p.statuses, x)
    ensures var e := Update(KillFile(x), None, 1);
            Agreeing(s, e) && Step(s, e).p.startedStatic == s.p.startedStatic &&
            Step(s, e).p.waitingStatic == s.p.waitingStatic
  {
    FilePodStatic(x);
    assert SlotOk(x, SlotOf(s, x));
    assert x in s.p.podUpdates;
    NamesAfterUpdate(s, KillFile(x), None, 1);
    hide Step, Accepts, Begun, StaticInv;
  }

  /** The killed pod waits no longer, and nobody else starts to. */
  lemma OneLess(s: State, s': State, q: seq<UID>, k: nat)
    requires k < |q| && OthersKept(s, s', q[k])
    requires forall i :: 0 <= i < k ==> !CanStillStart(s.p.statuses, q[i])
    requires SlotOf(s', q[k]).status.Some? && SlotOf(s', q[k]).status.value.TerminationRequested()
    ensures forall i :: 0 <= i < k + 1 ==> !CanStillStart(s'.p.statuses, q[i])
  {
    forall i | 0 <= i < k + 1 ensures !CanStillStart(s'.p.statuses, q[i]) {
      assert q[i] != q[k] ==> SlotOf(s', q[i]).status == SlotOf(s, q[i]).status;
    }
  }

  lemma KillStep(s: State, u: UID, f: string, k: nat)
    requires Cleared(s, u, f, k) && k < |StartQueue(s.p, f)| && CanStillStart(s.p.statuses, StartQueue(s.p, f)[k])
    ensures var e := Update(KillFile(StartQueue(s.p, f)[k]), None, 1);
            Agreeing(s, e) && Cleared(Step(s, e), u, f, k + 1) && StartQueue(Step(s, e).p, f) == StartQueue(s.p, f)
  {
    var q := StartQueue(s.p, f);
    var x := q[k];
    assert SlotOk(x, SlotOf(s, x)) && SlotOf(s, x).status.Some?;
    KillNames(s, x);
    assert SlotOf(s, u).status.value.fullname == f;
    hide Step, UpdateSlot, Agreeing, StaticInv, Named, SlotOk, SlotOf, KnownAs, Holds;
    var s' := Step(s, Update(KillFile(x), None, 1));
    Updated(s, KillFile(x));
    KillSlot(x, SlotOf(s, x));
    OneLess(s, s', q, k);
    assert u != x ==> SlotOf(s', u) == SlotOf(s, u);
    StaysRogue(s, s', u);
  }

  lemma {:induction false} ClearedStartsTwo(s: State, u: UID, f: string, k: nat)
    requires Cleared(s, u, f, k)
    ensures CanStartTwo(s)
    decreases |StartQueue(s.p, f)| - k
  {
    var q := StartQueue(s.p, f);
    if k == |q| {
      NewcomerStarts(s, u, f);
    } else if CanStillStart(s.p.statuses, q[k]) {
      var e := Update(KillFile(q[k]), None, 1);
      KillStep(s, u, f, k);
      ClearedStartsTwo(Step(s, e), u, f, k + 1);
      StepBack(s, e);
    } else {
      ClearedStartsTwo(s, u, f, k + 1);
    }
  }

  // Then a new static pod of that name starts.

  lemma {:induction false} FreshUID(uids: set<UID>) returns (v: UID)
    ensures forall u :: u in uids ==> |u| < |v|
    decreases uids
  {
    if uids == {} {
      v := "new";
    } else {
      var u :| u in uids;
      var w := FreshUID(uids - {u});
      v := w + u + "a";
      assert forall x :: x in uids ==> x == u || x in uids - {u};
    }
  }

  /** The new pod `v` is the only one that waits for the name, and its worker stands at `pc`. */
  ghost predicate Newcomer(s: State, u: UID, v: UID, f: string, q: seq<UID>, pc: PC) {
    Rogue(s, u) && f == KnownAs(s.p, u) && f !in s.p.startedStatic && u != v && v !in q &&
    StartQueue(s.p, f) == q + [v] && (forall x :: x in q ==> !CanStillStart(s.p.statuses, x)) &&
    Fresh(SlotOf(s, v), f, pc)
  }

  predicate Fresh(slot: Slot, f: string, pc: PC) {
    slot.status.Some? && slot.loop.Some? && slot.status.value.fullname == f &&
    !slot.status.value.TerminationRequested() && !slot.status.value.Terminated() &&
    slot.loop.value.worker.isStatic && Holding(slot.loop.value, pc) && IsStaticPod(Item(slot.loop.value).value.pod)
  }

  /** The worker has not started and has an item, in its channel or in its hands. */
  predicate Holding(l: Loop, pc: PC) {
    !l.worker.podStarted && l.worker.pc == pc && (pc == Receiving || pc == Starting) && Item(l).Some?
  }

  function CreateFile(v: UID, pod: Pod): UpdatePodOptions {
    var named := FilePod(v).(name := pod.name, namespace := pod.namespace);
    UpdatePodOptions(SyncPodCreate, 1, Some(named), None, None, None)
  }

  lemma CreatedIsFresh(v: UID, pod: Pod)
    ensures var o := CreateFile(v, pod);
            IsStaticPod(PodOf(o)) && FullName(PodOf(o)) == FullName(pod) && Accepts(EMPTY_SLOT, o, None, 1) &&
            !Begun(EMPTY_SLOT, o, None, 1).Terminated() &&
            Begun(EMPTY_SLOT, o, None, 1).fullname == FullName(pod) &&
            Fresh(UpdateSlot(EMPTY_SLOT, o, None, 1), FullName(pod), Receiving)
  {
    FilePodStatic(v);
    var o := CreateFile(v, pod);
    var st := NewStatus(PodOf(o), 1);
    assert Begun(EMPTY_SLOT, o, None, 1) == st;
    assert Assign(st, o) == (st, WorkOf(o, SyncPodWork, None), false);
    hide Assign;
  }

  lemma NewcomerStarts(s: State, u: UID, f: string)
    requires Cleared(s, u, f, |StartQueue(s.p, f)|)
    ensures CanStartTwo(s)
  {
    var q := StartQueue(s.p, f);
    var v := FreshUID(s.p.statuses.Keys + set x | x in q);
    assert IsFullName(f);
    var pod :| FullName(pod) == f;
    NewcomerComes(s, u, v, f, pod);
    NewcomerReceives(Step(s, Update(CreateFile(v, pod), None, 1)), u, v, f, q);
    StepBack(s, Update(CreateFile(v, pod), None, 1));
  }

  lemma CreateNames(s: State, v: UID, pod: Pod)
    requires StaticInv(s) && v !in s.p.statuses
    ensures var e, f := Update(CreateFile(v, pod), None, 1), FullName(pod);
            Agreeing(s, e) && Step(s, e).p.startedStatic == s.p.startedStatic &&
            StartQueue(Step(s, e).p, f) == StartQueue(s.p, f) + [v]
  {
    assert SlotOk(v, SlotOf(s, v)) && SlotOf(s, v) == EMPTY_SLOT && v !in s.p.podUpdates;
    CreatedIsFresh(v, pod);
    NamesAfterUpdate(s, CreateFile(v, pod), None, 1);
    hide Step, Accepts, Begun, StaticInv, Fresh, UpdateSlot;
  }

  lemma NewcomerComes(s: State, u: UID, v: UID, f: string, pod: Pod)
    requires Cleared(s, u, f, |StartQueue(s.p, f)|) && FullName(pod) == f
    requires v !in s.p.statuses && v !in StartQueue(s.p, f)
    ensures var e := Update(CreateFile(v, pod), None, 1);
            Agreeing(s, e) && Newcomer(Step(s, e), u, v, f, StartQueue(s.p, f), Receiving)
  {
    var q, s' := StartQueue(s.p, f), Step(s, Update(CreateFile(v, pod), None, 1));
    assert SlotOk(v, SlotOf(s, v)) && SlotOf(s, v) == EMPTY_SLOT;
    CreatedIsFresh(v, pod);
    CreateNames(s, v, pod);
    Updated(s, CreateFile(v, pod));
    hide Step, UpdateSlot, Agreeing, StaticInv, Named, SlotOk, Accepts, Begun, Fresh;
    forall x | x in q ensures !CanStillStart(s'.p.statuses, x) {
      assert SlotOf(s', x) == SlotOf(s, x);
    }
    assert SlotOf(s', u) == SlotOf(s, u);
    StaysRogue(s, s', u);
  }

  lemma HoldingReceives(u: UID, slot: Slot, w: nat)
    requires SlotOk(u, slot) && slot.loop.Some? && Holding(slot.loop.value, Receiving)
    ensures CanStep(slot, Receive(w))
    ensures var slot' := WorkerStep(slot, Receive(w), Go);
            slot'.status == slot.status && slot'.loop.Some? && Holding(slot'.loop.value, Starting) &&
            Item(slot'.loop.value) == Item(slot.loop.value) &&
            slot'.loop.value.worker.isStatic == slot.loop.value.worker.isStatic
  {
  }

  /** The worker takes its item; nothing else changes. */
  lemma TakesItem(s: State, v: UID)
    requires StaticInv(s) && Named(s) && SlotOf(s, v).loop.Some? && Holding(SlotOf(s, v).loop.value, Receiving)
    ensures var e := Receive(s.p.podUpdates[v]);
            var slot := SlotOf(s, v);
            Agreeing(s, e) && StaticInv(Step(s, e)) && Named(Step(s, e)) && OthersKept(s, Step(s, e), v) &&
            Step(s, e).p.startedStatic == s.p.startedStatic && Step(s, e).p.waitingStatic == s.p.waitingStatic &&
            SlotOf(Step(s, e), v) == WorkerStep(slot, e, Go)
  {
    assert SlotOk(v, SlotOf(s, v));
    var w := s.p.podUpdates[v];
    HoldingReceives(v, SlotOf(s, v), w);
    LiveSlot(s, w);
    WorkerRefines(s, Receive(w));
    NamesAfterWorker(s, Receive(w));
    StepKeepsStatic(s, Receive(w));
    StepNamed(s, Receive(w));
  }

  lemma NewcomerReceives(s: State, u: UID, v: UID, f: string, q: seq<UID>)
    requires Newcomer(s, u, v, f, q, Receiving)
    ensures CanStartTwo(s)
  {
    var e := Receive(s.p.podUpdates[v]);
    assert SlotOk(v, SlotOf(s, v));
    TakesItem(s, v);
    HoldingReceives(v, SlotOf(s, v), s.p.podUpdates[v]);
    var s' := Step(s, e);
    hide Step, StaticInv, Named, WorkerStep, SlotOk, CanStep, Agreeing;
    forall x | x in q ensures !CanStillStart(s'.p.statuses, x) {
      assert SlotOf(s', x) == SlotOf(s, x);
    }
    assert SlotOf(s', u) == SlotOf(s, u);
    StaysRogue(s, s', u);
    NewcomerTakesName(s', u, v, f, q);
    StepBack(s, e);
  }

  lemma LastWaits(statuses: map<UID, PodSyncStatus>, q: seq<UID>, v: UID)
    requires (forall x :: x in q ==> !CanStillStart(statuses, x)) && CanStillStart(statuses, v)
    ensures FirstWaiting(statuses, q + [v]) == |q|
  {
    var i := FirstWaiting(statuses, q + [v]);
    assert (q + [v])[|q|] == v;
    assert forall j :: 0 <= j < |q| ==> (q + [v])[j] == q[j];
  }

  lemma NewcomerTakesName(s: State, u: UID, v: UID, f: string, q: seq<UID>)
    requires Newcomer(s, u, v, f, q, Starting)
    ensures CanStartTwo(s)
  {
    assert SlotOk(v, SlotOf(s, v));
    var w := s.p.podUpdates[v];
    LiveSlot(s, w);
    LastWaits(s.p.statuses, q, v);
    assert (q + [v])[|q|] == v;
    assert AllowStaticPodStart(s.p, f, v).1;
    hide FirstWaiting, AllowStaticPodStart;
    assert Answer(s, Start(w)) == Go;
    WorkerRefines(s, Start(w));
    var s' := Step(s, Start(w));
    assert SlotOf(s', u) == SlotOf(s, u);
    assert SlotOf(s', v) == WorkerStep(SlotOf(s, v), Start(w), Go);
    StartedAlike(s, s', u, v, f);
    Already(s', u, v);
    StepBack(s, Start(w));
  }

  lemma StartedAlike(s: State, s': State, u: UID, v: UID, f: string)
    requires u != v && StartedStatic(SlotOf(s, u)) && SlotOf(s', u) == SlotOf(s, u) && KnownAs(s.p, u) == f
    requires StartedStatic(SlotOf(s', v)) && SlotOf(s', v).status.value.fullname == f
    ensures TwoStarted(s', u, v)
  {
    assert SlotOf(s', u).status.Some? && SlotOf(s', v).status.Some?;
  }

  /** Whether its name is free or held, a pod that has started without it can be joined by another one. */
  lemma RogueStartsTwo(s: State, u: UID)
    requires Rogue(s, u)
    ensures CanStartTwo(s)
  {
    var f := KnownAs(s.p, u);
    if f in s.p.startedStatic {
      var v := s.p.startedStatic[f];
      assert HolderOk(SlotOf(s, v), f) && SlotOf(s, v).status.Some?;
      Already(s, u, v);
    } else {
      ClearedStartsTwo(s, u, f, 0);
    }
  }

  /** A static pod's worker has not started and has an item that is not static. */
  predicate Slipped(slot: Slot, pc: PC) {
    slot.status.Some? && slot.loop.Some? && slot.loop.value.worker.isStatic && Holding(slot.loop.value, pc) &&
    !IsStaticPod(Item(slot.loop.value).value.pod)
  }

  lemma UpdateSlips(slot: Slot, o: UpdatePodOptions, cached: Option<CachedStatus>, now: Time)
    requires Callable(o) && now != 0 && SlotOk(PodOf(o).uid, slot) && Slips(slot, o, cached, now)
    ensures Slipped(UpdateSlot(slot, o, cached, now), Receiving)
  {
    BegunReady(slot, o, cached, now);
    PodWorkerLifecycle.AssignFacts(Begun(slot, o, cached, now), o);
    hide Assign, Became;
  }

  lemma SlippedReceives(s: State, u: UID)
    requires StaticInv(s) && Named(s) && Slipped(SlotOf(s, u), Receiving)
    ensures CanStartTwo(s)
  {
    var e := Receive(s.p.podUpdates[u]);
    assert SlotOk(u, SlotOf(s, u));
    TakesItem(s, u);
    HoldingReceives(u, SlotOf(s, u), s.p.podUpdates[u]);
    SlippedStarts(Step(s, e), u);
    StepBack(s, e);
  }

  lemma SlippedSteps(u: UID, slot: Slot, w: nat)
    requires SlotOk(u, slot) && Slipped(slot, Starting)
    ensures CanStep(slot, Start(w)) && StartedStatic(WorkerStep(slot, Start(w), Go))
    ensures WorkerStep(slot, Start(w), Go).status == slot.status
  {
  }

  /** Its worker starts without asking for the name. */
  lemma StartsUnasked(s: State, u: UID)
    requires StaticInv(s) && Named(s) && Slipped(SlotOf(s, u), Starting)
    ensures var e := Start(s.p.podUpdates[u]);
            Agreeing(s, e) && Step(s, e).p == s.p && StartedStatic(SlotOf(Step(s, e), u))
  {
    assert SlotOk(u, SlotOf(s, u));
    var w := s.p.podUpdates[u];
    LiveSlot(s, w);
    WorkerRefines(s, Start(w));
    SlippedSteps(u, SlotOf(s, u), w);
    hide WorkerStep, StartedStatic, SlotOk, StaticInv;
  }

  lemma SlippedStarts(s: State, u: UID)
    requires StaticInv(s) && Named(s) && Slipped(SlotOf(s, u), Starting)
    ensures CanStartTwo(s)
  {
    var e := Start(s.p.podUpdates[u]);
    StartsUnasked(s, u);
    StepKeepsStatic(s, e);
    StepNamed(s, e);
    var f := KnownAs(s.p, u);
    assert f in s.p.startedStatic ==> HolderOk(SlotOf(s, s.p.startedStatic[f]), f);
    hide Step, StaticInv, Named;
    RogueStartsTwo(Step(s, e), u);
    StepBack(s, e);
  }

  /** An update can lead to two started static pods of one full name if and only if it slips one of them an item that
      is not static. */
  lemma ExclusionIffNotSlipped(es: seq<Event>, o: UpdatePodOptions, cached: Option<CachedStatus>, now: Time)
    requires AgreeingRun(INITIAL, es) && Run(INITIAL, es)
    requires Admissible(Exec(INITIAL, es), Update(o, cached, now))
    ensures CanStartTwo(Step(Exec(INITIAL, es), Update(o, cached, now))) <==>
            Slips(SlotOf(Exec(INITIAL, es), PodOf(o).uid), o, cached, now)
  {
    var s, u, e := Exec(INITIAL, es), PodOf(o).uid, Update(o, cached, now);
    InitialAgrees();
    RunAgrees(INITIAL, es);
    RunNamed(INITIAL, es);
    if Slips(SlotOf(s, u), o, cached, now) {
      assert SlotOk(u, SlotOf(s, u));
      UpdateSlips(SlotOf(s, u), o, cached, now);
      UpdateRefines(s, o, cached, now);
      StepKeepsStatic(s, e);
      StepNamed(s, e);
      assert SlotOf(Step(s, e), u) == UpdateSlot(SlotOf(s, u), o, cached, now);
      hide Step, UpdateSlot, Slipped, SlotOk, StaticInv, Named;
      SlippedReceives(Step(s, e), u);
    } else {
      StepAgrees(s, e);
      forall fs, x, y | AgreeingRun(Step(s, e), fs) && Run(Step(s, e), fs)
        ensures !TwoStarted(Exec(Step(s, e), fs), x, y)
      {
        RunAgrees(Step(s, e), fs);
      }
    }
  }

  // ---------- it does happen ----------

  lemma {:induction false} StaticRunAgrees(s: State, es: seq<Event>)
    requires Run(s, es) && AllStatic(es)
    ensures AgreeingRun(s, es)
    decreases |es|
  {
    if es != [] {
      assert es[0] in es && forall e :: e in es[1..] ==> e in es;
      StaticRunAgrees(Step(s, es[0]), es[1..]);
    }
  }

  /** Two static pods share a full name, and the one that waits is killed by what the runtime knows: both can start. */
  lemma SlippingHappens()
    ensures exists es, o :: AgreeingRun(INITIAL, es) && Run(INITIAL, es) && Callable(o) &&
                            Admissible(Exec(INITIAL, es), Update(o, None, 1)) &&
                            CanStartTwo(Step(Exec(INITIAL, es), Update(o, None, 1)))
  {
    FiveIsReachable();
    var es :| PodWorkerLifecycle.OrderlyRun(INITIAL, es) && AllStatic(es) && Run(INITIAL, es) &&
              Exec(INITIAL, es) == FIVE;
    StaticRunAgrees(INITIAL, es);
    var o := Orphaned("b");
    assert SlotOf(FIVE, "b").status == Some(Idle("b"));
    assert Slips(SlotOf(FIVE, "b"), o, None, 1);
    hide Step, Run, Exec, AgreeingRun, Slips;
    ExclusionIffNotSlipped(es, o, None, 1);
  }
}
