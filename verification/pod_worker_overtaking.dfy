/** The lifecycle is safe exactly as long as no update that asks a pod to stop overtakes an undelivered one. */
module PodWorkerOvertaking {
  import opened Wrappers
  import opened Api
  import opened PodWorkerModel
  import opened PodWorkerSteps
  import opened PodWorkerSlot
  import opened PodWorkerRefine
  import opened PodWorkerInvariant
  import opened PodWorkerLifecycle

  /** syncPod runs for a pod whose containers should already be terminating. */
  ghost predicate Violation(s: State, u: UID) {
    u in s.p.statuses && ShouldPodContainersBeTerminating(s.p, u) && Calling(s, u, SyncPodWork)
  }

  ghost predicate CanViolate(s: State, u: UID) {
    exists es :: OrderlyRun(s, es) && Run(s, es) && Violation(Exec(s, es), u)
  }

  lemma StepBack(s: State, e: Event, u: UID)
    requires Orderly(s, e) && CanViolate(Step(s, e), u)
    ensures CanViolate(s, u)
  {
    var es :| OrderlyRun(Step(s, e), es) && Run(Step(s, e), es) && Violation(Exec(Step(s, e), es), u);
    var fs := [e] + es;
    assert fs[1..] == es;
    assert OrderlyRun(s, fs) && Run(s, fs) && Exec(s, fs) == Exec(Step(s, e), es);
  }

  /** The item the worker has or is about to take. */
  function Item(l: Loop): Option<PodWork> {
    if l.worker.pc == Receiving then l.chan.buffer else l.worker.update
  }

  function PcRank(pc: PC): nat {
    match pc
    case Receiving => 7 case Starting => 6 case Fetching => 5 case Contexting => 4
    case Acknowledging => 3 case Syncing => 2 case Queueing => 1
    case _ => 0
  }

  /** The worker has a terminating item while a sync item waits behind it, or has that sync item already. */
  predicate OnTrack(slot: Slot) {
    slot.status.Some? && slot.loop.Some? &&
    var st, l := slot.status.value, slot.loop.value;
    PcRank(l.worker.pc) > 0 && st.TerminationRequested() && Item(l).Some? &&
    (if Item(l).value.workType == TerminatingPodWork then
       IsSync(slot.undelivered) && (l.worker.podStarted || !IsStaticPod(Item(l).value.pod)) &&
       (l.worker.pc == Syncing || l.worker.pc == Queueing ==> st.startedTerminating)
     else
       Item(l).value.workType == SyncPodWork && st.startedTerminating && l.worker.podStarted && l.worker.pc != Queueing)
  }

  function Remaining(slot: Slot): nat
    requires OnTrack(slot)
  {
    PcRank(slot.loop.value.worker.pc) + if Item(slot.loop.value).value.workType == TerminatingPodWork then 10 else 0
  }

  function NextEvent(slot: Slot, w: nat): Event
    requires OnTrack(slot)
  {
    match slot.loop.value.worker.pc
    case Receiving => Receive(w)
    case Starting => Start(w)
    case Fetching => Fetch(w, true)
    case Contexting => TakeContext(w)
    case Acknowledging => Acknowledge(w)
    case Syncing => Return(w, SyncError)
    case _ => Next(w)
  }

  predicate Arrived(slot: Slot)
    requires OnTrack(slot)
  {
    slot.loop.value.worker.pc == Syncing && Item(slot.loop.value).value.workType == SyncPodWork
  }

  lemma TrackStep(u: UID, slot: Slot, w: nat, d: Decision)
    requires SlotOk(u, slot) && OnTrack(slot) && !Arrived(slot)
    requires slot.loop.value.worker.pc == Starting && !slot.loop.value.worker.podStarted ==> DecisionFits(slot, d)
    ensures CanStep(slot, NextEvent(slot, w))
    ensures var slot' := WorkerStep(slot, NextEvent(slot, w), d); OnTrack(slot') && Remaining(slot') < Remaining(slot)
  {
  }

  lemma ArrivedViolates(s: State, u: UID)
    requires Inv(s) && OnTrack(SlotOf(s, u)) && Arrived(SlotOf(s, u))
    ensures CanViolate(s, u)
  {
    assert SlotOk(u, SlotOf(s, u));
    var w := s.p.podUpdates[u];
    assert s.workers[w].pc == Syncing && s.workers[w].update.Some?;
    assert Calling(s, u, SyncPodWork);
    assert OrderlyRun(s, []) && Run(s, []) && Violation(Exec(s, []), u);
  }

  /** The worker's next step keeps the pod on track. */
  lemma StaysOnTrack(s: State, u: UID)
    requires Inv(s) && OnTrack(SlotOf(s, u)) && !Arrived(SlotOf(s, u))
    ensures var e := NextEvent(SlotOf(s, u), s.p.podUpdates[u]);
            Enabled(s, e) && Inv(Step(s, e)) && OnTrack(SlotOf(Step(s, e), u)) &&
            Remaining(SlotOf(Step(s, e), u)) < Remaining(SlotOf(s, u))
  {
    var slot := SlotOf(s, u);
    assert SlotOk(u, slot);
    var w := s.p.podUpdates[u];
    var e := NextEvent(slot, w);
    var stopped := IsStaticPod(Item(slot.loop.value).value.pod) && slot.status.value.TerminationRequested();
    TrackStep(u, slot, w, if stopped then Never else Go);
    LiveSlot(s, w);
    hide Inv, SlotOk, OnTrack;
    assert Enabled(s, e);
    WorkerRefines(s, e);
    WorkerPreserves(s, e);
    hide Step, WorkerStep;
    TrackStep(u, slot, w, Answer(s, e));
  }

  lemma {:induction false} OnTrackViolates(s: State, u: UID)
    requires Inv(s) && OnTrack(SlotOf(s, u))
    ensures CanViolate(s, u)
    decreases Remaining(SlotOf(s, u))
  {
    if Arrived(SlotOf(s, u)) {
      ArrivedViolates(s, u);
    } else {
      var e := NextEvent(SlotOf(s, u), s.p.podUpdates[u]);
      StaysOnTrack(s, u);
      hide Step, Inv, OnTrack, SlotOf, Remaining, Arrived;
      OnTrackViolates(Step(s, e), u);
      StepBack(s, e, u);
    }
  }

  /** An update that asks an idle pod to stop, goes past an older item and is not static leads there. */
  lemma OvertakingOnTrack(s: State, o: UpdatePodOptions, cached: Option<CachedStatus>, now: Time)
    requires OrderInv(s) && Admissible(s, Update(o, cached, now)) && Overtakes(s.p, o)
    requires Became(SlotOf(s, PodOf(o).uid), o, cached, now)
    ensures OnTrack(SlotOf(Step(s, Update(o, cached, now)), PodOf(o).uid))
  {
    var slot := SlotOf(s, PodOf(o).uid);
    assert SlotOk(PodOf(o).uid, slot);
    UpdateRefines(s, o, cached, now);
    AssignFacts(Begun(slot, o, cached, now), o);
    hide Assign, Step;
  }

  /** An update leaves the order in danger if and only if it overtakes and asks its pod to stop. */
  lemma SafeIffNotOvertaking(es: seq<Event>, o: UpdatePodOptions, cached: Option<CachedStatus>, now: Time)
    requires OrderlyRun(INITIAL, es) && Run(INITIAL, es)
    requires Admissible(Exec(INITIAL, es), Update(o, cached, now))
    ensures CanViolate(Step(Exec(INITIAL, es), Update(o, cached, now)), PodOf(o).uid) <==>
            Overtakes(Exec(INITIAL, es).p, o) && Became(SlotOf(Exec(INITIAL, es), PodOf(o).uid), o, cached, now)
  {
    var s, u, e := Exec(INITIAL, es), PodOf(o).uid, Update(o, cached, now);
    InitialOrder();
    RunOrder(INITIAL, es);
    StepPreserves(s, e);
    if Endangers(s, e) {
      OvertakingOnTrack(s, o, cached, now);
      OnTrackViolates(Step(s, e), u);
    } else {
      StepOrder(s, e);
      forall fs | OrderlyRun(Step(s, e), fs) && Run(Step(s, e), fs) ensures !Violation(Exec(Step(s, e), fs), u) {
        RunOrder(Step(s, e), fs);
        if Violation(Exec(Step(s, e), fs), u) { NoSync(Exec(Step(s, e), fs), u); }
      }
    }
  }

  /** Overtaking takes two updates of one incarnation that disagree on whether the pod is static. */
  lemma OvertakingDisagrees(es: seq<Event>, o: UpdatePodOptions)
    requires Run(INITIAL, es) && Callable(o) && Overtakes(Exec(INITIAL, es).p, o)
    ensures var slot := SlotOf(Exec(INITIAL, es), PodOf(o).uid);
            slot.loop.Some? && slot.loop.value.worker.isStatic && !slot.loop.value.worker.podStarted &&
            !IsStaticPod(PodOf(o))
  {
    InitialInv();
    RunPreserves(INITIAL, es);
    assert SlotOk(PodOf(o).uid, SlotOf(Exec(INITIAL, es), PodOf(o).uid));
  }

  // ---------- it does happen ----------

  function FilePod(uid: UID): Pod {
    Pod(uid, "web", "default", map[CONFIG_SOURCE_ANNOTATION_KEY := "file"], None, None, None, EMPTY_SPEC, EMPTY_STATUS)
  }

  function Configured(uid: UID, updateType: SyncPodType): Event {
    Update(UpdatePodOptions(updateType, 1, Some(FilePod(uid)), None, None, None), None, 1)
  }

  /** The runtime still runs the pod, so housekeeping asks to kill it by what the runtime knows. */
  function Orphaned(uid: UID): UpdatePodOptions {
    UpdatePodOptions(SyncPodKill, 1, None, None, Some(RuntimePod(uid, "web", "default", [])), None)
  }

  function Idle(uid: UID): PodSyncStatus {
    NewStatus(FilePod(uid), 1)
  }

  function Item1(uid: UID, updateType: SyncPodType): PodWork {
    PodWork(SyncPodWork, updateType, 1, FilePod(uid), None, None, None)
  }

  function Reader(uid: UID): Worker {
    Worker(uid, true, Receiving, None, false)
  }

  function Full(uid: UID): Chan {
    Chan(Some(Item1(uid, SyncPodCreate)), false)
  }

  const WEB := "web" + "_" + "default"

  const ONE := State(
    Shared(false, map["a" := 0], map[], map["a" := Idle("a").(working := true)], map[], map[WEB := ["a"]], [Full("a")],
           {}, {}),
    [Reader("a")])

  const TWO := State(
    Shared(false, map["a" := 0, "b" := 1], map[],
           map["a" := Idle("a").(working := true), "b" := Idle("b").(working := true)],
           map[], map[WEB := ["a", "b"]], [Full("a"), Full("b")], {}, {}),
    [Reader("a"), Reader("b")])

  const THREE := TWO.(p := TWO.p.(lastUndelivered := map["b" := Item1("b", SyncPodUpdate)]))

  const FOUR := State(
    THREE.p.(chans := [Full("a"), Chan(None, false)]),
    [Reader("a"), Worker("b", true, Starting, Some(Item1("b", SyncPodCreate)), false)])

  const FIVE := State(
    FOUR.p.(statuses := map["a" := Idle("a").(working := true), "b" := Idle("b")]),
    [Reader("a"), Worker("b", true, Receiving, Some(Item1("b", SyncPodCreate)), false)])

  lemma FilePodStatic(uid: UID)
    ensures IsStaticPod(FilePod(uid)) && FullName(FilePod(uid)) == WEB
  {
    assert |APISERVER_SOURCE| == 3 && |"file"| == 4;
  }

  lemma ToOne()
    ensures Orderly(INITIAL, Configured("a", SyncPodCreate)) && Step(INITIAL, Configured("a", SyncPodCreate)) == ONE
  {
    var o := Configured("a", SyncPodCreate).o;
    FilePodStatic("a");
    assert StartQueue(NO_WORKERS, WEB) + ["a"] == ["a"];
    assert Assign(Idle("a"), o) == (Idle("a"), Item1("a", SyncPodCreate), false);
    var p := UpdatePod(NO_WORKERS, o, None, 1);
    assert p.chans == ONE.p.chans && p.waitingStatic == ONE.p.waitingStatic;
    assert p == ONE.p;
  }

  lemma ToTwo()
    ensures Orderly(ONE, Configured("b", SyncPodCreate)) && Step(ONE, Configured("b", SyncPodCreate)) == TWO
  {
    var o := Configured("b", SyncPodCreate).o;
    FilePodStatic("b");
    assert StartQueue(ONE.p, WEB) + ["b"] == ["a", "b"];
    assert Assign(Idle("b"), o) == (Idle("b"), Item1("b", SyncPodCreate), false);
    var p := UpdatePod(ONE.p, o, None, 1);
    assert p.chans == TWO.p.chans && p.waitingStatic == TWO.p.waitingStatic;
    assert p == TWO.p;
  }

  lemma ToThree()
    ensures Orderly(TWO, Configured("b", SyncPodUpdate)) && Step(TWO, Configured("b", SyncPodUpdate)) == THREE
  {
    var o := Configured("b", SyncPodUpdate).o;
    var st := Idle("b").(working := true);
    assert TWO.p.statuses["b"] == st;
    assert Assign(st, o) == (st, Item1("b", SyncPodUpdate), false);
    assert UpdatePod(TWO.p, o, None, 1) == THREE.p;
  }

  lemma ToFour()
    ensures Orderly(THREE, Receive(1)) && Step(THREE, Receive(1)) == FOUR
  {
  }

  lemma ToFive()
    ensures Orderly(FOUR, Start(1)) && Step(FOUR, Start(1)) == FIVE
  {
    FilePodStatic("b");
    var q := ["a", "b"];
    assert FirstWaiting(FOUR.p.statuses, q) == 0;
    assert q[0..] == q;
    assert FOUR.p.waitingStatic[WEB := q] == FOUR.p.waitingStatic;
    assert AllowStaticPodStart(FOUR.p, WEB, "b") == (FOUR.p, false);
    assert "a" != "b" && "b" in FOUR.p.statuses && FOUR.p.statuses["b"] == Idle("b").(working := true);
    assert FOUR.p.statuses["b" := Idle("b")] == FIVE.p.statuses;
    hide AllowStaticPodStart, FirstWaiting;
    assert AllowPodStart(FOUR.p, FilePod("b")) == (FIVE.p, false, true);
  }

  lemma OneMore(s: State, e: Event, es: seq<Event>)
    requires Orderly(s, e) && OrderlyRun(Step(s, e), es) && Run(Step(s, e), es)
    ensures OrderlyRun(s, [e] + es) && Run(s, [e] + es) && Exec(s, [e] + es) == Exec(Step(s, e), es)
  {
    assert ([e] + es)[1..] == es;
  }

  ghost predicate AllStatic(es: seq<Event>) {
    forall e :: e in es && e.Update? ==> Callable(e.o) && IsStaticPod(PodOf(e.o))
  }

  /** Two static pods share a full name, and the second gets an update before its worker asks to start. */
  lemma FiveIsReachable()
    ensures exists es :: OrderlyRun(INITIAL, es) && AllStatic(es) && Run(INITIAL, es) && Exec(INITIAL, es) == FIVE
  {
    ToOne();
    ToTwo();
    ToThree();
    ToFour();
    ToFive();
    hide Step, Orderly;
    OneMore(FOUR, Start(1), []);
    OneMore(THREE, Receive(1), [Start(1)]);
    var e1, e2, e3 := Configured("a", SyncPodCreate), Configured("b", SyncPodCreate), Configured("b", SyncPodUpdate);
    OneMore(TWO, e3, [Receive(1)] + [Start(1)]);
    OneMore(ONE, e2, [e3] + ([Receive(1)] + [Start(1)]));
    OneMore(INITIAL, e1, [e2] + ([e3] + ([Receive(1)] + [Start(1)])));
    var es := [e1] + ([e2] + ([e3] + ([Receive(1)] + [Start(1)])));
    assert Exec(INITIAL, es) == FIVE;
    FilePodStatic("a");
    FilePodStatic("b");
    assert AllStatic(es);
  }

  /** When the runtime's orphan of that second pod is killed then, the order is in danger. */
  lemma OvertakingHappens()
    ensures exists es, o :: OrderlyRun(INITIAL, es) && Run(INITIAL, es) && Callable(o) &&
                            Admissible(Exec(INITIAL, es), Update(o, None, 1)) && Overtakes(Exec(INITIAL, es).p, o) &&
                            CanViolate(Step(Exec(INITIAL, es), Update(o, None, 1)), PodOf(o).uid)
  {
    FiveIsReachable();
    var es :| OrderlyRun(INITIAL, es) && AllStatic(es) && Run(INITIAL, es) && Exec(INITIAL, es) == FIVE;
    var o := Orphaned("b");
    assert Overtakes(FIVE.p, o) && Became(SlotOf(FIVE, "b"), o, None, 1);
    hide Step, Run, Exec, OrderlyRun;
    SafeIffNotOvertaking(es, o, None, 1);
  }
}
