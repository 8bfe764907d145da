/** Every step of the whole system is a step of one slot: the projection the invariant rests on. */
module PodWorkerRefine {
  import opened Wrappers
  import opened Api
  import opened PodWorkerModel
  import opened PodWorkerSteps
  import opened PodWorkerSlot

  /** Every update channel has its goroutine, and every goroutine that has not exited reads the channel
      registered for its UID: one worker per live UID. */
  ghost predicate Linked(s: State) {
    |s.p.chans| == |s.workers| &&
    (forall u :: u in s.p.podUpdates ==> s.p.podUpdates[u] < |s.workers|) &&
    (forall w :: 0 <= w < |s.workers| && s.workers[w].pc != Exited ==>
       s.workers[w].uid in s.p.podUpdates && s.p.podUpdates[s.workers[w].uid] == w)
  }

  ghost predicate SlotsOk(s: State) {
    forall u :: SlotOk(u, SlotOf(s, u))
  }

  ghost predicate Distinct<T(!new)>(xs: seq<T>) {
    forall i, j :: 0 <= i < j < |xs| ==> xs[i] != xs[j]
  }

  /** The completion channels that wait for a UID to terminate. */
  function Registered(p: Shared, u: UID): seq<CompletedCh> {
    if u in p.statuses then p.statuses[u].notifyPostTerminating else []
  }

  /** No registered completion channel is closed, and none is registered twice. */
  ghost predicate CompletionOk(p: Shared) {
    (forall u, ch :: ch in Registered(p, u) ==> ch !in p.completed) &&
    (forall u, v, ch :: ch in Registered(p, u) && ch in Registered(p, v) ==> u == v) &&
    (forall u :: Distinct(Registered(p, u)))
  }

  ghost predicate Inv(s: State) {
    Linked(s) && SlotsOk(s) && CompletionOk(s.p) && s.p.faults == {}
  }

  ghost predicate OthersKept(s: State, s': State, u0: UID) {
    forall u :: u != u0 ==> SlotOf(s', u) == SlotOf(s, u)
  }

  // ---------- framing ----------

  /** The maps keep what they say about every UID but `u0`. */
  ghost predicate SameElsewhere(p: Shared, p': Shared, u0: UID) {
    (forall u :: u != u0 ==> (u in p'.statuses <==> u in p.statuses)) &&
    (forall u :: u != u0 && u in p.statuses ==> p'.statuses[u] == p.statuses[u]) &&
    (forall u :: u != u0 ==> (u in p'.lastUndelivered <==> u in p.lastUndelivered)) &&
    (forall u :: u != u0 && u in p.lastUndelivered ==> p'.lastUndelivered[u] == p.lastUndelivered[u])
  }

  /** A step of goroutine `w` changes its own channel and the entries of its own UID at most. */
  ghost predicate OwnStep(s: State, s': State, w: nat) {
    w < |s.workers| == |s'.workers| && |s'.p.chans| == |s.p.chans| && s'.workers[w].uid == s.workers[w].uid &&
    (forall i :: 0 <= i < |s.workers| && i != w ==> s'.workers[i] == s.workers[i]) &&
    (forall i :: 0 <= i < |s.p.chans| && i != w ==> s'.p.chans[i] == s.p.chans[i]) &&
    s'.p.podUpdates == (if s'.workers[w].pc == Exited then s.p.podUpdates - {s.workers[w].uid} else s.p.podUpdates) &&
    s'.p.faults == s.p.faults &&
    SameElsewhere(s.p, s'.p, s.workers[w].uid)
  }

  lemma OwnStepFrames(s: State, s': State, w: nat)
    requires Linked(s) && SlotsOk(s) && OwnStep(s, s', w) && s.workers[w].pc != Exited
    ensures Linked(s') && OthersKept(s, s', s.workers[w].uid)
  {
    forall u | u != s.workers[w].uid ensures SlotOf(s', u) == SlotOf(s, u) {
      assert SlotOk(u, SlotOf(s, u));
    }
  }

  /** What the slot of a goroutine that has not exited looks like. */
  lemma LiveSlot(s: State, w: nat)
    requires Linked(s) && SlotsOk(s) && w < |s.workers| && s.workers[w].pc != Exited
    ensures var u0 := s.workers[w].uid;
            u0 in s.p.podUpdates && s.p.podUpdates[u0] == w && w < |s.p.chans| && u0 in s.p.statuses &&
            SlotOf(s, u0).loop == Some(Loop(s.p.chans[w], s.workers[w])) &&
            SlotOf(s, u0).status == Some(s.p.statuses[u0]) &&
            SlotOk(u0, SlotOf(s, u0))
  {
    assert SlotOk(s.workers[w].uid, SlotOf(s, s.workers[w].uid));
  }

  // ---------- the worker's steps ----------

  /** What allowPodStart answers when the event asks it. */
  function Answer(s: State, e: Event): Decision
    requires Enabled(s, e)
  {
    if e.Start? then DecisionOf(s.p, s.workers[e.w].update.value.pod) else Go
  }

  /** What it means for a step of a goroutine to be the step of its slot. */
  ghost predicate RefinesSlot(s: State, e: Event)
    requires IsWorkerEvent(e) && Enabled(s, e)
  {
    var s', u0 := Step(s, e), s.workers[WorkerOf(e)].uid;
    CanStep(SlotOf(s, u0), e) && SlotOf(s', u0) == WorkerStep(SlotOf(s, u0), e, Answer(s, e)) &&
    OthersKept(s, s', u0) && Linked(s') && s'.p.faults == s.p.faults
  }

  /** The status, the undelivered item and the loop after the step, put together. */
  lemma SlotAfter(s': State, u0: UID, w: nat, slot: Slot)
    requires u0 in s'.p.statuses && slot.status == Some(s'.p.statuses[u0])
    requires slot.undelivered == Undelivered(s'.p, u0)
    requires if slot.loop.None? then u0 !in s'.p.podUpdates
             else u0 in s'.p.podUpdates && s'.p.podUpdates[u0] == w && w < |s'.p.chans| && w < |s'.workers| &&
                  slot.loop.value == Loop(s'.p.chans[w], s'.workers[w])
    ensures SlotOf(s', u0) == slot
  {
  }

  lemma ReceiveRefines(s: State, w: nat)
    requires Inv(s) && Enabled(s, Receive(w))
    ensures RefinesSlot(s, Receive(w))
  {
    LiveSlot(s, w);
    OwnStepFrames(s, Step(s, Receive(w)), w);
  }

  /** Starting changes the static start queue and, when the pod has to wait, its own `working` flag. */
  lemma AllowPodStartShape(p: Shared, pod: Pod)
    requires pod.uid in p.statuses
    ensures var p', d := AllowPodStart(p, pod).0, DecisionOf(p, pod);
            p' == p.(waitingStatic := p'.waitingStatic, startedStatic := p'.startedStatic, statuses := p'.statuses) &&
            p'.statuses == (if d == Wait then p.statuses[pod.uid := p.statuses[pod.uid].(working := false)]
                            else p.statuses) &&
            if !IsStaticPod(pod) then d == Go else (d == Never <==> p.statuses[pod.uid].TerminationRequested())
  {
    if IsStaticPod(pod) {
      var p1 := AllowStaticPodStart(p, p.statuses[pod.uid].fullname, pod.uid).0;
      assert p1 == p.(waitingStatic := p1.waitingStatic, startedStatic := p1.startedStatic);
    }
  }

  lemma StartOwn(s: State, w: nat)
    requires Inv(s) && Enabled(s, Start(w))
    ensures OwnStep(s, Step(s, Start(w)), w)
  {
    hide CompletionOk, AllowPodStart;
    LiveSlot(s, w);
    AllowPodStartShape(s.p, s.workers[w].update.value.pod);
    hide Inv, Linked, SlotsOk;
  }

  lemma StartSlot(s: State, w: nat)
    requires Inv(s) && Enabled(s, Start(w))
    ensures var u0, d := s.workers[w].uid, Answer(s, Start(w));
            CanStep(SlotOf(s, u0), Start(w)) && DecisionFits(SlotOf(s, u0), d) &&
            SlotOf(Step(s, Start(w)), u0) == WorkerStep(SlotOf(s, u0), Start(w), d)
  {
    hide CompletionOk, AllowPodStart;
    LiveSlot(s, w);
    AllowPodStartShape(s.p, s.workers[w].update.value.pod);
    hide Inv, Linked, SlotsOk;
    var u0 := s.workers[w].uid;
    SlotAfter(Step(s, Start(w)), u0, w, WorkerStep(SlotOf(s, u0), Start(w), Answer(s, Start(w))));
  }

  lemma StartRefines(s: State, w: nat)
    requires Inv(s) && Enabled(s, Start(w))
    ensures RefinesSlot(s, Start(w)) && DecisionFits(SlotOf(s, s.workers[w].uid), Answer(s, Start(w)))
  {
    StartOwn(s, w);
    StartSlot(s, w);
    hide Step, WorkerStep, CanStep, SlotOf, CompletionOk, Answer, DecisionFits;
    OwnStepFrames(s, Step(s, Start(w)), w);
  }

  lemma AbandonRefines(s: State, w: nat, now: Time)
    requires Inv(s) && Enabled(s, Abandon(w, now))
    ensures RefinesSlot(s, Abandon(w, now))
  {
    LiveSlot(s, w);
    OwnStepFrames(s, Step(s, Abandon(w, now)), w);
  }

  /** Fetching and returning move the goroutine only. */
  lemma MoveRefines(s: State, e: Event)
    requires Inv(s) && Enabled(s, e) && (e.Fetch? || e.Return?)
    ensures RefinesSlot(s, e)
  {
    hide CompletionOk;
    var w := WorkerOf(e);
    LiveSlot(s, w);
    OwnStepFrames(s, Step(s, e), w);
    SlotAfter(Step(s, e), s.workers[w].uid, w, WorkerStep(SlotOf(s, s.workers[w].uid), e, Go));
  }

  /** Taking a context and acknowledging change the status of the pod. */
  lemma StatusRefines(s: State, e: Event)
    requires Inv(s) && Enabled(s, e) && (e.TakeContext? || e.Acknowledge?)
    ensures RefinesSlot(s, e)
  {
    hide CompletionOk;
    var w := WorkerOf(e);
    LiveSlot(s, w);
    OwnStepFrames(s, Step(s, e), w);
    SlotAfter(Step(s, e), s.workers[w].uid, w, WorkerStep(SlotOf(s, s.workers[w].uid), e, Go));
  }

  lemma NextShape(p: Shared, uid: UID)
    requires uid in p.statuses && HasChan(p, uid) && p.chans[p.podUpdates[uid]] == Chan(None, false)
    ensures CompleteWorkQueueNext(p, uid) ==
              if uid in p.lastUndelivered
              then p.(chans := p.chans[p.podUpdates[uid] := Chan(Some(p.lastUndelivered[uid]), false)],
                      lastUndelivered := p.lastUndelivered - {uid})
              else p.(statuses := p.statuses[uid := p.statuses[uid].(working := false)])
  {
  }

  lemma NextOwn(s: State, w: nat)
    requires Inv(s) && Enabled(s, Next(w))
    ensures OwnStep(s, Step(s, Next(w)), w)
  {
    hide CompletionOk, CompleteWorkQueueNext;
    LiveSlot(s, w);
    NextShape(s.p, s.workers[w].uid);
    hide Inv, Linked, SlotsOk, SlotOf, SlotOk;
  }

  lemma NextSlot(s: State, w: nat)
    requires Inv(s) && Enabled(s, Next(w))
    ensures var u0 := s.workers[w].uid;
            CanStep(SlotOf(s, u0), Next(w)) &&
            SlotOf(Step(s, Next(w)), u0) == WorkerStep(SlotOf(s, u0), Next(w), Go)
  {
    hide CompletionOk;
    LiveSlot(s, w);
    hide Inv, Linked, SlotsOk;
    SlotAfter(Step(s, Next(w)), s.workers[w].uid, w, WorkerStep(SlotOf(s, s.workers[w].uid), Next(w), Go));
  }

  lemma NextRefines(s: State, w: nat)
    requires Inv(s) && Enabled(s, Next(w))
    ensures RefinesSlot(s, Next(w))
  {
    NextOwn(s, w);
    NextSlot(s, w);
    hide Step, WorkerStep, CanStep, SlotOf, CompletionOk;
    OwnStepFrames(s, Step(s, Next(w)), w);
  }

  /** Closing a list of distinct channels that are still open adds exactly them to the closed ones. */
  lemma {:induction false} CloseAllDistinct(p: Shared, chs: seq<CompletedCh>)
    requires Distinct(chs) && forall ch :: ch in chs ==> ch !in p.completed
    ensures CloseAll(p, chs) == p.(completed := p.completed + (set ch | ch in chs))
    decreases |chs|
  {
    if chs == [] {
      assert p.completed + (set ch | ch in chs) == p.completed;
    } else {
      var p1 := CloseCompleted(p, chs[0]);
      assert forall ch :: ch in chs[1..] ==> ch in chs && ch != chs[0];
      CloseAllDistinct(p1, chs[1..]);
      assert p1.completed + (set ch | ch in chs[1..]) == p.completed + (set ch | ch in chs);
    }
  }

  /** completeTerminating closes every channel the pod has registered, and no other. */
  lemma CompleteTerminatingShape(p: Shared, pod: Pod, now: Time)
    requires CompletionOk(p) && pod.uid in p.statuses
    ensures var st := p.statuses[pod.uid];
            CompleteTerminating(p, pod, now) == p.(
              statuses := p.statuses[pod.uid := st.(terminatedAt := now, notifyPostTerminating := [],
                                                    statusPostTerminating := [])],
              completed := p.completed + (set ch | ch in st.notifyPostTerminating),
              lastUndelivered := p.lastUndelivered[pod.uid := OwnWork(TerminatedPodWork, pod)])
  {
    var st := p.statuses[pod.uid];
    assert st.notifyPostTerminating == Registered(p, pod.uid);
    CloseAllDistinct(SetStatus(p, pod.uid,
                               st.(terminatedAt := now, notifyPostTerminating := [], statusPostTerminating := [])),
                     st.notifyPostTerminating);
  }

  lemma CompleteTerminatingRefines(s: State, w: nat, now: Time)
    requires Inv(s) && Enabled(s, Complete(w, now))
    requires s.workers[w].update.value.workType == TerminatingPodWork && s.workers[w].update.value.runningPod.None?
    ensures RefinesSlot(s, Complete(w, now))
  {
    LiveSlot(s, w);
    var s' := Step(s, Complete(w, now));
    CompleteTerminatingShape(s.p, s.workers[w].update.value.pod, now);
    hide CompletionOk, CompleteTerminating;
    OwnStepFrames(s, s', w);
    SlotAfter(s', s.workers[w].uid, w, WorkerStep(SlotOf(s, s.workers[w].uid), Complete(w, now), Go));
  }

  lemma CompleteRefines(s: State, w: nat, now: Time)
    requires Inv(s) && Enabled(s, Complete(w, now))
    ensures RefinesSlot(s, Complete(w, now))
  {
    var update := s.workers[w].update.value;
    if update.workType == TerminatingPodWork && update.runningPod.None? {
      CompleteTerminatingRefines(s, w, now);
    } else if update.workType == SyncPodWork {
      CompleteSyncRefines(s, w, now);
    } else {
      FinishRefines(s, w, now);
    }
  }

  lemma CompleteSyncRefines(s: State, w: nat, now: Time)
    requires Inv(s) && Enabled(s, Complete(w, now)) && s.workers[w].update.value.workType == SyncPodWork
    ensures RefinesSlot(s, Complete(w, now))
  {
    hide CompletionOk;
    LiveSlot(s, w);
    OwnStepFrames(s, Step(s, Complete(w, now)), w);
    SlotAfter(Step(s, Complete(w, now)), s.workers[w].uid, w,
              WorkerStep(SlotOf(s, s.workers[w].uid), Complete(w, now), Go));
  }

  lemma FinishRefines(s: State, w: nat, now: Time)
    requires Inv(s) && Enabled(s, Complete(w, now))
    requires var update := s.workers[w].update.value;
             update.workType == TerminatedPodWork || (update.workType == TerminatingPodWork && update.runningPod.Some?)
    ensures RefinesSlot(s, Complete(w, now))
  {
    hide CompletionOk;
    LiveSlot(s, w);
    OwnStepFrames(s, Step(s, Complete(w, now)), w);
    SlotAfter(Step(s, Complete(w, now)), s.workers[w].uid, w,
              WorkerStep(SlotOf(s, s.workers[w].uid), Complete(w, now), Go));
  }

  /** The theorem for all steps of workers. */
  lemma WorkerRefines(s: State, e: Event)
    requires Inv(s) && IsWorkerEvent(e) && Enabled(s, e)
    ensures RefinesSlot(s, e)
    ensures e.Start? ==> DecisionFits(SlotOf(s, s.workers[e.w].uid), Answer(s, e))
  {
    hide Inv, RefinesSlot, DecisionFits, Answer;
    match e
    case Receive(w) => ReceiveRefines(s, w);
    case Start(w) => StartRefines(s, w);
    case Abandon(w, now) => AbandonRefines(s, w, now);
    case Fetch(w, ok) => MoveRefines(s, e);
    case TakeContext(w) => StatusRefines(s, e);
    case Acknowledge(w) => StatusRefines(s, e);
    case Return(w, result) => MoveRefines(s, e);
    case Complete(w, now) => CompleteRefines(s, w, now);
    case Next(w) => NextRefines(s, w);
  }

  // ---------- UpdatePod ----------

  ghost predicate RefinesUpdate(s: State, s': State, u0: UID, slot': Slot) {
    SlotOf(s', u0) == slot' && OthersKept(s, s', u0) && Linked(s') && s'.p.faults == s.p.faults
  }

  lemma DispatchRefines(s: State, u0: UID, st: PodSyncStatus, work: PodWork, cancel: bool)
    requires Linked(s) && SlotsOk(s) && work.pod.uid == u0 && ReadyFor(u0, SlotOf(s, u0), st)
    ensures RefinesUpdate(s, Spawn(s, Dispatch(s.p, st, work, cancel), work.pod), u0,
                          DispatchSlot(SlotOf(s, u0), st, work, cancel))
  {
    if u0 in s.p.podUpdates {
      HandOverRefines(s, u0, st, work, cancel);
    } else {
      SpawnRefines(s, u0, st, work, cancel);
    }
  }

  lemma SpawnRefines(s: State, u0: UID, st: PodSyncStatus, work: PodWork, cancel: bool)
    requires Linked(s) && SlotsOk(s) && work.pod.uid == u0 && ReadyFor(u0, SlotOf(s, u0), st) && u0 !in s.p.podUpdates
    ensures RefinesUpdate(s, Spawn(s, Dispatch(s.p, st, work, cancel), work.pod), u0,
                          DispatchSlot(SlotOf(s, u0), st, work, cancel))
  {
    var p' := Dispatch(s.p, st, work, cancel);
    var s' := Spawn(s, p', work.pod);
    assert p'.chans == s.p.chans + [Chan(Some(work), false)];
    forall u | u != u0 ensures SlotOf(s', u) == SlotOf(s, u) {
      assert SlotOk(u, SlotOf(s, u));
    }
  }

  lemma HandOverRefines(s: State, u0: UID, st: PodSyncStatus, work: PodWork, cancel: bool)
    requires Linked(s) && SlotsOk(s) && work.pod.uid == u0 && ReadyFor(u0, SlotOf(s, u0), st) && u0 in s.p.podUpdates
    ensures RefinesUpdate(s, Spawn(s, Dispatch(s.p, st, work, cancel), work.pod), u0,
                          DispatchSlot(SlotOf(s, u0), st, work, cancel))
  {
    var c := s.p.podUpdates[u0];
    assert SlotOf(s, u0).loop == Some(Loop(s.p.chans[c], s.workers[c]));
    var p' := Dispatch(s.p, st, work, cancel);
    var s' := Spawn(s, p', work.pod);
    assert s' == s.(p := p');
    forall u | u != u0 ensures SlotOf(s', u) == SlotOf(s, u) {
      assert SlotOk(u, SlotOf(s, u));
    }
    SlotAfter(s', u0, c, DispatchSlot(SlotOf(s, u0), st, work, cancel));
  }

  lemma CloseIfSetShape(p: Shared, o: UpdatePodOptions)
    requires FreshChannel(p, o)
    ensures var p' := CloseIfSet(p, o.kill);
            p' == p.(completed := p'.completed) &&
            p'.completed == p.completed + (if o.kill.Some? &&
                                           o.kill.value.completedCh.Some? then {o.kill.value.completedCh.value} else {})
  {
  }

  lemma QueueRefines(s: State, u0: UID, st: PodSyncStatus, o: UpdatePodOptions, became: bool)
    requires Linked(s) && SlotsOk(s) && Callable(o) && PodOf(o).uid == u0 && FreshChannel(s.p, o)
    requires ReadyFor(u0, SlotOf(s, u0), st) && !(st.Terminated() && o.pod.None?)
    requires o.pod.None? ==> st.TerminationRequested()
    ensures RefinesUpdate(s, Spawn(s, Queue(s.p, st, o, became), PodOf(o)), u0, QueueSlot(SlotOf(s, u0), st, o, became))
  {
    var (st1, work, shortened) := Assign(st, o);
    AssignOk(u0, SlotOf(s, u0), st, o);
    CloseIfSetShape(s.p, o);
    var p1 := if ClosesAtOnce(st) then CloseIfSet(s.p, o.kill) else s.p;
    hide ReadyFor, Assign, DispatchSlot, Dispatch;
    forall u ensures SlotOf(s.(p := p1), u) == SlotOf(s, u) {}
    DispatchRefines(s.(p := p1), u0, st1, work, became || shortened);
  }

  lemma UpdateRefines(s: State, o: UpdatePodOptions, cached: Option<CachedStatus>, now: Time)
    requires Inv(s) && Callable(o) && now != 0 && FreshChannel(s.p, o)
    ensures RefinesUpdate(s, Spawn(s, UpdatePod(s.p, o, cached, now), PodOf(o)), PodOf(o).uid,
                          UpdateSlot(SlotOf(s, PodOf(o).uid), o, cached, now))
  {
    var u0 := PodOf(o).uid;
    var slot := SlotOf(s, u0);
    assert SlotOk(u0, slot);
    assert CurrentStatus(s.p, o, cached, now) == StatusAtUpdate(slot, o, cached, now);
    if Ignored(o) {
    } else if !Accepts(slot, o, cached, now) {
      RecordRefines(s, u0, UpdateSlot(slot, o, cached, now).status.value);
    } else {
      AcceptedRefines(s, o, cached, now);
    }
  }

  /** Recording a status leaves channels and goroutines alone. */
  lemma RecordRefines(s: State, u0: UID, st: PodSyncStatus)
    requires Linked(s)
    ensures RefinesUpdate(s, s.(p := SetStatus(s.p, u0, st)), u0, SlotOf(s, u0).(status := Some(st)))
  {
    forall u ensures u != u0 ==> SlotOf(s.(p := SetStatus(s.p, u0, st)), u) == SlotOf(s, u) {}
  }

  lemma AcceptedRefines(s: State, o: UpdatePodOptions, cached: Option<CachedStatus>, now: Time)
    requires Inv(s) && Callable(o) && now != 0 && FreshChannel(s.p, o)
    requires Accepts(SlotOf(s, PodOf(o).uid), o, cached, now)
    ensures RefinesUpdate(s, Spawn(s, UpdatePod(s.p, o, cached, now), PodOf(o)), PodOf(o).uid,
                          UpdateSlot(SlotOf(s, PodOf(o).uid), o, cached, now))
  {
    var u0 := PodOf(o).uid;
    var slot := SlotOf(s, u0);
    assert SlotOk(u0, slot);
    assert CurrentStatus(s.p, o, cached, now) == StatusAtUpdate(slot, o, cached, now);
    BegunReady(slot, o, cached, now);
    hide ReadyFor, CompletionOk, Assign, Dispatch, DispatchSlot, SlotOk, BeginTermination, BecomesTerminating,
         StatusAtUpdate, CurrentStatus;
    var st := Begun(slot, o, cached, now);
    if st.Terminated() && o.pod.None? {
      RecordRefines(s, u0, st);
    } else {
      QueueRefines(s, u0, st, o, Became(slot, o, cached, now));
    }
  }
}
