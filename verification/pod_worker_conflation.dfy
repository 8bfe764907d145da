/** A busy worker gets only the newest of the updates it missed: what that keeps of all the updates. */
module PodWorkerConflation {
  import opened Wrappers
  import opened Api
  import opened PodWorkerModel
  import opened PodWorkerSteps
  import opened PodWorkerSlot
  import opened PodWorkerRefine
  import opened PodWorkerInvariant
  import opened PodWorkerLifecycle

  /** One item for a block of updates: the last one, with the start time each absorbed one hands on. */
  function Conflate(ws: seq<PodWork>): PodWork
    requires ws != []
    decreases |ws|
  {
    var n := |ws| - 1;
    if n == 0 then ws[0] else Absorb(ws[n], Conflate(ws[..n]))
  }

  /** `items` conflate consecutive blocks of `accepted`, and together the blocks are all of it. */
  ghost predicate Conflation(accepted: seq<PodWork>, items: seq<PodWork>)
    decreases |items|
  {
    if items == [] then accepted == []
    else exists k: nat :: LastBlock(accepted, items[|items| - 1], k) && Conflation(accepted[..k], items[..|items| - 1])
  }

  predicate LastBlock(accepted: seq<PodWork>, item: PodWork, k: nat) {
    k < |accepted| && item == Conflate(accepted[k..])
  }

  lemma AppendItem(accepted: seq<PodWork>, items: seq<PodWork>, work: PodWork)
    requires Conflation(accepted, items)
    ensures Conflation(accepted + [work], items + [work])
  {
    var k := |accepted|;
    assert (accepted + [work])[k..] == [work] && (accepted + [work])[..k] == accepted;
    assert LastBlock(accepted + [work], work, k);
    assert (items + [work])[..|items|] == items;
  }

  lemma MergeItem(accepted: seq<PodWork>, items: seq<PodWork>, work: PodWork)
    requires Conflation(accepted, items) && items != []
    ensures Conflation(accepted + [work], items[..|items| - 1] + [Absorb(work, items[|items| - 1])])
  {
    var n := |items| - 1;
    var k: nat :| LastBlock(accepted, items[n], k) && Conflation(accepted[..k], items[..n]);
    ConflateMore(accepted, k, work);
    hide Conflate, Absorb;
    Last(items[..n], Absorb(work, items[n]));
  }

  lemma ConflateMore(accepted: seq<PodWork>, k: nat, work: PodWork)
    requires k < |accepted|
    ensures (accepted + [work])[..k] == accepted[..k]
    ensures LastBlock(accepted + [work], Absorb(work, Conflate(accepted[k..])), k)
  {
    var block := (accepted + [work])[k..];
    assert block[..|accepted| - k] == accepted[k..];
    hide Absorb;
  }

  lemma Last<T>(xs: seq<T>, x: T)
    ensures (xs + [x])[|xs + [x]| - 1] == x && (xs + [x])[..|xs + [x]| - 1] == xs
  {
  }

  // ---------- what conflation keeps ----------

  /** The work but for the time the request came in. */
  predicate SameWork(a: PodWork, b: PodWork) {
    a == b.(startTime := a.startTime)
  }

  lemma {:induction false} ConflateIsLast(ws: seq<PodWork>)
    requires ws != []
    ensures SameWork(Conflate(ws), ws[|ws| - 1])
    ensures (forall w :: w in ws ==> w.startTime != 0) ==>
              (exists w :: w in ws && w.startTime == Conflate(ws).startTime) &&
              forall w :: w in ws ==> Conflate(ws).startTime <= w.startTime
    decreases |ws|
  {
    var n := |ws| - 1;
    if n > 0 {
      ConflateIsLast(ws[..n]);
      assert forall w :: w in ws <==> w in ws[..n] || w == ws[n];
    } else {
      assert ws[0] in ws;
    }
  }

  ghost predicate Increasing(xs: seq<nat>) {
    forall i, j :: 0 <= i < j < |xs| ==> xs[i] < xs[j]
  }

  /** `at[i]` is where in `accepted` the i-th item comes from; it carries the earliest start since the one before. */
  ghost predicate Positions(accepted: seq<PodWork>, items: seq<PodWork>, at: seq<nat>) {
    |at| == |items| && Increasing(at) && (forall i :: 0 <= i < |at| ==> at[i] < |accepted|) &&
    (|at| > 0 ==> at[|at| - 1] == |accepted| - 1) &&
    forall i :: 0 <= i < |at| ==> Placed(accepted, items[i], at, i)
  }

  ghost predicate Placed(accepted: seq<PodWork>, item: PodWork, at: seq<nat>, i: nat)
    requires i < |at| && at[i] < |accepted|
  {
    SameWork(item, accepted[at[i]]) &&
    EarliestIn(accepted, if i == 0 then 0 else at[i - 1] + 1, at[i] + 1, item.startTime)
  }

  ghost predicate EarliestIn(accepted: seq<PodWork>, from: nat, to: nat, t: Time) {
    from < to <= |accepted| &&
    ((forall j :: from <= j < to ==> accepted[j].startTime != 0) ==>
       (exists j :: from <= j < to && accepted[j].startTime == t) &&
       forall j :: from <= j < to ==> t <= accepted[j].startTime)
  }

  /** The items are a subsequence of `accepted` up to start times, and the last item is the latest update. */
  ghost predicate NewestOf(accepted: seq<PodWork>, items: seq<PodWork>) {
    (exists at :: Positions(accepted, items, at)) && (items == [] <==> accepted == []) &&
    (items != [] ==> SameWork(items[|items| - 1], accepted[|accepted| - 1]))
  }

  lemma EarliestOfBlock(accepted: seq<PodWork>, k: nat)
    requires k < |accepted|
    ensures EarliestIn(accepted, k, |accepted|, Conflate(accepted[k..]).startTime)
  {
    var block := accepted[k..];
    ConflateIsLast(block);
    if forall j :: k <= j < |accepted| ==> accepted[j].startTime != 0 {
      var w :| w in block && w.startTime == Conflate(block).startTime;
      var i :| 0 <= i < |block| && block[i] == w;
      assert accepted[k + i] == w;
      forall j | k <= j < |accepted| ensures Conflate(block).startTime <= accepted[j].startTime {
        assert accepted[j] == block[j - k] && block[j - k] in block;
      }
    }
  }

  lemma EarliestKept(accepted: seq<PodWork>, k: nat, from: nat, to: nat, t: Time)
    requires k <= |accepted| && EarliestIn(accepted[..k], from, to, t)
    ensures EarliestIn(accepted, from, to, t)
  {
    assert forall j :: from <= j < to ==> accepted[..k][j] == accepted[j];
  }

  /** Conflation loses neither the order, nor the latest update, nor the earliest start times. */
  lemma {:induction false} ConflationKeeps(accepted: seq<PodWork>, items: seq<PodWork>)
    requires Conflation(accepted, items)
    ensures NewestOf(accepted, items)
    decreases |items|
  {
    if items == [] {
      assert Positions(accepted, items, []);
    } else {
      var n := |items| - 1;
      var k: nat :| LastBlock(accepted, items[n], k) && Conflation(accepted[..k], items[..n]);
      ConflationKeeps(accepted[..k], items[..n]);
      hide Conflate, Conflation, Positions;
      KeepsOneMore(accepted, items, k);
    }
  }

  lemma KeepsOneMore(accepted: seq<PodWork>, items: seq<PodWork>, k: nat)
    requires items != [] && LastBlock(accepted, items[|items| - 1], k)
    requires NewestOf(accepted[..k], items[..|items| - 1])
    ensures NewestOf(accepted, items)
  {
    var n := |items| - 1;
    var before :| Positions(accepted[..k], items[..n], before);
    assert n == 0 ==> k == 0 by { assert |items[..n]| == n && |accepted[..k]| == k; }
    var block := accepted[k..];
    ConflateIsLast(block);
    assert block[|block| - 1] == accepted[|accepted| - 1];
    EarliestOfBlock(accepted, k);
    hide Conflate, SameWork, EarliestIn, Positions;
    PositionsExtend(accepted, items, k, before);
  }

  lemma PositionsExtend(accepted: seq<PodWork>, items: seq<PodWork>, k: nat, before: seq<nat>)
    requires items != [] && k < |accepted| && Positions(accepted[..k], items[..|items| - 1], before)
    requires |items| == 1 ==> k == 0
    requires SameWork(items[|items| - 1], accepted[|accepted| - 1])
    requires EarliestIn(accepted, k, |accepted|, items[|items| - 1].startTime)
    ensures Positions(accepted, items, before + [|accepted| - 1])
  {
    var n, at := |items| - 1, before + [|accepted| - 1];
    assert |before| == n && at[n] == |accepted| - 1 && forall i :: 0 <= i < n ==> at[i] == before[i] < k;
    assert Placed(accepted, items[n], at, n);
    forall i | 0 <= i < |at| ensures Placed(accepted, items[i], at, i) {
      if i < n {
        assert items[..n][i] == items[i];
        PlacedStays(accepted, items[i], k, before, i);
      }
    }
    hide Placed, SameWork, EarliestIn;
  }

  lemma PlacedStays(accepted: seq<PodWork>, item: PodWork, k: nat, before: seq<nat>, i: nat)
    requires k < |accepted| && i < |before| && before[i] < k && Placed(accepted[..k], item, before, i)
    ensures Placed(accepted, item, before + [|accepted| - 1], i)
  {
    assert accepted[..k][before[i]] == accepted[before[i]];
    EarliestKept(accepted, k, if i == 0 then 0 else before[i - 1] + 1, before[i] + 1, item.startTime);
  }

  // ---------- the updates of one pod ----------

  /** The updates of the current incarnation that were accepted, and the items its worker has taken. */
  datatype History = History(accepted: seq<PodWork>, taken: seq<PodWork>)

  function Opt(work: Option<PodWork>): seq<PodWork> {
    if work.Some? then [work.value] else []
  }

  function Pending(slot: Slot): seq<PodWork> {
    (if slot.loop.Some? then Opt(slot.loop.value.chan.buffer) else []) + Opt(slot.undelivered)
  }

  /** The pod was not static when it got its worker, and nobody has asked it to stop. */
  predicate SyncPhase(slot: Slot) {
    slot.status.Some? && !slot.status.value.TerminationRequested() &&
    slot.loop.Some? && !slot.loop.value.worker.isStatic
  }

  ghost predicate HistoryOk(slot: Slot, h: History) {
    (slot.status.None? ==> h == History([], [])) &&
    (SyncPhase(slot) ==> Conflation(h.accepted, h.taken + Pending(slot)))
  }

  ghost function Recorded(s: State, e: Event, u: UID, h: History): History
    requires Enabled(s, e)
  {
    match e
    case Update(o, cached, now) =>
      if PodOf(o).uid == u && Accepts(SlotOf(s, u), o, cached, now)
      then h.(accepted := h.accepted + [WorkOf(o, SyncPodWork, None)]) else h
    case Receive(w) => if s.workers[w].uid == u then h.(taken := h.taken + Opt(s.p.chans[w].buffer)) else h
    case Housekeep(_, _) => if u in Step(s, e).p.statuses then h else History([], [])
    case _ => h
  }

  ghost function HistoryOf(s: State, es: seq<Event>, u: UID, h: History): History
    requires Run(s, es)
    decreases |es|
  {
    if es == [] then h else HistoryOf(Step(s, es[0]), es[1..], u, Recorded(s, es[0], u, h))
  }

  lemma WorkerPending(u: UID, slot: Slot, e: Event, d: Decision)
    requires SlotOk(u, slot) && CanStep(slot, e) && SyncPhase(WorkerStep(slot, e, d))
    ensures SyncPhase(slot)
    ensures Pending(slot) == (if e.Receive? then Opt(slot.loop.value.chan.buffer) else []) +
            Pending(WorkerStep(slot, e, d))
  {
  }

  lemma UpdatePending(slot: Slot, o: UpdatePodOptions, cached: Option<CachedStatus>, now: Time)
    requires Callable(o) && now != 0 && SlotOk(PodOf(o).uid, slot) && Accepts(slot, o, cached, now)
    requires SyncPhase(UpdateSlot(slot, o, cached, now))
    ensures slot.status.None? || SyncPhase(slot)
    ensures var work, p := WorkOf(o, SyncPodWork, None), Pending(slot);
            Pending(UpdateSlot(slot, o, cached, now)) ==
              if slot.undelivered.Some? then p[..|p| - 1] + [Absorb(work, p[|p| - 1])] else p + [work]
  {
    BegunReady(slot, o, cached, now);
    AssignFacts(Begun(slot, o, cached, now), o);
    AssignSync(Begun(slot, o, cached, now), o);
    hide Assign, Became;
  }

  lemma AssignSync(st: PodSyncStatus, o: UpdatePodOptions)
    requires Callable(o) && !st.TerminationRequested() && !st.Terminated()
    ensures Assign(st, o) == (st, WorkOf(o, SyncPodWork, None), false)
  {
  }

  lemma UpdateSkipped(slot: Slot, o: UpdatePodOptions, cached: Option<CachedStatus>, now: Time)
    requires Callable(o) && SlotOk(PodOf(o).uid, slot) && !Accepts(slot, o, cached, now)
    ensures var slot' := UpdateSlot(slot, o, cached, now);
            SyncPhase(slot') ==> SyncPhase(slot) && Pending(slot') == Pending(slot)
    ensures slot.status.Some? ==> UpdateSlot(slot, o, cached, now).status.Some?
  {
  }

  lemma ReplaceLast<T>(xs: seq<T>, ys: seq<T>, y: T)
    requires ys != []
    ensures (xs + ys)[|xs + ys| - 1] == ys[|ys| - 1]
    ensures (xs + ys)[..|xs + ys| - 1] + [y] == xs + (ys[..|ys| - 1] + [y])
  {
  }

  lemma Regroup<T>(xs: seq<T>, ys: seq<T>, zs: seq<T>)
    ensures xs + (ys + zs) == (xs + ys) + zs
    ensures xs + [] == xs
  {
  }

  lemma AppendLast<T>(xs: seq<T>, ys: seq<T>, y: T)
    ensures (xs + ys) + [y] == xs + (ys + [y])
  {
  }

  /** A new item replaces the last one or comes behind it. */
  lemma ItemArrives(
      accepted: seq<PodWork>, taken: seq<PodWork>, p: seq<PodWork>, p': seq<PodWork>, work: PodWork, merged: bool)
    requires Conflation(accepted, taken + p) && (merged ==> p != [])
    requires p' == if merged then p[..|p| - 1] + [Absorb(work, p[|p| - 1])] else p + [work]
    ensures Conflation(accepted + [work], taken + p')
  {
    hide Conflation, Absorb;
    if merged {
      MergeItem(accepted, taken + p, work);
      ReplaceLast(taken, p, Absorb(work, p[|p| - 1]));
    } else {
      AppendItem(accepted, taken + p, work);
      AppendLast(taken, p, work);
    }
  }

  lemma ConflatedSoFar(u: UID, slot: Slot, h: History)
    requires SlotOk(u, slot) && HistoryOk(slot, h) && (slot.status.None? || SyncPhase(slot))
    ensures Conflation(h.accepted, h.taken + Pending(slot))
    ensures slot.undelivered.Some? ==> Pending(slot) != []
  {
    if slot.status.None? { assert h.taken + Pending(slot) == []; }
  }

  lemma UpdateHistory(slot: Slot, o: UpdatePodOptions, cached: Option<CachedStatus>, now: Time, h: History)
    requires Callable(o) && now != 0 && SlotOk(PodOf(o).uid, slot) && Accepts(slot, o, cached, now) &&
             HistoryOk(slot, h)
    requires SyncPhase(UpdateSlot(slot, o, cached, now))
    ensures Conflation(h.accepted + [WorkOf(o, SyncPodWork, None)], h.taken + Pending(UpdateSlot(slot, o, cached, now)))
  {
    UpdatePending(slot, o, cached, now);
    ConflatedSoFar(PodOf(o).uid, slot, h);
    hide UpdateSlot, Accepts, SlotOk, WorkOf, Pending, Conflation, HistoryOk, SyncPhase, Absorb;
    ItemArrives(h.accepted, h.taken, Pending(slot), Pending(UpdateSlot(slot, o, cached, now)),
                WorkOf(o, SyncPodWork, None), slot.undelivered.Some?);
  }

  lemma WorkerHistory(u: UID, slot: Slot, e: Event, d: Decision, h: History)
    requires SlotOk(u, slot) && CanStep(slot, e) && HistoryOk(slot, h)
    ensures HistoryOk(WorkerStep(slot, e, d),
                      if e.Receive? then h.(taken := h.taken + Opt(slot.loop.value.chan.buffer)) else h)
  {
    var slot' := WorkerStep(slot, e, d);
    assert slot'.status.Some?;
    if SyncPhase(slot') {
      WorkerPending(u, slot, e, d);
      var got := if e.Receive? then Opt(slot.loop.value.chan.buffer) else [];
      hide WorkerStep, SlotOk, Conflation, Pending;
      Regroup(h.taken, got, Pending(slot'));
    }
    hide WorkerStep, SlotOk, Conflation;
  }

  lemma StepHistory(s: State, e: Event, u: UID, h: History)
    requires Inv(s) && Admissible(s, e) && HistoryOk(SlotOf(s, u), h)
    ensures HistoryOk(SlotOf(Step(s, e), u), Recorded(s, e, u, h))
  {
    assert SlotOk(u, SlotOf(s, u));
    if e.Housekeep? {
      HousekeepExact(s, e.desired, e.order);
    } else if e.Update? {
      UpdateRefines(s, e.o, e.cached, e.now);
      if u == PodOf(e.o).uid {
        UpdateStepHistory(SlotOf(s, u), e.o, e.cached, e.now, h);
      }
      hide UpdateSlot, Step, Inv, HistoryOk, Accepts;
    } else {
      WorkerRefines(s, e);
      LiveSlot(s, WorkerOf(e));
      if u == s.workers[WorkerOf(e)].uid { WorkerHistory(u, SlotOf(s, u), e, Answer(s, e), h); }
      hide WorkerStep, Step, Inv, HistoryOk;
    }
  }

  lemma UpdateStepHistory(slot: Slot, o: UpdatePodOptions, cached: Option<CachedStatus>, now: Time, h: History)
    requires Callable(o) && now != 0 && SlotOk(PodOf(o).uid, slot) && HistoryOk(slot, h)
    ensures HistoryOk(UpdateSlot(slot, o, cached, now),
                      if Accepts(slot, o, cached, now) then h.(accepted := h.accepted + [WorkOf(o, SyncPodWork, None)])
                        else h)
  {
    var slot' := UpdateSlot(slot, o, cached, now);
    if Accepts(slot, o, cached, now) {
      if SyncPhase(slot') { UpdateHistory(slot, o, cached, now, h); }
      AcceptedKnown(slot, o, cached, now);
    } else {
      UpdateSkipped(slot, o, cached, now);
    }
    hide UpdateSlot, Conflation, Accepts;
  }

  lemma AcceptedKnown(slot: Slot, o: UpdatePodOptions, cached: Option<CachedStatus>, now: Time)
    requires Callable(o) && Accepts(slot, o, cached, now)
    ensures UpdateSlot(slot, o, cached, now).status.Some?
  {
    hide Assign, Begun;
  }

  lemma {:induction false} RunHistory(s: State, es: seq<Event>, u: UID, h: History)
    requires Inv(s) && Run(s, es) && HistoryOk(SlotOf(s, u), h)
    ensures Inv(Exec(s, es)) && HistoryOk(SlotOf(Exec(s, es), u), HistoryOf(s, es, u, h))
    decreases |es|
  {
    if es != [] {
      StepHistory(s, es[0], u, h);
      StepPreserves(s, es[0]);
      RunHistory(Step(s, es[0]), es[1..], u, Recorded(s, es[0], u, h));
    }
  }

  /** In every run, the items the worker of a non-static pod has taken or is still to get are a subsequence of
      the accepted updates in the order of arrival, each with the earliest start time of those it stands for;
      the last of them is the latest update, and an idle worker has taken it. */
  lemma NewestSurvives(es: seq<Event>, u: UID)
    requires Run(INITIAL, es) && SyncPhase(SlotOf(Exec(INITIAL, es), u))
    ensures var h, slot := HistoryOf(INITIAL, es, u, History([], [])), SlotOf(Exec(INITIAL, es), u);
            NewestOf(h.accepted, h.taken + Pending(slot)) &&
            (!slot.status.value.working ==> NewestOf(h.accepted, h.taken))
  {
    InitialInv();
    RunHistory(INITIAL, es, u, History([], []));
    IdleHasTaken(u, SlotOf(Exec(INITIAL, es), u), HistoryOf(INITIAL, es, u, History([], [])));
    hide NewestOf, Conflation, Inv;
  }

  lemma IdleHasTaken(u: UID, slot: Slot, h: History)
    requires SlotOk(u, slot) && HistoryOk(slot, h) && SyncPhase(slot)
    ensures NewestOf(h.accepted, h.taken + Pending(slot))
    ensures !slot.status.value.working ==> NewestOf(h.accepted, h.taken)
  {
    ConflationKeeps(h.accepted, h.taken + Pending(slot));
    assert h.taken + [] == h.taken;
    hide NewestOf, Conflation;
  }
}
