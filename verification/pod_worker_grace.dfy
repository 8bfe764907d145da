/** The grace period of a terminating pod: what it is after any run, and when it can grow. */
module PodWorkerGrace {
  import opened Wrappers
  import opened Api
  import opened PodWorkerModel
  import opened PodWorkerSteps
  import opened PodWorkerSlot
  import opened PodWorkerRefine
  import opened PodWorkerInvariant

  /** What one update asks for. */
  datatype Request = Request(pod: Pod, kill: Option<KillPodOptions>)
  {
    function Deletion(): Option<int> { pod.deletionGracePeriodSeconds }
    function Override(): Option<int> { if kill.Some? then kill.value.gracePeriodOverride else None }
    function Default(): Option<int> { pod.spec.terminationGracePeriodSeconds }

    /** The code reads a grace period of 0 as one that is not set. */
    predicate AsksForZero() { Deletion() == Some(0) || Override() == Some(0) }

    function Overrides(): seq<int> {
      (if Deletion().Some? then [Deletion().value] else []) + (if Override().Some? then [Override().value] else [])
    }

    /** What the request that starts the termination may be given. */
    function Candidates(): seq<int> {
      if Overrides() != [] then Overrides() else if Default().Some? then [Default().value] else []
    }
  }

  function Next(current: int, r: Request): int {
    EffectiveGracePeriod(current, r.pod, r.kill).0
  }

  /** A zero makes the code forget the grace period in force and take another value, which is longer. */
  predicate ZeroReplacedByLonger(current: int, r: Request) {
    if r.Deletion() == Some(0) && r.Override().Some? && r.Override().value != 0 then r.Override().value > current
    else
      (r.Deletion() == Some(0) || (r.Override() == Some(0) && !(r.Deletion().Some? && r.Deletion().value < 0))) &&
      r.Default().Some? && r.Default().value > current
  }

  /** The grace period in force never grows, except when a zero is replaced by a longer value. */
  lemma GrowsIff(current: int, r: Request)
    requires current >= 1
    ensures Next(current, r) >= 1
    ensures Next(current, r) > current <==> ZeroReplacedByLonger(current, r)
    ensures ZeroReplacedByLonger(current, r) ==> r.AsksForZero()
  {
  }

  /** The flag that interrupts the running call means a strict decrease, if and only if no zero grows it. */
  lemma ShortenedIff(current: int, r: Request)
    requires current >= 0
    ensures var (grace, shortened) := EffectiveGracePeriod(current, r.pod, r.kill);
            (shortened <==> current != 0 && grace < current) <==> !(current >= 1 && ZeroReplacedByLonger(current, r))
  {
    if current >= 1 { GrowsIff(current, r); }
  }

  const THIRTY := Pod("a", "web", "default", map[], None, Some(1), Some(0), EMPTY_SPEC, EMPTY_STATUS)

  /** Thirty seconds in force, an update that asks for zero by deletion and sixty by kill: sixty. */
  lemma GraceCanGrow()
    ensures EffectiveGracePeriod(30, THIRTY, Some(NO_KILL.(gracePeriodOverride := Some(60)))) == (60, true)
  {
  }

  // ---------- the value after a series of requests ----------

  function After(reqs: seq<Request>): int
    decreases |reqs|
  {
    if reqs == [] then 0 else Next(After(reqs[..|reqs| - 1]), reqs[|reqs| - 1])
  }

  function Wanted(reqs: seq<Request>): seq<int>
    decreases |reqs|
  {
    if reqs == [] then []
    else if |reqs| == 1 then reqs[0].Candidates()
    else Wanted(reqs[..|reqs| - 1]) + reqs[|reqs| - 1].Overrides()
  }

  /** `g` is the greater of 1 and the least of `xs`. */
  ghost predicate IsAtLeastOneMinimum(g: int, xs: seq<int>) {
    g >= 1 && (g == 1 || g in xs) && forall x :: x in xs ==> g <= x || g == 1
  }

  lemma NextIsMinimum(current: int, r: Request)
    requires !r.AsksForZero() && current >= 0
    ensures current == 0 ==> IsAtLeastOneMinimum(Next(current, r), r.Candidates())
    ensures current > 0 ==> IsAtLeastOneMinimum(Next(current, r), [current] + r.Overrides())
  {
    var deletion := Lower(current, r.Deletion());
    var killed := Lower(deletion, r.Override());
    assert Next(current, r) == (
      var wanted := if killed == 0 && r.Default().Some? then r.Default().value else killed;
      if wanted < 1 then 1 else wanted);
  }

  lemma MinimumOfMinimum(g: int, xs: seq<int>, g': int, ys: seq<int>)
    requires IsAtLeastOneMinimum(g, xs) && IsAtLeastOneMinimum(g', [g] + ys)
    ensures IsAtLeastOneMinimum(g', xs + ys)
  {
    var all := [g] + ys;
    assert all[0] == g && g in all;
    assert g' <= g || g' == 1;
    forall x | x in xs + ys ensures g' <= x || g' == 1 {
      if x in ys { assert x in [g] + ys; } else { assert g <= x || g == 1; }
    }
  }

  /** Without zeros the grace period is the least of what the first update offers and all later overrides. */
  lemma {:induction false} GraceIsMinimum(reqs: seq<Request>)
    requires reqs != [] && forall r :: r in reqs ==> !r.AsksForZero()
    ensures IsAtLeastOneMinimum(After(reqs), Wanted(reqs))
    decreases |reqs|
  {
    var n := |reqs| - 1;
    if n == 0 {
      NextIsMinimum(0, reqs[0]);
      assert reqs[..0] == [];
    } else {
      GraceIsMinimum(reqs[..n]);
      NextIsMinimum(After(reqs[..n]), reqs[n]);
      MinimumOfMinimum(After(reqs[..n]), Wanted(reqs[..n]), After(reqs), reqs[n].Overrides());
    }
  }

  // ---------- the grace period in runs of the workers ----------

  function GraceOf(slot: Slot): int {
    if slot.status.Some? then slot.status.value.gracePeriod else 0
  }

  /** The update reaches a pod that is terminating, or makes it so. */
  predicate Registers(slot: Slot, o: UpdatePodOptions, cached: Option<CachedStatus>, now: Time)
    requires Callable(o)
  {
    Accepts(slot, o, cached, now) &&
    Begun(slot, o, cached, now).TerminationRequested() && !Begun(slot, o, cached, now).Terminated()
  }

  function RequestOf(o: UpdatePodOptions): Request
    requires Callable(o)
  {
    Request(PodOf(o), o.kill)
  }

  lemma AssignGrace(st: PodSyncStatus, o: UpdatePodOptions)
    requires Callable(o)
    ensures Assign(st, o).0.gracePeriod ==
              if st.TerminationRequested() && !st.Terminated() then Next(st.gracePeriod, RequestOf(o))
                else st.gracePeriod
    ensures st.TerminationRequested() && !st.Terminated() ==>
              Assign(st, o).1.kill.Some? && Assign(st, o).1.kill.value.gracePeriodOverride ==
                Some(Assign(st, o).0.gracePeriod) &&
              Assign(st, o).2 == EffectiveGracePeriod(st.gracePeriod, PodOf(o), o.kill).1
  {
  }

  lemma BegunGrace(slot: Slot, o: UpdatePodOptions, cached: Option<CachedStatus>, now: Time)
    requires Callable(o)
    ensures Begun(slot, o, cached, now).gracePeriod == GraceOf(slot)
    ensures StatusAtUpdate(slot, o, cached, now).gracePeriod == GraceOf(slot)
  {
  }

  lemma UpdateGrace(slot: Slot, o: UpdatePodOptions, cached: Option<CachedStatus>, now: Time)
    requires Callable(o)
    ensures GraceOf(UpdateSlot(slot, o, cached, now)) ==
              if Registers(slot, o, cached, now) then Next(GraceOf(slot), RequestOf(o)) else GraceOf(slot)
  {
    var st := Begun(slot, o, cached, now);
    BegunGrace(slot, o, cached, now);
    AssignGrace(st, o);
    hide Assign, StatusAtUpdate, Begun, Became, EffectiveGracePeriod;
  }

  lemma WorkerGrace(slot: Slot, e: Event, d: Decision)
    requires CanStep(slot, e)
    ensures GraceOf(WorkerStep(slot, e, d)) == GraceOf(slot)
  {
  }

  /** The requests registered for the current incarnation of `u`. */
  ghost function Registered(s: State, e: Event, u: UID, reqs: seq<Request>): seq<Request>
    requires Enabled(s, e)
  {
    if e.Update? && PodOf(e.o).uid == u && Registers(SlotOf(s, u), e.o, e.cached, e.now) then reqs + [RequestOf(e.o)]
    else if e.Housekeep? && u !in Step(s, e).p.statuses then []
    else reqs
  }

  ghost function RequestsOf(s: State, es: seq<Event>, u: UID, reqs: seq<Request>): seq<Request>
    requires Run(s, es)
    decreases |es|
  {
    if es == [] then reqs else RequestsOf(Step(s, es[0]), es[1..], u, Registered(s, es[0], u, reqs))
  }

  lemma AfterOneMore(reqs: seq<Request>, r: Request)
    ensures After(reqs + [r]) == Next(After(reqs), r)
  {
    assert (reqs + [r])[..|reqs|] == reqs;
  }

  lemma UpdateStepGrace(s: State, o: UpdatePodOptions, cached: Option<CachedStatus>, now: Time, u: UID)
    requires Inv(s) && Admissible(s, Update(o, cached, now))
    ensures GraceOf(SlotOf(Step(s, Update(o, cached, now)), u)) ==
              if PodOf(o).uid == u && Registers(SlotOf(s, u), o, cached, now)
              then Next(GraceOf(SlotOf(s, u)), RequestOf(o)) else GraceOf(SlotOf(s, u))
  {
    UpdateRefines(s, o, cached, now);
    hide UpdateSlot, Step, Registers, Next, GraceOf, Inv, SlotOf;
    UpdateGrace(SlotOf(s, PodOf(o).uid), o, cached, now);
  }

  lemma WorkerStepGrace(s: State, e: Event, u: UID)
    requires Inv(s) && IsWorkerEvent(e) && Enabled(s, e)
    ensures GraceOf(SlotOf(Step(s, e), u)) == GraceOf(SlotOf(s, u))
  {
    WorkerRefines(s, e);
    hide WorkerStep, Step, Inv, CanStep, GraceOf, SlotOf, Answer;
    WorkerGrace(SlotOf(s, s.workers[WorkerOf(e)].uid), e, Answer(s, e));
  }

  lemma StepGrace(s: State, e: Event, u: UID, reqs: seq<Request>)
    requires Inv(s) && Admissible(s, e) && GraceOf(SlotOf(s, u)) == After(reqs)
    ensures GraceOf(SlotOf(Step(s, e), u)) == After(Registered(s, e, u, reqs))
  {
    if e.Housekeep? {
      HousekeepExact(s, e.desired, e.order);
    } else if e.Update? {
      UpdateStepGrace(s, e.o, e.cached, e.now, u);
      AfterOneMore(reqs, RequestOf(e.o));
      hide Step, Inv, Registers, After, Next, GraceOf, SlotOf;
    } else {
      WorkerStepGrace(s, e, u);
      hide Step, Inv, After, GraceOf, SlotOf;
    }
  }

  lemma {:induction false} RunGrace(s: State, es: seq<Event>, u: UID, reqs: seq<Request>)
    requires Inv(s) && Run(s, es) && GraceOf(SlotOf(s, u)) == After(reqs)
    ensures GraceOf(SlotOf(Exec(s, es), u)) == After(RequestsOf(s, es, u, reqs))
    decreases |es|
  {
    if es != [] {
      StepGrace(s, es[0], u, reqs);
      StepPreserves(s, es[0]);
      RunGrace(Step(s, es[0]), es[1..], u, Registered(s, es[0], u, reqs));
    }
  }

  /** In every run, the grace period of a pod is at least 1 from the first update that finds it terminating,
      and without zeros it is the least of what that update offers and all overrides registered since. */
  lemma GracePeriodOverRuns(es: seq<Event>, u: UID)
    requires Run(INITIAL, es)
    ensures var reqs, g := RequestsOf(INITIAL, es, u, []), GraceOf(SlotOf(Exec(INITIAL, es), u));
            (reqs == [] ==> g == 0) && (reqs != [] ==> g >= 1) &&
            (reqs != [] && (forall r :: r in reqs ==> !r.AsksForZero()) ==> IsAtLeastOneMinimum(g, Wanted(reqs)))
  {
    InitialInv();
    RunGrace(INITIAL, es, u, []);
    var reqs := RequestsOf(INITIAL, es, u, []);
    if reqs != [] && forall r :: r in reqs ==> !r.AsksForZero() { GraceIsMinimum(reqs); }
  }

  /** A busy worker's call is cancelled by an update exactly when the update makes the pod terminate or
      shortens its grace period, and what the worker is handed carries the period in force. */
  lemma InterruptsIff(slot: Slot, o: UpdatePodOptions, cached: Option<CachedStatus>, now: Time)
    requires Callable(o) && now != 0 && SlotOk(PodOf(o).uid, slot) && Registers(slot, o, cached, now)
    requires slot.status.Some? && slot.status.value.ctx == Live
    ensures var slot' := UpdateSlot(slot, o, cached, now);
            slot'.status.Some? &&
            (slot'.status.value.ctx == Cancelled <==>
               slot.status.value.working &&
               (!slot.status.value.TerminationRequested() ||
                EffectiveGracePeriod(GraceOf(slot), PodOf(o), o.kill).1)) &&
            var item := if slot.status.value.working then slot'.undelivered else slot'.loop.value.chan.buffer;
            item.Some? && item.value.workType == TerminatingPodWork && item.value.kill.Some? &&
            item.value.kill.value.gracePeriodOverride == Some(GraceOf(slot'))
  {
    var st := Begun(slot, o, cached, now);
    BegunGrace(slot, o, cached, now);
    AssignGrace(st, o);
    AssignCtx(st, o);
    hide Assign, EffectiveGracePeriod;
  }

  lemma AssignCtx(st: PodSyncStatus, o: UpdatePodOptions)
    requires Callable(o)
    ensures Assign(st, o).0.ctx == st.ctx && Assign(st, o).0.working == st.working
    ensures st.TerminationRequested() && !st.Terminated() ==> Assign(st, o).1.workType == TerminatingPodWork
  {
  }
}
