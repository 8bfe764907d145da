/** The pod workers as a transition system. Every region under `podLock` is one step; the goroutines
    move between those regions through explicit program counters. */
module PodWorkerSteps {
  import opened Wrappers
  import opened Api
  import opened PodWorkerModel

  /** Where a goroutine stands in managePodLoop. */
  datatype PC =
    | Receiving      // at the head of the loop, waiting for the channel
    | Starting       // holds an update, about to ask allowPodStart if it has not started
    | Abandoning     // about to run completeUnstartedTerminated
    | Fetching       // waiting for the pod cache
    | Contexting     // about to run contextForWorker
    | Acknowledging  // about to run acknowledgeTerminating
    | Syncing        // inside syncPodFn, syncTerminatingPodFn or syncTerminatedPodFn
    | Completing     // the call succeeded, about to run one of the complete functions
    | Queueing       // about to run completeWorkQueueNext
    | Exited

  /** `uid` and `isStatic` record the update that spawned the goroutine; the code does not read them. */
  datatype Worker = Worker(uid: UID, isStatic: bool, pc: PC, update: Option<PodWork>, podStarted: bool)

  datatype State = State(p: Shared, workers: seq<Worker>)

  const INITIAL := State(NO_WORKERS, [])

  datatype SyncResult = SyncOk(isTerminal: bool) | SyncError | SyncCancelled

  datatype Event =
    | Update(o: UpdatePodOptions, cached: Option<CachedStatus>, now: Time)
    | Housekeep(desired: set<UID>, order: seq<UID>)
    | Receive(w: nat)
    | Start(w: nat)
    | Abandon(w: nat, now: Time)
    | Fetch(w: nat, ok: bool)
    | TakeContext(w: nat)
    | Acknowledge(w: nat)
    | Return(w: nat, result: SyncResult)
    | Complete(w: nat, now: Time)
    | Next(w: nat)

  predicate At(s: State, w: nat, pc: PC) {
    w < |s.workers| && w < |s.p.chans| && s.workers[w].pc == pc &&
    (pc != Receiving && pc != Exited ==> s.workers[w].update.Some?)
  }

  ghost predicate Enumerates(order: seq<UID>, uids: set<UID>) {
    (forall u :: u in order <==> u in uids) &&
    (forall i, j :: 0 <= i < j < |order| ==> order[i] != order[j])
  }

  ghost predicate Enabled(s: State, e: Event) {
    match e
    case Update(o, _, now) => Callable(o) && now != 0
    case Housekeep(_, order) => Enumerates(order, s.p.statuses.Keys)
    case Receive(w) => At(s, w, Receiving) && (s.p.chans[w].buffer.Some? || s.p.chans[w].closed)
    case Start(w) => At(s, w, Starting)
    case Abandon(w, now) => At(s, w, Abandoning) && now != 0
    case Fetch(w, ok) => At(s, w, Fetching) && (ok || s.workers[w].update.value.runningPod.None?)
    case TakeContext(w) => At(s, w, Contexting)
    case Acknowledge(w) => At(s, w, Acknowledging)
    case Return(w, _) => At(s, w, Syncing)
    case Complete(w, now) => At(s, w, Completing) && now != 0
    case Next(w) => At(s, w, Queueing)
  }

  /** A completion channel is handed over while nobody has closed it and nobody is going to. */
  ghost predicate FreshChannel(p: Shared, o: UpdatePodOptions) {
    o.kill.Some? && o.kill.value.completedCh.Some? ==>
      o.kill.value.completedCh.value !in p.completed &&
      forall u | u in p.statuses :: o.kill.value.completedCh.value !in p.statuses[u].notifyPostTerminating
  }

  ghost predicate Admissible(s: State, e: Event) {
    Enabled(s, e) && (e.Update? ==> FreshChannel(s.p, e.o))
  }

  function Move(s: State, w: nat, pc: PC): State
    requires w < |s.workers|
  {
    s.(workers := s.workers[w := s.workers[w].(pc := pc)])
  }

  /** `go managePodLoop(outCh)` for a channel that was just made. */
  function Spawn(s: State, p: Shared, pod: Pod): State {
    if |p.chans| > |s.p.chans| then State(p, s.workers + [Worker(pod.uid, IsStaticPod(pod), Receiving, None, false)])
    else s.(p := p)
  }

  function ReceiveStep(s: State, w: nat): State
    requires At(s, w, Receiving)
  {
    var chan := s.p.chans[w];
    if chan.buffer.None? then Move(s, w, Exited)
    else State(s.p.(chans := s.p.chans[w := chan.(buffer := None)]),
               s.workers[w := s.workers[w].(pc := Starting, update := chan.buffer)])
  }

  function StartStep(s: State, w: nat): State
    requires At(s, w, Starting)
  {
    if s.workers[w].podStarted then Move(s, w, Fetching)
    else
      var (p, canStart, canEverStart) := AllowPodStart(s.p, s.workers[w].update.value.pod);
      if !canEverStart then Move(s.(p := p), w, Abandoning)
      else if !canStart then Move(s.(p := p), w, Receiving)
      else State(p, s.workers[w := s.workers[w].(pc := Fetching, podStarted := true)])
  }

  function AfterCall(update: PodWork, result: SyncResult): PC {
    if !result.SyncOk? then Queueing
    else if update.workType != SyncPodWork || result.isTerminal then Completing
    else Queueing
  }

  function CompleteStep(s: State, w: nat, now: Time): State
    requires At(s, w, Completing)
  {
    var update := s.workers[w].update.value;
    match update.workType
    case TerminatedPodWork => Move(s.(p := CompleteTerminated(s.p, update.pod)), w, Exited)
    case TerminatingPodWork =>
      if update.runningPod.Some? then Move(s.(p := CompleteTerminatingRuntimePod(s.p, update.pod, now)), w, Exited)
      else Move(s.(p := CompleteTerminating(s.p, update.pod, now)), w, Queueing)
    case SyncPodWork => Move(s.(p := CompleteSync(s.p, update.pod, now)), w, Queueing)
  }

  function Step(s: State, e: Event): State
    requires Enabled(s, e)
  {
    match e
    case Update(o, cached, now) => Spawn(s, UpdatePod(s.p, o, cached, now), PodOf(o))
    case Housekeep(desired, order) => s.(p := SyncKnownPods(s.p, desired, order))
    case Receive(w) => ReceiveStep(s, w)
    case Start(w) => StartStep(s, w)
    case Abandon(w, now) =>
      Move(s.(p := CompleteUnstartedTerminated(s.p, s.workers[w].update.value.pod, now)), w, Exited)
    case Fetch(w, ok) => Move(s, w, if ok then Contexting else Queueing)
    case TakeContext(w) =>
      Move(s.(p := ContextForWorker(s.p, s.workers[w].update.value.pod.uid)), w,
           if s.workers[w].update.value.workType == TerminatingPodWork then Acknowledging else Syncing)
    case Acknowledge(w) =>
      Move(s.(p := AcknowledgeTerminating(s.p, s.workers[w].update.value.pod.uid).0), w, Syncing)
    case Return(w, result) => Move(s, w, AfterCall(s.workers[w].update.value, result))
    case Complete(w, now) => CompleteStep(s, w, now)
    case Next(w) => Move(s.(p := CompleteWorkQueueNext(s.p, s.workers[w].update.value.pod.uid)), w, Receiving)
  }

  /** `es` is a run of admissible events from `s`. */
  ghost predicate Run(s: State, es: seq<Event>)
    decreases |es|
  {
    es == [] || (Admissible(s, es[0]) && Run(Step(s, es[0]), es[1..]))
  }

  ghost function Exec(s: State, es: seq<Event>): State
    requires Run(s, es)
    decreases |es|
  {
    if es == [] then s else Exec(Step(s, es[0]), es[1..])
  }

  /** The function the worker is inside of, if any. */
  predicate Calling(s: State, uid: UID, workType: PodWorkType) {
    exists w: nat :: w < |s.workers| && s.workers[w].pc == Syncing && s.workers[w].update.Some? &&
                     s.workers[w].update.value.workType == workType && s.workers[w].update.value.pod.uid == uid
  }
}
