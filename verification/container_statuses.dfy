/** From what the runtime reports and what was known before to the container statuses of the API. */
module ContainerStatuses {
  import opened Wrappers
  import opened Api

  datatype Reported = Reported(
    name: string, state: RuntimeState, exitCode: int, reason: string, message: string,
    createdAt: Time, startedAt: Time, finishedAt: Time, restartCount: int, image: string, imageID: string, id: string)

  /** Why the last start of a container failed. */
  datatype Reason = Reason(err: string, message: string)

  type Statuses = map<string, ContainerStatus>

  const POD_INITIALIZING := "PodInitializing"
  const CONTAINER_CREATING := "ContainerCreating"
  const CONTAINER_STATUS_UNKNOWN := "ContainerStatusUnknown"
  const LOST_WHEN_TERMINATED := "The container could not be located when the pod was terminated"
  const LOST_WHEN_DELETED :=
    "The container could not be located when the pod was deleted.  The container used to be Running"

  function Lookup(statuses: Statuses, name: string): Option<ContainerStatus> {
    if name in statuses then Some(statuses[name]) else None
  }

  function JustWaiting(reason: string, message: string): ContainerState {
    ContainerState(Some(Waiting(reason, message)), None, None)
  }

  function JustTerminated(t: Terminated): ContainerState {
    ContainerState(None, None, Some(t))
  }

  // ---------- one container ----------

  /** A container that the runtime reports. A lost one that was running counts as terminated, with an error. */
  function Convert(cs: Reported, before: Option<ContainerStatus>): ContainerStatus {
    var lost := cs.state == ContainerUnknown && before.Some? && before.value.state.running.Some?;
    var state :=
      if cs.state == ContainerRunning then ContainerState(None, Some(Running(cs.startedAt)), None)
      else if cs.state == ContainerExited then
        JustTerminated(Terminated(cs.exitCode, cs.reason, cs.message, cs.startedAt, cs.finishedAt, cs.id))
      else if lost then JustTerminated(Terminated(137, CONTAINER_STATUS_UNKNOWN, LOST_WHEN_TERMINATED, 0, 0, ""))
      else JustWaiting("", "");
    ContainerStatus(cs.name, state, NO_STATE, false, if lost then before.value.restartCount + 1 else cs.restartCount,
                    cs.image, cs.imageID, cs.id)
  }

  /** What a container starts from: waiting, unless it was terminated before. */
  function Default(c: Container, before: Option<ContainerStatus>, reason: string): ContainerStatus {
    if before.Some? && before.value.state.terminated.Some? then before.value
    else ContainerStatus(c.name, JustWaiting(reason, ""),
                         if before.Some? then before.value.lastTerminationState else NO_STATE, false,
                         if before.Some? then before.value.restartCount else 0, c.image, "", "")
  }

  predicate WasRunning(before: Option<ContainerStatus>) {
    before.Some? && before.value.state.terminated.None? && before.value.state.running.Some?
  }

  /** A container that was running and is not reported any more has terminated some time. */
  function InferStop(
      status: ContainerStatus, before: Option<ContainerStatus>, reported: bool, reason: string,
      deleted: bool): ContainerStatus {
    if !reported && WasRunning(before) && status.state.waiting.Some? && status.state.waiting.value.reason == reason &&
       status.lastTerminationState.terminated.None?
    then status.(
      lastTerminationState := status.lastTerminationState.(
        terminated := Some(Terminated(137, CONTAINER_STATUS_UNKNOWN, LOST_WHEN_DELETED, 0, 0, ""))),
      restartCount := if deleted then status.restartCount else status.restartCount + 1)
    else status
  }

  /** Whether the next sync starts the container again, given the first report of its name. */
  function ShouldBeRestarted(pod: Pod, found: Option<Reported>): bool {
    if pod.deletionTimestamp.Some? then false
    else if found.None? then true
    else if found.value.state == ContainerRunning then false
    else if found.value.state == ContainerUnknown || found.value.state == ContainerCreated then true
    else if pod.spec.restartPolicy == RestartPolicyNever then false
    else if pod.spec.restartPolicy == RestartPolicyOnFailure then found.value.exitCode != 0
    else true
  }

  /** A container that is to be restarted and failed to start is waiting, and says why. */
  function AwaitRestart(
      status: ContainerStatus, pod: Pod, found: Option<Reported>, reason: Option<Reason>,
      isInit: bool): ContainerStatus {
    if (isInit && found.Some? && found.value.state == ContainerExited && found.value.exitCode == 0) ||
       !ShouldBeRestarted(pod, found) || reason.None?
    then status
    else status.(
      lastTerminationState := if status.state.terminated.Some? then status.state else status.lastTerminationState,
      state := JustWaiting(reason.value.err, reason.value.message))
  }

  // ---------- the four passes ----------

  function Previous(statuses: seq<ContainerStatus>): Statuses
    decreases |statuses|
  {
    if statuses == [] then map[]
    else Previous(statuses[..|statuses| - 1])[statuses[|statuses| - 1].name := statuses[|statuses| - 1]]
  }

  function Find(reported: seq<Reported>, name: string): Option<Reported> {
    if reported == [] then None else if reported[0].name == name then Some(reported[0]) else Find(reported[1..], name)
  }

  function Defaults(containers: seq<Container>, before: Statuses, reason: string): (m: Statuses)
    ensures forall n :: n in m <==> exists i :: 0 <= i < |containers| && containers[i].name == n
    decreases |containers|
  {
    if containers == [] then map[]
    else
      var c := containers[|containers| - 1];
      Defaults(containers[..|containers| - 1], before, reason)[c.name := Default(c, Lookup(before, c.name), reason)]
  }

  /** Every container has a status. */
  ghost predicate Covers(m: Statuses, containers: seq<Container>) {
    forall i :: 0 <= i < |containers| ==> containers[i].name in m
  }

  function InferStops(
      containers: seq<Container>, m: Statuses, before: Statuses, reported: seq<Reported>, reason: string,
      deleted: bool): (r: Statuses)
    requires Covers(m, containers)
    ensures r.Keys == m.Keys
    decreases |containers|
  {
    if containers == [] then m
    else
      var name := containers[|containers| - 1].name;
      var m1 := InferStops(containers[..|containers| - 1], m, before, reported, reason, deleted);
      m1[name := InferStop(m1[name], Lookup(before, name), Find(reported, name).Some?, reason, deleted)]
  }

  /** The reports of one name, in order. */
  function Of(reported: seq<Reported>, name: string): seq<Reported>
    decreases |reported|
  {
    if reported == [] then []
    else
      var n := |reported| - 1;
      Of(reported[..n], name) + if reported[n].name == name then [reported[n]] else []
  }

  /** One report, when `seen` reports of its name went before. */
  function ShowOne(m: Statuses, cs: Reported, seen: nat, before: Statuses): (r: Statuses)
    ensures r.Keys == m.Keys
  {
    if cs.name !in m || seen >= 2 then m
    else if seen == 0 then m[cs.name := Convert(cs, Lookup(before, cs.name))]
    else m[cs.name := m[cs.name].(lastTerminationState := Convert(cs, Lookup(before, cs.name)).state)]
  }

  /** Statuses are taken from reports with the latest first: the first of a name is shown, the second is what
      happened before, the rest is ignored. */
  function Show(m: Statuses, sorted: seq<Reported>, before: Statuses): (r: Statuses)
    ensures r.Keys == m.Keys
    decreases |sorted|
  {
    if sorted == [] then m
    else
      var n := |sorted| - 1;
      ShowOne(Show(m, sorted[..n], before), sorted[n], |Of(sorted[..n], sorted[n].name)|, before)
  }

  function AwaitRestarts(
      containers: seq<Container>, m: Statuses, pod: Pod, reported: seq<Reported>, reasons: map<string, Reason>,
      isInit: bool): (r: Statuses)
    requires Covers(m, containers)
    ensures r.Keys == m.Keys
    decreases |containers|
  {
    if containers == [] then m
    else
      var name := containers[|containers| - 1].name;
      var m1 := AwaitRestarts(containers[..|containers| - 1], m, pod, reported, reasons, isInit);
      m1[name := AwaitRestart(m1[name], pod, Find(reported, name),
                              if name in reasons then Some(reasons[name]) else None, isInit)]
  }

  function DefaultReason(hasInit: bool): string {
    if hasInit then POD_INITIALIZING else CONTAINER_CREATING
  }

  /** The statuses of the containers, before they are put in order. `sorted` holds the reports, latest first. */
  function Derive(
      pod: Pod, reported: seq<Reported>, sorted: seq<Reported>, previous: seq<ContainerStatus>,
      containers: seq<Container>, reasons: map<string, Reason>, hasInit: bool, isInit: bool): (r: Statuses)
    ensures Covers(r, containers)
  {
    var before, reason := Previous(previous), DefaultReason(hasInit);
    var m1 := Defaults(containers, before, reason);
    var m2 := InferStops(containers, m1, before, reported, reason, pod.deletionTimestamp.Some?);
    var m3 := Show(m2, sorted, before);
    AwaitRestarts(containers, m3, pod, reported, reasons, isInit)
  }

  // ---------- what the passes make of one container ----------

  ghost predicate DistinctNames(containers: seq<Container>) {
    forall i, j :: 0 <= i < j < |containers| ==> containers[i].name != containers[j].name
  }

  ghost predicate Listed(containers: seq<Container>, name: string) {
    exists i :: 0 <= i < |containers| && containers[i].name == name
  }

  lemma ListedInit(containers: seq<Container>, name: string)
    requires containers != [] && DistinctNames(containers)
    ensures var n := |containers| - 1;
            DistinctNames(containers[..n]) &&
            (Listed(containers, name) <==> Listed(containers[..n], name) || containers[n].name == name)
            && !Listed(containers[..n], containers[n].name)
  {
    assert forall i :: 0 <= i < |containers| - 1 ==> containers[..|containers| - 1][i] == containers[i];
  }

  lemma {:induction false} DefaultsAt(containers: seq<Container>, before: Statuses, reason: string, i: nat)
    requires DistinctNames(containers) && i < |containers|
    ensures Defaults(containers, before, reason)[containers[i].name] ==
            Default(containers[i], Lookup(before, containers[i].name), reason)
    decreases |containers|
  {
    var n := |containers| - 1;
    if i < n {
      assert containers[..n][i] == containers[i] && containers[i].name != containers[n].name;
      DefaultsAt(containers[..n], before, reason, i);
    }
  }

  lemma {:induction false} InferStopsAt(
      containers: seq<Container>, m: Statuses, before: Statuses, reported: seq<Reported>, reason: string,
      deleted: bool, name: string)
    requires DistinctNames(containers) && Covers(m, containers) && name in m
    ensures InferStops(containers, m, before, reported, reason, deleted)[name] ==
              if Listed(containers, name)
              then InferStop(m[name], Lookup(before, name), Find(reported, name).Some?, reason, deleted) else m[name]
    decreases |containers|
  {
    if containers != [] {
      var n := |containers| - 1;
      ListedInit(containers, name);
      hide InferStop, Listed, DistinctNames;
      InferStopsAt(containers[..n], m, before, reported, reason, deleted, name);
    }
  }

  lemma {:induction false} AwaitRestartsAt(
      containers: seq<Container>, m: Statuses, pod: Pod, reported: seq<Reported>, reasons: map<string, Reason>,
      isInit: bool, name: string)
    requires DistinctNames(containers) && Covers(m, containers) && name in m
    ensures AwaitRestarts(containers, m, pod, reported, reasons, isInit)[name] ==
              if Listed(containers, name)
              then AwaitRestart(m[name], pod, Find(reported, name),
                                if name in reasons then Some(reasons[name]) else None, isInit)
              else m[name]
    decreases |containers|
  {
    if containers != [] {
      var n := |containers| - 1;
      ListedInit(containers, name);
      hide AwaitRestart, Listed, DistinctNames;
      AwaitRestartsAt(containers[..n], m, pod, reported, reasons, isInit, name);
    }
  }

  /** The latest report of a name is shown, with the state of the one before it as the last termination. */
  function Shown(status: ContainerStatus, reports: seq<Reported>, before: Option<ContainerStatus>): ContainerStatus {
    if reports == [] then status
    else if |reports| == 1 then Convert(reports[0], before)
    else Convert(reports[0], before).(lastTerminationState := Convert(reports[1], before).state)
  }

  lemma {:induction false} ShowAt(m: Statuses, sorted: seq<Reported>, before: Statuses, name: string)
    requires name in m
    ensures Show(m, sorted, before)[name] == Shown(m[name], Of(sorted, name), Lookup(before, name))
    decreases |sorted|
  {
    if sorted != [] {
      ShowAt(m, sorted[..|sorted| - 1], before, name);
      hide Convert;
    }
  }

  /** The status of one container, as a chain of the four decisions about it. */
  function DeriveOne(
      c: Container, pod: Pod, found: Option<Reported>, reports: seq<Reported>, before: Option<ContainerStatus>,
      reason: Option<Reason>, hasInit: bool, isInit: bool): ContainerStatus
  {
    var s1 := Default(c, before, DefaultReason(hasInit));
    var s2 := InferStop(s1, before, found.Some?, DefaultReason(hasInit), pod.deletionTimestamp.Some?);
    AwaitRestart(Shown(s2, reports, before), pod, found, reason, isInit)
  }

  /** Containers with distinct names do not influence each other. */
  lemma DeriveIs(
      pod: Pod, reported: seq<Reported>, sorted: seq<Reported>, previous: seq<ContainerStatus>,
      containers: seq<Container>, reasons: map<string, Reason>, hasInit: bool, isInit: bool, i: nat)
    requires DistinctNames(containers) && i < |containers|
    ensures var name := containers[i].name;
            Derive(pod, reported, sorted, previous, containers, reasons, hasInit, isInit)[name] ==
              DeriveOne(containers[i], pod, Find(reported, name), Of(sorted, name), Lookup(Previous(previous), name),
                        if name in reasons then Some(reasons[name]) else None, hasInit, isInit)
  {
    var name := containers[i].name;
    var before, reason := Previous(previous), DefaultReason(hasInit);
    var m1 := Defaults(containers, before, reason);
    var m2 := InferStops(containers, m1, before, reported, reason, pod.deletionTimestamp.Some?);
    var m3 := Show(m2, sorted, before);
    DefaultsAt(containers, before, reason, i);
    InferStopsAt(containers, m1, before, reported, reason, pod.deletionTimestamp.Some?, name);
    ShowAt(m2, sorted, before, name);
    AwaitRestartsAt(containers, m3, pod, reported, reasons, isInit, name);
    hide Default, InferStop, Shown, AwaitRestart;
  }
}
