/** The phase of a pod from the statuses of its containers, and why a container that ran never makes it pending. */
module PodPhases {
  import opened Wrappers
  import opened Api
  import opened ContainerStatuses

  /** The first status of the name. */
  function GetContainerStatus(statuses: seq<ContainerStatus>, name: string): Option<ContainerStatus> {
    if statuses == [] then None
    else if statuses[0].name == name then Some(statuses[0])
    else GetContainerStatus(statuses[1..], name)
  }

  datatype Kind = IsRunning | IsStopped(succeeded: bool) | IsWaiting | IsUnknown

  function KindOf(status: Option<ContainerStatus>): Kind {
    if status.None? then IsUnknown
    else
      var s := status.value;
      if s.state.running.Some? then IsRunning
      else if s.state.terminated.Some? then IsStopped(s.state.terminated.value.exitCode == 0)
      else if s.state.waiting.Some? then (if s.lastTerminationState.terminated.Some? then IsStopped(false)
                                          else IsWaiting)
      else IsUnknown
  }

  datatype InitKind = InitPending | InitFailed | InitDone

  function InitKindOf(status: Option<ContainerStatus>): InitKind {
    if status.None? then InitPending
    else
      var s := status.value;
      if s.state.running.Some? then InitPending
      else if s.state.terminated.Some? then (if s.state.terminated.value.exitCode != 0 then InitFailed else InitDone)
      else if s.state.waiting.Some? && s.lastTerminationState.terminated.Some? then
        (if s.lastTerminationState.terminated.value.exitCode != 0 then InitFailed else InitDone)
      else InitPending
  }

  predicate SomeInit(spec: PodSpec, info: seq<ContainerStatus>, kind: InitKind) {
    exists c :: c in spec.initContainers && InitKindOf(GetContainerStatus(info, c.name)) == kind
  }

  predicate SomeMain(spec: PodSpec, info: seq<ContainerStatus>, kind: Kind) {
    exists c :: c in spec.containers && KindOf(GetContainerStatus(info, c.name)) == kind
  }

  /** The phase in terms of which kinds of containers there are. */
  function PhaseOf(spec: PodSpec, info: seq<ContainerStatus>): PodPhase {
    if SomeInit(spec, info, InitFailed) && spec.restartPolicy == RestartPolicyNever then PodFailed
    else if SomeInit(spec, info, InitPending) || SomeMain(spec, info, IsWaiting) then PodPending
    else if SomeMain(spec, info, IsUnknown) || spec.containers == [] then PodPending
    else if SomeMain(spec, info, IsRunning) || spec.restartPolicy == RestartPolicyAlways then PodRunning
    else if !SomeMain(spec, info, IsStopped(false)) then PodSucceeded
    else if spec.restartPolicy == RestartPolicyNever then PodFailed
    else PodRunning
  }

  // ---------- the counting form ----------

  /** How many of the first containers are of the kind. */
  function Count(containers: seq<Container>, info: seq<ContainerStatus>, kind: Kind): nat
    decreases |containers|
  {
    if containers == [] then 0
    else
      var n := |containers| - 1;
      Count(containers[..n], info, kind) + if KindOf(GetContainerStatus(info, containers[n].name)) == kind then 1 else 0
  }

  function CountInit(containers: seq<Container>, info: seq<ContainerStatus>, kind: InitKind): nat
    decreases |containers|
  {
    if containers == [] then 0
    else
      var n := |containers| - 1;
      CountInit(containers[..n], info, kind) + if InitKindOf(GetContainerStatus(info, containers[n].name)) == kind
        then 1 else 0
  }

  lemma {:induction false} CountIs(containers: seq<Container>, info: seq<ContainerStatus>, kind: Kind)
    ensures Count(containers, info, kind) > 0 <==>
            exists c :: c in containers && KindOf(GetContainerStatus(info, c.name)) == kind
    decreases |containers|
  {
    if containers != [] {
      var n := |containers| - 1;
      CountIs(containers[..n], info, kind);
      assert forall c :: c in containers <==> c in containers[..n] || c == containers[n];
      hide KindOf, GetContainerStatus;
    }
  }

  lemma {:induction false} CountInitIs(containers: seq<Container>, info: seq<ContainerStatus>, kind: InitKind)
    ensures CountInit(containers, info, kind) > 0 <==>
            exists c :: c in containers && InitKindOf(GetContainerStatus(info, c.name)) == kind
    decreases |containers|
  {
    if containers != [] {
      var n := |containers| - 1;
      CountInitIs(containers[..n], info, kind);
      assert forall c :: c in containers <==> c in containers[..n] || c == containers[n];
      hide InitKindOf, GetContainerStatus;
    }
  }

  lemma {:induction false} CountsAddUp(containers: seq<Container>, info: seq<ContainerStatus>)
    ensures Count(containers, info, IsRunning) + Count(containers, info, IsStopped(true)) +
            Count(containers, info, IsStopped(false)) +
            Count(containers, info, IsWaiting) + Count(containers, info, IsUnknown) == |containers|
    decreases |containers|
  {
    if containers != [] {
      CountsAddUp(containers[..|containers| - 1], info);
      hide KindOf, GetContainerStatus;
    }
  }

  method FindStatus(statuses: seq<ContainerStatus>, name: string) returns (status: Option<ContainerStatus>)
    ensures status == GetContainerStatus(statuses, name)
    ensures status.Some? <==> exists i :: 0 <= i < |statuses| && statuses[i].name == name
    ensures status.Some? ==> status.value in statuses && status.value.name == name
  {
    for i := 0 to |statuses|
      invariant GetContainerStatus(statuses, name) == GetContainerStatus(statuses[i..], name)
      invariant forall j :: 0 <= j < i ==> statuses[j].name != name
    {
      if statuses[i].name == name { return Some(statuses[i]); }
      assert statuses[i..][1..] == statuses[i + 1..];
    }
    status := None;
  }

  method GetPhase(spec: PodSpec, info: seq<ContainerStatus>) returns (phase: PodPhase)
    ensures phase == PhaseOf(spec, info)
  {
    var inits := spec.initContainers;
    var pendingInitialization, failedInitialization := CountInits(inits, info);
    var unknown, running, waiting, stopped, succeeded := CountKinds(spec.containers, info);

    var cs := spec.containers;
    CountIs(cs, info, IsRunning);
    CountIs(cs, info, IsWaiting);
    CountIs(cs, info, IsUnknown);
    CountIs(cs, info, IsStopped(false));
    CountInitIs(inits, info, InitPending);
    CountInitIs(inits, info, InitFailed);
    CountsAddUp(cs, info);
    hide KindOf, InitKindOf, GetContainerStatus;
    if failedInitialization > 0 && spec.restartPolicy == RestartPolicyNever { return PodFailed; }
    if pendingInitialization > 0 || waiting > 0 { return PodPending; }
    if running > 0 && unknown == 0 { return PodRunning; }
    if running == 0 && stopped > 0 && unknown == 0 {
      if spec.restartPolicy == RestartPolicyAlways { return PodRunning; }
      if stopped == succeeded { return PodSucceeded; }
      if spec.restartPolicy == RestartPolicyNever { return PodFailed; }
      return PodRunning;
    }
    return PodPending;
  }

  method CountInits(
      inits: seq<Container>, info: seq<ContainerStatus>)
      returns (pendingInitialization: nat, failedInitialization: nat)
    ensures pendingInitialization == CountInit(inits, info, InitPending)
    ensures failedInitialization == CountInit(inits, info, InitFailed)
  {
    pendingInitialization, failedInitialization := 0, 0;
    for i := 0 to |inits|
      invariant pendingInitialization == CountInit(inits[..i], info, InitPending)
      invariant failedInitialization == CountInit(inits[..i], info, InitFailed)
    {
      assert inits[..i + 1][..i] == inits[..i];
      var status := FindStatus(info, inits[i].name);
      if status.None? {
        pendingInitialization := pendingInitialization + 1;
      } else if status.value.state.running.Some? {
        pendingInitialization := pendingInitialization + 1;
      } else if status.value.state.terminated.Some? {
        if status.value.state.terminated.value.exitCode != 0 { failedInitialization := failedInitialization + 1; }
      } else if status.value.state.waiting.Some? {
        if status.value.lastTerminationState.terminated.Some? {
          if status.value.lastTerminationState.terminated.value.exitCode != 0 {
            failedInitialization := failedInitialization + 1;
          }
        } else {
          pendingInitialization := pendingInitialization + 1;
        }
      } else {
        pendingInitialization := pendingInitialization + 1;
      }
    }
    assert inits[..|inits|] == inits;
  }

  method CountKinds(containers: seq<Container>, info: seq<ContainerStatus>)
    returns (unknown: nat, running: nat, waiting: nat, stopped: nat, succeeded: nat)
    ensures unknown == Count(containers, info, IsUnknown) && running == Count(containers, info, IsRunning)
    ensures waiting == Count(containers, info, IsWaiting) && succeeded == Count(containers, info, IsStopped(true))
    ensures stopped == Count(containers, info, IsStopped(true)) + Count(containers, info, IsStopped(false))
  {
    unknown, running, waiting, stopped, succeeded := 0, 0, 0, 0, 0;
    for i := 0 to |containers|
      invariant unknown == Count(containers[..i], info, IsUnknown) && running == Count(containers[..i], info, IsRunning)
      invariant waiting == Count(containers[..i], info, IsWaiting) &&
                succeeded == Count(containers[..i], info, IsStopped(true))
      invariant stopped == Count(containers[..i], info, IsStopped(true)) +
                Count(containers[..i], info, IsStopped(false))
    {
      assert containers[..i + 1][..i] == containers[..i];
      var status := FindStatus(info, containers[i].name);
      if status.None? {
        unknown := unknown + 1;
      } else if status.value.state.running.Some? {
        running := running + 1;
      } else if status.value.state.terminated.Some? {
        stopped := stopped + 1;
        if status.value.state.terminated.value.exitCode == 0 { succeeded := succeeded + 1; }
      } else if status.value.state.waiting.Some? {
        if status.value.lastTerminationState.terminated.Some? {
          stopped := stopped + 1;
        } else {
          waiting := waiting + 1;
        }
      } else {
        unknown := unknown + 1;
      }
    }
    assert containers[..|containers|] == containers;
  }

  // ---------- containers that ran ----------

  predicate IsLost(cs: Reported, before: Option<ContainerStatus>) {
    cs.state == ContainerUnknown && before.Some? && before.value.state.running.Some?
  }

  /** Nothing the runtime or the old status says shows that the container has ever run. */
  predicate NotStarted(reports: seq<Reported>, before: Option<ContainerStatus>) {
    if reports == [] then
      before.None? || (before.value.state.terminated.None? && before.value.state.running.None? &&
                       before.value.lastTerminationState.terminated.None?)
    else
      reports[0].state != ContainerRunning && reports[0].state != ContainerExited && !IsLost(reports[0], before) &&
      !(|reports| > 1 && (reports[1].state == ContainerExited || IsLost(reports[1], before)))
  }

  function First(reports: seq<Reported>): Option<Reported> {
    if reports == [] then None else Some(reports[0])
  }

  /** Whatever the reason cache says, a container counts as waiting exactly if it has not started. */
  lemma WaitingIff(
      c: Container, pod: Pod, reports: seq<Reported>, before: Option<ContainerStatus>, reason: Option<Reason>,
      hasInit: bool)
    ensures var kind := KindOf(Some(DeriveOne(c, pod, First(reports), reports, before, reason, hasInit, false)));
            kind != IsUnknown && (kind == IsWaiting <==> NotStarted(reports, before))
  {
  }

  /** The container was running, and is gone now. */
  predicate Vanished(reports: seq<Reported>, before: Option<ContainerStatus>) {
    WasRunning(before) && (reports == [] || reports[0].state == ContainerUnknown)
  }

  lemma VanishedStopped(
      c: Container, pod: Pod, reports: seq<Reported>, before: Option<ContainerStatus>, reason: Option<Reason>,
      hasInit: bool)
    requires Vanished(reports, before)
    ensures KindOf(Some(DeriveOne(c, pod, First(reports), reports, before, reason, hasInit, false))) == IsStopped(false)
  {
  }

  /** Containers whose statuses all say something make the pod pending by waiting only. */
  lemma PendingByWaiting(spec: PodSpec, info: seq<ContainerStatus>)
    requires forall c :: c in spec.containers ==> KindOf(GetContainerStatus(info, c.name)) != IsUnknown
    requires !(SomeInit(spec, info, InitFailed) && spec.restartPolicy == RestartPolicyNever)
    ensures PhaseOf(spec, info) == PodPending <==>
              SomeInit(spec, info, InitPending) || spec.containers == [] || SomeMain(spec, info, IsWaiting)
  {
    hide KindOf, InitKindOf, GetContainerStatus;
  }
}
