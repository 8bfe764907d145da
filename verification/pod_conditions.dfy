/** The conditions the kubelet owns: whether a pod is initialized, its containers are ready, and it is ready. */
module PodConditions {
  import opened Wrappers
  import opened Api
  import opened PodPhases

  const UNKNOWN_CONTAINER_STATUSES := "UnknownContainerStatuses"
  const POD_COMPLETED := "PodCompleted"
  const POD_FAILED := "PodFailed"
  const CONTAINERS_NOT_READY := "ContainersNotReady"
  const CONTAINERS_NOT_INITIALIZED := "ContainersNotInitialized"
  const READINESS_GATES_NOT_READY := "ReadinessGatesNotReady"

  function Condition(kind: string, status: ConditionStatus, reason: string, message: string): PodCondition {
    PodCondition(kind, status, reason, message, 0, 0)
  }

  /** The names of the containers whose status is missing, or there and not ready. */
  function Unknowns(containers: seq<Container>, statuses: seq<ContainerStatus>): seq<string>
    decreases |containers|
  {
    if containers == [] then []
    else
      var n := |containers| - 1;
      Unknowns(containers[..n], statuses) +
      if GetContainerStatus(statuses, containers[n].name).None? then [containers[n].name] else []
  }

  function Unreadies(containers: seq<Container>, statuses: seq<ContainerStatus>): seq<string>
    decreases |containers|
  {
    if containers == [] then []
    else
      var n := |containers| - 1;
      var status := GetContainerStatus(statuses, containers[n].name);
      Unreadies(containers[..n], statuses) + if status.Some? && !status.value.ready then [containers[n].name] else []
  }

  method Classify(
      containers: seq<Container>, statuses: seq<ContainerStatus>)
      returns (unknown: seq<string>, unready: seq<string>)
    ensures unknown == Unknowns(containers, statuses) && unready == Unreadies(containers, statuses)
  {
    unknown, unready := [], [];
    for i := 0 to |containers|
      invariant unknown == Unknowns(containers[..i], statuses) && unready == Unreadies(containers[..i], statuses)
    {
      assert containers[..i + 1][..i] == containers[..i];
      var status := FindStatus(statuses, containers[i].name);
      if status.Some? {
        if !status.value.ready { unready := unready + [containers[i].name]; }
      } else {
        unknown := unknown + [containers[i].name];
      }
    }
    assert containers[..|containers|] == containers;
  }

  predicate AllKnown(containers: seq<Container>, statuses: seq<ContainerStatus>) {
    forall c :: c in containers ==> GetContainerStatus(statuses, c.name).Some?
  }

  predicate AllReady(containers: seq<Container>, statuses: seq<ContainerStatus>) {
    forall c :: c in containers ==>
      GetContainerStatus(statuses, c.name).Some? && GetContainerStatus(statuses, c.name).value.ready
  }

  lemma {:induction false} ClassifiedAll(containers: seq<Container>, statuses: seq<ContainerStatus>)
    ensures Unknowns(containers, statuses) == [] <==> AllKnown(containers, statuses)
    ensures Unknowns(containers, statuses) == [] && Unreadies(containers, statuses) == [] <==>
            AllReady(containers, statuses)
    decreases |containers|
  {
    if containers != [] {
      var n := |containers| - 1;
      ClassifiedAll(containers[..n], statuses);
      assert forall c :: c in containers <==> c in containers[..n] || c == containers[n];
      hide GetContainerStatus;
    }
  }

  function Join(words: seq<string>, separator: string): string {
    if words == [] then "" else if |words| == 1 then words[0] else words[0] + separator + Join(words[1..], separator)
  }

  /** A list as the code prints it. */
  function Listing(words: seq<string>): string {
    "[" + Join(words, " ") + "]"
  }

  function UnreadyMessage(unknown: seq<string>, unready: seq<string>, adjective: string): (message: string)
    ensures message == "" <==> unknown == [] && unready == []
  {
    var a := if unknown != [] then ["containers with unknown status: " + Listing(unknown)] else [];
    var b := if unready != [] then ["containers with " + adjective + " status: " + Listing(unready)] else [];
    Join(a + b, ", ")
  }

  function ContainersReadyForTerminalPhase(phase: PodPhase): PodCondition {
    Condition(CONTAINERS_READY, ConditionFalse,
              if phase == PodFailed then POD_FAILED else if phase == PodSucceeded then POD_COMPLETED else "", "")
  }

  /** `statuses` is None for the nil slice. */
  method GenerateContainersReadyCondition(
      spec: PodSpec, statuses: Option<seq<ContainerStatus>>, phase: PodPhase)
      returns (c: PodCondition)
    ensures c.kind == CONTAINERS_READY && c.status != ConditionUnknown
    ensures c.status == ConditionTrue <==>
            statuses.Some? && !IsPhaseTerminal(phase) && AllReady(spec.containers, statuses.value)
    ensures c == ContainersReadyCondition(spec, statuses, phase)
  {
    if statuses.None? { return Condition(CONTAINERS_READY, ConditionFalse, UNKNOWN_CONTAINER_STATUSES, ""); }
    var unknown, unready := Classify(spec.containers, statuses.value);
    ClassifiedAll(spec.containers, statuses.value);
    if phase == PodSucceeded && |unknown| == 0 { return ContainersReadyForTerminalPhase(phase); }
    if phase == PodFailed { return ContainersReadyForTerminalPhase(phase); }
    var message := UnreadyMessage(unknown, unready, "unready");
    if message != "" { return Condition(CONTAINERS_READY, ConditionFalse, CONTAINERS_NOT_READY, message); }
    c := Condition(CONTAINERS_READY, ConditionTrue, "", "");
  }

  /** The condition, with the reason and the message that go with it. */
  function ContainersReadyCondition(
      spec: PodSpec, statuses: Option<seq<ContainerStatus>>, phase: PodPhase): PodCondition {
    if statuses.None? then Condition(CONTAINERS_READY, ConditionFalse, UNKNOWN_CONTAINER_STATUSES, "")
    else if phase == PodFailed || (phase == PodSucceeded && AllKnown(spec.containers, statuses.value))
    then ContainersReadyForTerminalPhase(phase)
    else if AllReady(spec.containers, statuses.value) then Condition(CONTAINERS_READY, ConditionTrue, "", "")
    else Condition(CONTAINERS_READY, ConditionFalse, CONTAINERS_NOT_READY,
                   UnreadyMessage(Unknowns(spec.containers, statuses.value),
                                  Unreadies(spec.containers, statuses.value), "unready"))
  }

  lemma ContainersReadyIff(spec: PodSpec, statuses: Option<seq<ContainerStatus>>, phase: PodPhase)
    ensures ContainersReadyCondition(spec, statuses, phase).status == ConditionTrue <==>
              statuses.Some? && !IsPhaseTerminal(phase) && AllReady(spec.containers, statuses.value)
  {
    if statuses.Some? && AllReady(spec.containers, statuses.value) {
      assert AllKnown(spec.containers, statuses.value);
    }
  }

  /** The position of the first condition of the kind, or the length. */
  function ConditionIndex(conditions: seq<PodCondition>, kind: string): (i: nat)
    ensures i <= |conditions| && (i < |conditions| ==> conditions[i].kind == kind)
    ensures forall j :: 0 <= j < i ==> conditions[j].kind != kind
  {
    if conditions == [] || conditions[0].kind == kind then 0 else 1 + ConditionIndex(conditions[1..], kind)
  }

  function GetPodCondition(conditions: seq<PodCondition>, kind: string): Option<PodCondition> {
    var i := ConditionIndex(conditions, kind);
    if i < |conditions| then Some(conditions[i]) else None
  }

  method FindCondition(conditions: seq<PodCondition>, kind: string) returns (i: int, c: Option<PodCondition>)
    ensures c == GetPodCondition(conditions, kind)
    ensures i == if c.Some? then ConditionIndex(conditions, kind) else -1
  {
    for k := 0 to |conditions|
      invariant ConditionIndex(conditions, kind) == k + ConditionIndex(conditions[k..], kind)
    {
      if conditions[k].kind == kind { return k, Some(conditions[k]); }
      assert conditions[k..][1..] == conditions[k + 1..];
    }
    return -1, None;
  }

  predicate GateOpen(conditions: seq<PodCondition>, gate: string) {
    GetPodCondition(conditions, gate).Some? && GetPodCondition(conditions, gate).value.status == ConditionTrue
  }

  function StatusName(status: ConditionStatus): string {
    match status case ConditionTrue => "True" case ConditionFalse => "False" case ConditionUnknown => "Unknown"
  }

  function GateMessage(conditions: seq<PodCondition>, gate: string): (message: string)
    ensures message != ""
  {
    var c := GetPodCondition(conditions, gate);
    if c.None? then "corresponding condition of pod readiness gate \"" + gate + "\" does not exist."
    else "the status of pod readiness gate \"" + gate + "\" is not \"True\", but " + StatusName(c.value.status)
  }

  function GateMessages(conditions: seq<PodCondition>, gates: seq<string>): seq<string>
    decreases |gates|
  {
    if gates == [] then []
    else
      var n := |gates| - 1;
      GateMessages(conditions, gates[..n]) + if GateOpen(conditions, gates[n]) then []
        else [GateMessage(conditions, gates[n])]
  }

  lemma {:induction false} NoGateMessages(conditions: seq<PodCondition>, gates: seq<string>)
    ensures GateMessages(conditions, gates) == [] <==> forall g :: g in gates ==> GateOpen(conditions, g)
    decreases |gates|
  {
    if gates != [] {
      var n := |gates| - 1;
      NoGateMessages(conditions, gates[..n]);
      assert forall g :: g in gates <==> g in gates[..n] || g == gates[n];
      hide GateOpen;
    }
  }

  function PodReadyCondition(
      spec: PodSpec, conditions: seq<PodCondition>, statuses: Option<seq<ContainerStatus>>,
      phase: PodPhase): PodCondition {
    var containersReady := ContainersReadyCondition(spec, statuses, phase);
    if containersReady.status != ConditionTrue then containersReady.(kind := POD_READY)
    else if exists g :: g in spec.readinessGates && !GateOpen(conditions, g) then
      Condition(POD_READY, ConditionFalse, READINESS_GATES_NOT_READY,
                Join(GateMessages(conditions, spec.readinessGates), ", "))
    else Condition(POD_READY, ConditionTrue, "", "")
  }

  method GeneratePodReadyCondition(
      spec: PodSpec, conditions: seq<PodCondition>, statuses: Option<seq<ContainerStatus>>, phase: PodPhase)
    returns (c: PodCondition)
    ensures c.kind == POD_READY
    ensures c.status == ConditionTrue <==>
              statuses.Some? && !IsPhaseTerminal(phase) && AllReady(spec.containers, statuses.value) &&
              forall g :: g in spec.readinessGates ==> GateOpen(conditions, g)
    ensures c == PodReadyCondition(spec, conditions, statuses, phase)
  {
    var containersReady := GenerateContainersReadyCondition(spec, statuses, phase);
    if containersReady.status != ConditionTrue {
      return Condition(POD_READY, containersReady.status, containersReady.reason, containersReady.message);
    }
    var messages := [];
    var gates := spec.readinessGates;
    for i := 0 to |gates|
      invariant messages == GateMessages(conditions, gates[..i])
    {
      assert gates[..i + 1][..i] == gates[..i];
      var _, gate := FindCondition(conditions, gates[i]);
      if gate.None? || gate.value.status != ConditionTrue {
        messages := messages + [GateMessage(conditions, gates[i])];
      }
    }
    assert gates[..|gates|] == gates;
    NoGateMessages(conditions, gates);
    hide GateOpen;
    if |messages| != 0 { return Condition(POD_READY, ConditionFalse, READINESS_GATES_NOT_READY, Join(messages, ", ")); }
    c := Condition(POD_READY, ConditionTrue, "", "");
  }

  function PodInitializedCondition(
      spec: PodSpec, statuses: Option<seq<ContainerStatus>>, phase: PodPhase): PodCondition {
    var known := if statuses.Some? then statuses.value else [];
    if statuses.None? && spec.initContainers != []
      then Condition(POD_INITIALIZED, ConditionFalse, UNKNOWN_CONTAINER_STATUSES, "")
    else if phase == PodSucceeded && AllKnown(spec.initContainers, known)
      then Condition(POD_INITIALIZED, ConditionTrue, POD_COMPLETED, "")
    else if AllReady(spec.initContainers, known) then Condition(POD_INITIALIZED, ConditionTrue, "", "")
    else Condition(POD_INITIALIZED, ConditionFalse, CONTAINERS_NOT_INITIALIZED,
                   UnreadyMessage(Unknowns(spec.initContainers, known), Unreadies(spec.initContainers, known),
                                  "incomplete"))
  }

  method GeneratePodInitializedCondition(
      spec: PodSpec, statuses: Option<seq<ContainerStatus>>, phase: PodPhase)
      returns (c: PodCondition)
    ensures c.kind == POD_INITIALIZED && c.status != ConditionUnknown
    ensures c.status == ConditionTrue <==>
              (statuses.Some? || spec.initContainers == []) &&
              var known := if statuses.Some? then statuses.value else [];
              AllReady(spec.initContainers, known) || (phase == PodSucceeded && AllKnown(spec.initContainers, known))
    ensures c == PodInitializedCondition(spec, statuses, phase)
  {
    if statuses.None? && |spec.initContainers| > 0 {
      return Condition(POD_INITIALIZED, ConditionFalse, UNKNOWN_CONTAINER_STATUSES, "");
    }
    var known := if statuses.Some? then statuses.value else [];
    var unknown, unready := Classify(spec.initContainers, known);
    ClassifiedAll(spec.initContainers, known);
    if phase == PodSucceeded && |unknown| == 0 { return Condition(POD_INITIALIZED, ConditionTrue, POD_COMPLETED, ""); }
    var message := UnreadyMessage(unknown, unready, "incomplete");
    if message != "" { return Condition(POD_INITIALIZED, ConditionFalse, CONTAINERS_NOT_INITIALIZED, message); }
    c := Condition(POD_INITIALIZED, ConditionTrue, "", "");
  }

  // ---------- whose conditions ----------

  /** The conditions that are not the kubelet's, in order. */
  function ForeignConditions(conditions: seq<PodCondition>): (r: seq<PodCondition>)
    ensures forall c :: c in r ==> c in conditions && !IsKubeletCondition(c.kind)
    decreases |conditions|
  {
    if conditions == [] then []
    else
      var n := |conditions| - 1;
      ForeignConditions(conditions[..n]) + if IsKubeletCondition(conditions[n].kind) then [] else [conditions[n]]
  }

  method KeepForeign(conditions: seq<PodCondition>) returns (r: seq<PodCondition>)
    ensures r == ForeignConditions(conditions)
  {
    r := [];
    for i := 0 to |conditions|
      invariant r == ForeignConditions(conditions[..i])
    {
      assert conditions[..i + 1][..i] == conditions[..i];
      if !IsKubeletCondition(conditions[i].kind) { r := r + [conditions[i]]; }
    }
    assert conditions[..|conditions|] == conditions;
  }
}
