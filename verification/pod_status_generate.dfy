/** Generating the API status of a pod: phase, reason, container statuses and conditions together. */
module PodStatusGenerate {
  import opened Wrappers
  import opened Api
  import opened ContainerStatuses
  import opened StatusOrder
  import opened PodPhases
  import opened PodConditions
  import opened PodStatuses

  /** The containers whose startup and readiness probes succeed, or that have none. */
  datatype Probes = Probes(started: set<string>, ready: set<string>)

  /** A running container that has started is ready as its probe says; otherwise the flag is left alone. */
  function Probed(status: ContainerStatus, probes: Probes): ContainerStatus {
    if status.state.running.Some? && status.name in probes.started then status.(ready := status.name in probes.ready)
      else status
  }

  function ProbedInit(status: ContainerStatus): ContainerStatus {
    status.(ready := status.state.terminated.Some? && status.state.terminated.value.exitCode == 0)
  }

  function ProbeAll(statuses: seq<ContainerStatus>, probes: Probes): seq<ContainerStatus> {
    seq(|statuses|, i requires 0 <= i < |statuses| => Probed(statuses[i], probes))
  }

  function ProbeInits(statuses: seq<ContainerStatus>): seq<ContainerStatus> {
    seq(|statuses|, i requires 0 <= i < |statuses| => ProbedInit(statuses[i]))
  }

  /** The terminal phase of the API or of the status before takes the place of a derived one that is not terminal. */
  function MergedPhase(derived: PodPhase, before: PodPhase, api: PodPhase): PodPhase {
    if IsPhaseTerminal(derived) then derived
    else if IsPhaseTerminal(before) then before
    else if IsPhaseTerminal(api) then api
    else derived
  }

  function FinalPhase(derived: PodPhase, before: PodPhase, api: PodPhase): PodPhase {
    if IsPhaseTerminal(api) then api else MergedPhase(derived, before, api)
  }

  const SCHEDULED := Condition(POD_SCHEDULED, ConditionTrue, "", "")

  function GeneratedConditions(
      pod: Pod, statuses: seq<ContainerStatus>, inits: seq<ContainerStatus>, phase: PodPhase): seq<PodCondition> {
    var others := ForeignConditions(pod.status.conditions);
    var initialized := PodInitializedCondition(pod.spec, Some(inits), phase);
    others + [initialized, PodReadyCondition(pod.spec, others + [initialized], Some(statuses), phase),
              ContainersReadyCondition(pod.spec, Some(statuses), phase), SCHEDULED]
  }

  /** A reason or message that goes with the phase is kept while the phase is. */
  function KeptText(kept: bool, before: string, api: string): string {
    if !kept then "" else if before != "" then before else api
  }

  /** The generated status, given the container statuses before they are probed. */
  function Generated(
      pod: Pod, before: PodStatus, statuses: seq<ContainerStatus>, inits: seq<ContainerStatus>,
      probes: Probes): PodStatus {
    var derived := PhaseOf(pod.spec, statuses + inits);
    var merged := MergedPhase(derived, before.phase, pod.status.phase);
    var phase := FinalPhase(derived, before.phase, pod.status.phase);
    var kept := merged == before.phase;
    PodStatus(phase, KeptText(kept, before.reason, pod.status.reason),
              KeptText(kept, before.message, pod.status.message), None,
              GeneratedConditions(pod, ProbeAll(statuses, probes), ProbeInits(inits), phase),
              ProbeAll(statuses, probes), ProbeInits(inits))
  }

  // ---------- the code's own steps ----------

  method UpdateProbed(statuses: seq<ContainerStatus>, inits: seq<ContainerStatus>, probes: Probes)
    returns (probed: seq<ContainerStatus>, probedInits: seq<ContainerStatus>)
    ensures probed == ProbeAll(statuses, probes) && probedInits == ProbeInits(inits)
  {
    probed, probedInits := statuses, inits;
    for i := 0 to |statuses|
      invariant |probed| == |statuses|
      invariant forall j :: 0 <= j < |statuses| ==>
                probed[j] == if j < i then Probed(statuses[j], probes) else statuses[j]
    {
      var c := statuses[i];
      var started := c.state.running.Some? && c.name in probes.started;
      if started { probed := probed[i := c.(ready := c.name in probes.ready)]; }
    }
    for i := 0 to |inits|
      invariant |probedInits| == |inits|
      invariant forall j :: 0 <= j < |inits| ==> probedInits[j] == if j < i then ProbedInit(inits[j]) else inits[j]
    {
      var ready := inits[i].state.terminated.Some? && inits[i].state.terminated.value.exitCode == 0;
      probedInits := probedInits[i := inits[i].(ready := ready)];
    }
  }

  method MergePhases(derived: PodPhase, before: PodPhase, api: PodPhase) returns (phase: PodPhase)
    ensures phase == MergedPhase(derived, before, api)
  {
    phase := derived;
    if phase != PodFailed && phase != PodSucceeded {
      if before == PodFailed || before == PodSucceeded {
        phase := before;
      } else if api == PodFailed || api == PodSucceeded {
        phase := api;
      }
    }
  }

  /** The whole status, from the reports of the runtime and what was known before. `cached` is the status
      manager's entry, if there is one. */
  method GenerateAPIPodStatus(
      pod: Pod, cached: Option<PodStatus>, reported: seq<Reported>, sorted: seq<Reported>, sortedAgain: seq<Reported>,
      reasons: map<string, Reason>, probes: Probes)
      returns (s: PodStatus)
    requires LatestFirst(sorted, reported) && LatestFirst(sortedAgain, reported)
    ensures var before, hasInit := if cached.Some? then cached.value else pod.status, pod.spec.initContainers != [];
            exists statuses ::
              Lists(statuses, Derive(pod, reported, sorted, before.containerStatuses, pod.spec.containers, reasons,
                                     hasInit, false)) &&
              s == Generated(
                pod, before, statuses,
                InSpecOrder(pod.spec.initContainers,
                            Derive(pod, reported, sortedAgain, before.initContainerStatuses, pod.spec.initContainers,
                                   reasons, hasInit, true)), probes)
  {
    var before := if cached.Some? then cached.value else pod.status;
    var hasInit := |pod.spec.initContainers| > 0;
    var cs := ConvertToAPIContainerStatuses(pod, reported, sorted, before.containerStatuses, pod.spec.containers,
                                            reasons, hasInit, false);
    var ics := ConvertToAPIContainerStatuses(pod, reported, sortedAgain, before.initContainerStatuses,
                                             pod.spec.initContainers,
                                             reasons, hasInit, true);
    hide Derive, LatestFirst, Lists, Generated, InSpecOrder;
    s := CompleteStatus(pod, before, cs, ics, probes);
  }

  method CompleteStatus(
      pod: Pod, before: PodStatus, cs: seq<ContainerStatus>, ics: seq<ContainerStatus>, probes: Probes)
      returns (s: PodStatus)
    ensures s == Generated(pod, before, cs, ics, probes)
  {
    var derived := GetPhase(pod.spec, cs + ics);
    var phase := MergePhases(derived, before.phase, pod.status.phase);
    var reason, message := KeepTexts(phase, before, pod.status);
    if pod.status.phase == PodFailed || pod.status.phase == PodSucceeded {
      if phase != pod.status.phase { phase := pod.status.phase; }
    }
    var probed, probedInits := UpdateProbed(cs, ics, probes);
    var conditions := GenerateConditions(pod, probed, probedInits, phase);
    s := PodStatus(phase, reason, message, None, conditions, probed, probedInits);
  }

  /** The reason and the message belong to the phase and are kept with it. */
  method KeepTexts(phase: PodPhase, before: PodStatus, api: PodStatus) returns (reason: string, message: string)
    ensures reason == KeptText(phase == before.phase, before.reason, api.reason)
    ensures message == KeptText(phase == before.phase, before.message, api.message)
  {
    reason, message := "", "";
    if phase == before.phase {
      reason, message := before.reason, before.message;
      if |reason| == 0 { reason := api.reason; }
      if |message| == 0 { message := api.message; }
    }
  }

  method GenerateConditions(pod: Pod, probed: seq<ContainerStatus>, probedInits: seq<ContainerStatus>, phase: PodPhase)
    returns (conditions: seq<PodCondition>)
    ensures conditions == GeneratedConditions(pod, probed, probedInits, phase)
  {
    conditions := KeepForeign(pod.status.conditions);
    var initialized := GeneratePodInitializedCondition(pod.spec, Some(probedInits), phase);
    conditions := conditions + [initialized];
    var ready := GeneratePodReadyCondition(pod.spec, conditions, Some(probed), phase);
    conditions := conditions + [ready];
    var containersReady := GenerateContainersReadyCondition(pod.spec, Some(probed), phase);
    conditions := conditions + [containersReady];
    conditions := conditions + [SCHEDULED];
    hide PodInitializedCondition, PodReadyCondition, ContainersReadyCondition, ForeignConditions;
  }

  // ---------- terminal phases ----------

  /** A terminal phase of the API is final; a terminal phase known before stays terminal. */
  lemma TerminalPhasesAbsorb(
      pod: Pod, before: PodStatus, statuses: seq<ContainerStatus>, inits: seq<ContainerStatus>, probes: Probes)
    ensures var s := Generated(pod, before, statuses, inits, probes);
            (IsPhaseTerminal(pod.status.phase) ==> s.phase == pod.status.phase) &&
            (IsPhaseTerminal(before.phase) ==> IsPhaseTerminal(s.phase)) &&
            (IsPhaseTerminal(s.phase) ==>
               IsPhaseTerminal(pod.status.phase) || IsPhaseTerminal(before.phase) ||
               IsPhaseTerminal(PhaseOf(pod.spec, statuses + inits)))
  {
  }

  lemma KindsDiffer()
    ensures POD_READY != CONTAINERS_READY && POD_READY != POD_INITIALIZED && POD_READY != POD_SCHEDULED
    ensures CONTAINERS_READY != POD_INITIALIZED && CONTAINERS_READY != POD_SCHEDULED && POD_INITIALIZED != POD_SCHEDULED
  {
    assert |POD_READY| == 5 && |CONTAINERS_READY| == 15 && |POD_INITIALIZED| == 11 && |POD_SCHEDULED| == 12;
  }

  predicate IsReadiness(c: PodCondition) {
    c.kind == POD_READY || c.kind == CONTAINERS_READY
  }

  /** A terminal pod is never reported ready, and what is reported is what its containers and gates say. */
  lemma TerminalIsNotReady(
      pod: Pod, before: PodStatus, statuses: seq<ContainerStatus>, inits: seq<ContainerStatus>, probes: Probes)
    ensures var s := Generated(pod, before, statuses, inits, probes);
            forall c :: c in s.conditions && IsReadiness(c) && c.status == ConditionTrue ==>
              !IsPhaseTerminal(s.phase) && AllReady(pod.spec.containers, s.containerStatuses)
  {
    KindsDiffer();
    var s := Generated(pod, before, statuses, inits, probes);
    ContainersReadyIff(pod.spec, Some(s.containerStatuses), s.phase);
    var others := ForeignConditions(pod.status.conditions);
    forall c | c in s.conditions && IsReadiness(c) && c.status == ConditionTrue
      ensures !IsPhaseTerminal(s.phase) && AllReady(pod.spec.containers, s.containerStatuses)
    {
      assert c !in others;
    }
  }

  /** The kubelet's own conditions are there once each, after all others. */
  lemma OwnConditionsOnce(
      pod: Pod, before: PodStatus, statuses: seq<ContainerStatus>, inits: seq<ContainerStatus>, probes: Probes, i: nat)
    requires i < |Generated(pod, before, statuses, inits, probes).conditions|
    ensures var conditions, n := Generated(pod, before, statuses, inits, probes).conditions,
            |ForeignConditions(pod.status.conditions)|;
            |conditions| == n + 4 && (IsKubeletCondition(conditions[i].kind) <==> i >= n) &&
            forall j :: n <= j < |conditions| && j != i ==> conditions[j].kind != conditions[i].kind
  {
    KindsDiffer();
    var others := ForeignConditions(pod.status.conditions);
    var s := Generated(pod, before, statuses, inits, probes);
    ConditionKinds(pod.spec, others + [PodInitializedCondition(pod.spec, Some(s.initContainerStatuses), s.phase)], s);
    hide ContainersReadyCondition, PodReadyCondition, PodInitializedCondition, PhaseOf, ForeignConditions;
    var own := s.conditions[|others|..];
    assert s.conditions == others + own && |own| == 4;
    assert own[0].kind == POD_INITIALIZED && own[1].kind == POD_READY && own[2].kind == CONTAINERS_READY &&
           own[3].kind == POD_SCHEDULED;
    hide Generated;
    OwnAfterOthers(others, own, i);
  }

  lemma OwnAfterOthers(others: seq<PodCondition>, own: seq<PodCondition>, i: nat)
    requires i < |others + own| && (forall c :: c in others ==> !IsKubeletCondition(c.kind)) && |own| == 4
    requires own[0].kind == POD_INITIALIZED && own[1].kind == POD_READY && own[2].kind == CONTAINERS_READY &&
             own[3].kind == POD_SCHEDULED
    ensures IsKubeletCondition((others + own)[i].kind) <==> i >= |others|
    ensures forall j :: |others| <= j < |others + own| && j != i ==> (others + own)[j].kind != (others + own)[i].kind
  {
    KindsDiffer();
    forall j | 0 <= j < 4 ensures IsKubeletCondition(own[j].kind) {}
    if i < |others| { assert others[i] in others; }
  }

  lemma ConditionKinds(spec: PodSpec, conditions: seq<PodCondition>, s: PodStatus)
    ensures PodInitializedCondition(spec, Some(s.initContainerStatuses), s.phase).kind == POD_INITIALIZED
    ensures PodReadyCondition(spec, conditions, Some(s.containerStatuses), s.phase).kind == POD_READY
    ensures ContainersReadyCondition(spec, Some(s.containerStatuses), s.phase).kind == CONTAINERS_READY
  {
  }
}
