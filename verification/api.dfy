/** Values shared by several components: the parts of the Kubernetes pod API the kubelet core reads. */
module Wrappers {
  datatype Option<+T> = None | Some(value: T)
}

module Api {
  import opened Wrappers

  type UID = string

  /** Time in nanoseconds; 0 stands for the unset time. */
  type Time = nat

  datatype PodPhase = PhaseUnset | PodPending | PodRunning | PodSucceeded | PodFailed | PodUnknown

  datatype RestartPolicy = RestartPolicyAlways | RestartPolicyOnFailure | RestartPolicyNever

  datatype Container = Container(name: string, image: string)

  datatype PodSpec = PodSpec(
    containers: seq<Container>,
    initContainers: seq<Container>,
    restartPolicy: RestartPolicy,
    terminationGracePeriodSeconds: Option<int>,
    readinessGates: seq<string>)

  datatype Waiting = Waiting(reason: string, message: string)
  datatype Running = Running(startedAt: Time)
  datatype Terminated = Terminated(
    exitCode: int, reason: string, message: string, startedAt: Time, finishedAt: Time, containerID: string)

  /** The API struct has one optional member per state; any combination of them can be set. */
  datatype ContainerState = ContainerState(
    waiting: Option<Waiting>, running: Option<Running>, terminated: Option<Terminated>)

  datatype ContainerStatus = ContainerStatus(
    name: string,
    state: ContainerState,
    lastTerminationState: ContainerState,
    ready: bool,
    restartCount: int,
    image: string,
    imageID: string,
    containerID: string)

  /** The state of a container as the runtime reports it. */
  datatype RuntimeState = ContainerCreated | ContainerRunning | ContainerExited | ContainerUnknown

  datatype ConditionStatus = ConditionTrue | ConditionFalse | ConditionUnknown

  datatype PodCondition = PodCondition(
    kind: string, status: ConditionStatus, reason: string, message: string,
    lastProbeTime: Time, lastTransitionTime: Time)

  datatype PodStatus = PodStatus(
    phase: PodPhase,
    reason: string,
    message: string,
    startTime: Option<Time>,
    conditions: seq<PodCondition>,
    containerStatuses: seq<ContainerStatus>,
    initContainerStatuses: seq<ContainerStatus>)

  datatype Pod = Pod(
    uid: UID,
    name: string,
    namespace: string,
    annotations: map<string, string>,
    labels: Option<map<string, string>>,
    deletionTimestamp: Option<Time>,
    deletionGracePeriodSeconds: Option<int>,
    spec: PodSpec,
    status: PodStatus)

  const NO_STATE := ContainerState(None, None, None)
  const EMPTY_SPEC := PodSpec([], [], RestartPolicyAlways, None, [])
  const EMPTY_STATUS := PodStatus(PhaseUnset, "", "", None, [], [], [])

  const CONFIG_SOURCE_ANNOTATION_KEY := "kubernetes.io/config.source"
  const CONFIG_MIRROR_ANNOTATION_KEY := "kubernetes.io/config.mirror"
  const CONFIG_FIRST_SEEN_ANNOTATION_KEY := "kubernetes.io/config.seen"
  const APISERVER_SOURCE := "api"

  const POD_SCHEDULED := "PodScheduled"
  const POD_READY := "Ready"
  const POD_INITIALIZED := "Initialized"
  const CONTAINERS_READY := "ContainersReady"

  predicate IsPhaseTerminal(phase: PodPhase) {
    phase == PodFailed || phase == PodSucceeded
  }

  /** A pod is static when it names a source and the source is not the API server. */
  predicate IsStaticPod(pod: Pod) {
    CONFIG_SOURCE_ANNOTATION_KEY in pod.annotations &&
    pod.annotations[CONFIG_SOURCE_ANNOTATION_KEY] != APISERVER_SOURCE
  }

  function FullName(pod: Pod): string {
    pod.name + "_" + pod.namespace
  }

  predicate IsKubeletCondition(kind: string) {
    kind == POD_SCHEDULED || kind == POD_READY || kind == POD_INITIALIZED || kind == CONTAINERS_READY
  }
}
