/** The status manager: a cache of versioned pod statuses, what may be stored in it, and which versions are sent
    to the API server. */
module StatusManagerModel {
  import opened Wrappers
  import opened Api
  import opened PodConditions
  import opened StatusNormalize
  import opened StatusMerge
  import opened PodStatusGenerate

  datatype Versioned = Versioned(status: PodStatus, version: nat, podName: string, podNamespace: string)

  datatype Request = Request(uid: UID, status: Versioned)

  datatype Manager = Manager(podStatuses: map<UID, Versioned>, channel: seq<Request>, apiStatusVersions: map<UID, nat>)

  const CHANNEL_CAPACITY := 1000
  const NEW_MANAGER := Manager(map[], [], map[])

  // ---------- what may be stored ----------

  /** A container in this state must stay terminated. */
  predicate Final(s: ContainerStatus, policy: RestartPolicy) {
    s.state.terminated.Some? && policy != RestartPolicyAlways &&
    (policy == RestartPolicyNever || s.state.terminated.value.exitCode == 0)
  }

  /** No container that must stay terminated is listed in another state. */
  predicate LegalTransition(before: seq<ContainerStatus>, after: seq<ContainerStatus>, policy: RestartPolicy) {
    forall b, a :: b in before && a in after && b.name == a.name && Final(b, policy) ==> a.state.terminated.Some?
  }

  /** The transition time of a condition stays while its status does. */
  function KeepTransitionTime(
      conditions: seq<PodCondition>, before: seq<PodCondition>, kind: string, now: Time): (r: seq<PodCondition>)
    ensures |r| == |conditions|
  {
    var i := ConditionIndex(conditions, kind);
    var prior := GetPodCondition(before, kind);
    if i == |conditions| then conditions
    else conditions[i := conditions[i].(
      lastTransitionTime := if prior.Some? &&
      prior.value.status == conditions[i].status then prior.value.lastTransitionTime else now)]
  }

  function KeepTransitionTimes(conditions: seq<PodCondition>, before: seq<PodCondition>, now: Time): seq<PodCondition> {
    var c1 := KeepTransitionTime(conditions, before, CONTAINERS_READY, now);
    var c2 := KeepTransitionTime(c1, before, POD_READY, now);
    var c3 := KeepTransitionTime(c2, before, POD_INITIALIZED, now);
    KeepTransitionTime(c3, before, POD_SCHEDULED, now)
  }

  predicate IsSet(t: Option<Time>) {
    t.Some? && t.value != 0
  }

  function KeepStartTime(given: Option<Time>, before: Option<Time>, now: Time): Option<Time> {
    if IsSet(before) then before else if IsSet(given) then given else Some(now)
  }

  /** The status as it is stored, if it is. */
  function Prepared(spec: PodSpec, status: PodStatus, before: PodStatus, now: Time): PodStatus {
    Normalize(spec, status.(conditions := KeepTransitionTimes(status.conditions, before.conditions, now),
                            startTime := KeepStartTime(status.startTime, before.startTime, now)))
  }

  predicate SameCondition(before: seq<PodCondition>, c: PodCondition) {
    var b := GetPodCondition(before, c.kind);
    b.Some? && b.value.status == c.status && b.value.message == c.message && b.value.reason == c.reason
  }

  /** Equal but for conditions of others and the times of conditions. */
  predicate EqualByKubelet(before: PodStatus, status: PodStatus) {
    (forall c :: c in status.conditions && IsKubeletCondition(c.kind) ==> SameCondition(before.conditions, c)) &&
    before.(conditions := status.conditions) == status
  }

  /** The status to compare a new one with: the cached one, that of the mirror pod, or the pod's own. */
  function StatusBefore(m: Manager, pod: Pod, mirror: Option<PodStatus>): PodStatus {
    if pod.uid in m.podStatuses then m.podStatuses[pod.uid].status else if mirror.Some? then mirror.value
      else pod.status
  }

  /** An update that changes nothing, or that is illegal, is not stored. */
  predicate Stores(m: Manager, pod: Pod, status: PodStatus, mirror: Option<PodStatus>, force: bool, now: Time) {
    var before := StatusBefore(m, pod, mirror);
    LegalTransition(before.containerStatuses, status.containerStatuses, pod.spec.restartPolicy) &&
    LegalTransition(before.initContainerStatuses, status.initContainerStatuses, pod.spec.restartPolicy) &&
    (force || pod.uid !in m.podStatuses ||
     !EqualByKubelet(m.podStatuses[pod.uid].status, Prepared(pod.spec, status, before, now)))
  }

  function VersionOf(m: Manager, uid: UID): nat {
    if uid in m.podStatuses then m.podStatuses[uid].version else 0
  }

  function Update(m: Manager, pod: Pod, status: PodStatus, mirror: Option<PodStatus>, force: bool, now: Time): Manager {
    if !Stores(m, pod, status, mirror, force, now) then m
    else
      var v := Versioned(Prepared(pod.spec, status, StatusBefore(m, pod, mirror), now), VersionOf(m, pod.uid) + 1,
                         pod.name, pod.namespace);
      m.(podStatuses := m.podStatuses[pod.uid := v],
         channel := if |m.channel| < CHANNEL_CAPACITY then m.channel + [Request(pod.uid, v)] else m.channel)
  }

  // ---------- sending ----------

  /** What the status manager asks others. */
  datatype Env = Env(
    pods: map<UID, Pod>,
    mirrors: map<UID, Pod>,         // the mirror pod of a static pod
    podToMirror: map<UID, UID>,
    mirrorToPod: map<UID, UID>,
    reclaimed: set<UID>)            // pods whose resources have been reclaimed

  datatype Fetched = NotFound | FetchFailed | Found(pod: Pod)
  datatype Patch = PatchFailed | Unchanged | Patched(deletionTimestamp: Option<Time>)

  /** What the API server answers. */
  datatype Answer = Answer(fetched: Fetched, patch: Patch, deleted: bool)

  predicate IsMirrorPod(pod: Pod) {
    CONFIG_MIRROR_ANNOTATION_KEY in pod.annotations
  }

  predicate CanBeDeleted(env: Env, pod: Pod) {
    pod.deletionTimestamp.Some? && !IsMirrorPod(pod) && pod.uid in env.reclaimed
  }

  predicate NeedsUpdate(m: Manager, env: Env, uid: UID, version: nat) {
    uid !in m.apiStatusVersions || m.apiStatusVersions[uid] < version ||
    (uid in env.pods && CanBeDeleted(env, env.pods[uid]))
  }

  function Translate(env: Env, uid: UID): UID {
    if uid != "" && uid in env.mirrorToPod then env.mirrorToPod[uid] else uid
  }

  /** The pod whose status in the API is to match the cached one: the mirror of a static pod, or the pod itself. */
  function Judged(env: Env, uid: UID): Option<Pod> {
    if uid !in env.pods then None
    else if !IsStaticPod(env.pods[uid]) then Some(env.pods[uid])
    else if uid in env.mirrors then Some(env.mirrors[uid])
    else None
  }

  /** The status in the API is not the cached one. */
  predicate Differs(env: Env, uid: UID, status: PodStatus) {
    Judged(env, uid).Some? && !EqualByKubelet(Normalize(Judged(env, uid).value.spec, Judged(env, uid).value.status),
                                              status)
  }

  /** The UID under which the version sent for a pod is recorded: that of its mirror, if it has one. */
  function Synced(env: Env, uid: UID): UID {
    if uid in env.podToMirror then env.podToMirror[uid] else uid
  }

  /** A batch has to send the status: it is stale, or differs, and its pod is not a static one without a mirror. */
  predicate MustSend(m: Manager, env: Env, uid: UID, v: Versioned) {
    !(uid in env.podToMirror && env.podToMirror[uid] == "") &&
    (NeedsUpdate(m, env, Synced(env, uid), v.version) || Differs(env, uid, v.status))
  }

  function AfterPatch(pod: Pod, patch: Patch): Pod {
    if patch.Patched? then pod.(deletionTimestamp := patch.deletionTimestamp) else pod
  }

  /** The request gets as far as recording its version for the pod that was fetched. */
  predicate Writes(m: Manager, env: Env, r: Request, a: Answer) {
    NeedsUpdate(m, env, r.uid, r.status.version) && a.fetched.Found? && !a.patch.PatchFailed? &&
    (Translate(env, a.fetched.pod.uid) == "" || Translate(env, a.fetched.pod.uid) == r.uid)
  }

  predicate Recreated(m: Manager, env: Env, r: Request, a: Answer) {
    NeedsUpdate(m, env, r.uid, r.status.version) && a.fetched.Found? &&
    Translate(env, a.fetched.pod.uid) != "" && Translate(env, a.fetched.pod.uid) != r.uid
  }

  function SyncPod(m: Manager, env: Env, r: Request, a: Answer): Manager {
    if Recreated(m, env, r, a) then m.(podStatuses := m.podStatuses - {r.uid})
    else if Writes(m, env, r, a) then
      m.(apiStatusVersions := m.apiStatusVersions[a.fetched.pod.uid := r.status.version],
         podStatuses := if CanBeDeleted(env, AfterPatch(a.fetched.pod, a.patch)) && a.deleted
                        then m.podStatuses - {r.uid} else m.podStatuses)
    else m
  }

  datatype Event =
    | Set(pod: Pod, status: PodStatus, mirror: Option<PodStatus>, force: bool, now: Time)
    | Take                                    // the sync thread takes the first request of the channel
    | Sync(env: Env, request: Request, answer: Answer)
    | Reset(uid: UID)                         // the recorded version is dropped
    | RemoveOrphans(known: set<UID>)

  function Step(m: Manager, e: Event): Manager {
    match e
    case Set(pod, status, mirror, force, now) => Update(m, pod, status, mirror, force, now)
    case Take => if m.channel == [] then m else m.(channel := m.channel[1..])
    case Sync(env, r, a) => SyncPod(m, env, r, a)
    case Reset(uid) => m.(apiStatusVersions := m.apiStatusVersions - {uid})
    case RemoveOrphans(known) => m.(podStatuses := map u | u in m.podStatuses && u in known :: m.podStatuses[u])
  }

  function Exec(m: Manager, es: seq<Event>): Manager
    decreases |es|
  {
    if es == [] then m else Exec(Step(m, es[0]), es[1..])
  }

  // ---------- what every stored status keeps ----------

  predicate IsWhole(t: Time) {
    t % SECOND == 0
  }

  /** Stored times are whole seconds, and there is a start time. */
  ghost predicate StatusOk(s: PodStatus) {
    s.startTime.Some? && IsWhole(s.startTime.value) && forall c :: c in s.conditions ==> IsWhole(c.lastTransitionTime)
  }

  ghost predicate Inv(m: Manager) {
    forall u :: u in m.podStatuses ==> StatusOk(m.podStatuses[u].status)
  }

  lemma WholeSeconds(t: Time)
    ensures IsWhole(Seconds(t)) && (IsWhole(t) ==> Seconds(t) == t)
  {
  }

  lemma PreparedOk(spec: PodSpec, status: PodStatus, before: PodStatus, now: Time)
    ensures StatusOk(Prepared(spec, status, before, now))
  {
    var s := status.(conditions := KeepTransitionTimes(status.conditions, before.conditions, now),
                     startTime := KeepStartTime(status.startTime, before.startTime, now));
    var r := Prepared(spec, status, before, now);
    WholeSeconds(s.startTime.value);
    assert r.conditions == CutConditions(s.conditions);
    hide KeepTransitionTimes, Seconds;
    forall c | c in r.conditions ensures IsWhole(c.lastTransitionTime) {
      var i :| 0 <= i < |r.conditions| && r.conditions[i] == c;
      WholeSeconds(s.conditions[i].lastTransitionTime);
    }
  }

  lemma StepInv(m: Manager, e: Event)
    requires Inv(m)
    ensures Inv(Step(m, e))
  {
    if e.Set? { PreparedOk(e.pod.spec, e.status, StatusBefore(m, e.pod, e.mirror), e.now); }
    hide Stores, Prepared, StatusOk;
  }

  /** Each store raises the version by exactly one and touches no other pod; nothing else changes a version. */
  lemma VersionsRiseByOne(m: Manager, e: Event, u: UID)
    ensures var m' := Step(m, e);
            u in m'.podStatuses ==>
              if e.Set? && e.pod.uid == u && Stores(m, e.pod, e.status, e.mirror, e.force, e.now)
              then m'.podStatuses[u].version == VersionOf(m, u) + 1
              else u in m.podStatuses && m'.podStatuses[u] == m.podStatuses[u]
  {
    hide Stores, Prepared;
  }

  /** A start time that is stored stays, for as long as the pod has an entry. */
  lemma StartTimeStays(m: Manager, e: Event, u: UID)
    requires Inv(m) && u in m.podStatuses && u in Step(m, e).podStatuses
    ensures var before, after := m.podStatuses[u].status.startTime, Step(m, e).podStatuses[u].status.startTime;
            before.Some? && after.Some? && (before.value != 0 ==> after == before)
  {
    StepInv(m, e);
    if e.Set? && e.pod.uid == u {
      assert StatusOk(m.podStatuses[u].status);
      WholeSeconds(m.podStatuses[u].status.startTime.value);
    }
    hide KeepTransitionTimes, EqualByKubelet, LegalTransition;
  }

  // ---------- transition times ----------

  predicate IsTimed(kind: string) {
    kind == CONTAINERS_READY || kind == POD_READY || kind == POD_INITIALIZED || kind == POD_SCHEDULED
  }

  lemma {:induction false} SameKindsSameIndex(a: seq<PodCondition>, b: seq<PodCondition>, kind: string)
    requires |a| == |b| && forall i :: 0 <= i < |a| ==> a[i].kind == b[i].kind
    ensures ConditionIndex(a, kind) == ConditionIndex(b, kind)
  {
    if a != [] {
      assert forall i :: 0 <= i < |a[1..]| ==> a[1..][i].kind == a[i + 1].kind && b[1..][i].kind == b[i + 1].kind;
      SameKindsSameIndex(a[1..], b[1..], kind);
    }
  }

  lemma KeepOneIs(conditions: seq<PodCondition>, before: seq<PodCondition>, kind: string, now: Time, other: string)
    ensures var r := KeepTransitionTime(conditions, before, kind, now);
            (forall i :: 0 <= i < |r| ==> r[i].kind == conditions[i].kind && r[i].status == conditions[i].status) &&
            (other != kind ==> GetPodCondition(r, other) == GetPodCondition(conditions, other)) &&
            (other == kind && GetPodCondition(r, kind).Some? && GetPodCondition(before, kind).Some? &&
             GetPodCondition(before, kind).value.status == GetPodCondition(r, kind).value.status ==>
               GetPodCondition(r, kind).value.lastTransitionTime ==
                 GetPodCondition(before, kind).value.lastTransitionTime)
  {
    SameKindsSameIndex(KeepTransitionTime(conditions, before, kind, now), conditions, other);
  }

  /** The condition has kept its status, and so its transition time. */
  predicate TimeKept(r: seq<PodCondition>, before: seq<PodCondition>, kind: string) {
    GetPodCondition(r, kind).Some? && GetPodCondition(before, kind).Some? &&
    GetPodCondition(before, kind).value.status == GetPodCondition(r, kind).value.status ==>
      GetPodCondition(r, kind).value.lastTransitionTime == GetPodCondition(before, kind).value.lastTransitionTime
  }

  lemma KeepAllIs(conditions: seq<PodCondition>, before: seq<PodCondition>, now: Time, kind: string)
    requires IsTimed(kind)
    ensures TimeKept(KeepTransitionTimes(conditions, before, now), before, kind)
  {
    var c1 := KeepTransitionTime(conditions, before, CONTAINERS_READY, now);
    var c2 := KeepTransitionTime(c1, before, POD_READY, now);
    var c3 := KeepTransitionTime(c2, before, POD_INITIALIZED, now);
    KindsDiffer();
    KeepOneIs(conditions, before, CONTAINERS_READY, now, kind);
    KeepOneIs(c1, before, POD_READY, now, kind);
    KeepOneIs(c2, before, POD_INITIALIZED, now, kind);
    KeepOneIs(c3, before, POD_SCHEDULED, now, kind);
    hide KeepTransitionTime, GetPodCondition;
  }

  /** Cutting to seconds moves no time that is whole already. */
  lemma CutKeepsTime(kept: seq<PodCondition>, before: seq<PodCondition>, kind: string)
    requires TimeKept(kept, before, kind) && forall c :: c in before ==> IsWhole(c.lastTransitionTime)
    ensures TimeKept(CutConditions(kept), before, kind)
  {
    SameKindsSameIndex(CutConditions(kept), kept, kind);
    if GetPodCondition(before, kind).Some? {
      var c := GetPodCondition(before, kind).value;
      assert c in before;
      WholeSeconds(c.lastTransitionTime);
    }
    hide Seconds, IsWhole;
  }

  /** The transition time of a kubelet condition that stays present changes only when its status flips. */
  lemma TransitionTimeStays(m: Manager, e: Event, u: UID, kind: string)
    requires Inv(m) && u in m.podStatuses && u in Step(m, e).podStatuses && IsTimed(kind)
    ensures TimeKept(Step(m, e).podStatuses[u].status.conditions, m.podStatuses[u].status.conditions, kind)
  {
    if e.Set? && e.pod.uid == u && Stores(m, e.pod, e.status, e.mirror, e.force, e.now) {
      var before := m.podStatuses[u].status.conditions;
      var kept := KeepTransitionTimes(e.status.conditions, before, e.now);
      assert Step(m, e).podStatuses[u].status.conditions == CutConditions(kept);
      assert StatusOk(m.podStatuses[u].status);
      hide Step;
      KeepAllIs(e.status.conditions, before, e.now, kind);
      CutKeepsTime(kept, before, kind);
    }
    hide KeepTransitionTimes, Stores, TimeKept, Prepared;
  }
}
