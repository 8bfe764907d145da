/** What the status manager keeps over whole runs. */
module StatusManagerRuns {
  import opened Wrappers
  import opened Api
  import opened PodConditions
  import opened ContainerStatuses
  import opened StatusOrder
  import opened StatusNormalize
  import opened PodStatusGenerate
  import opened StatusManagerModel

  // ---------- containers that must not restart ----------

  predicate Listed(s: seq<ContainerStatus>, name: string) {
    exists x :: x in s && x.name == name
  }

  predicate AllTerminated(s: seq<ContainerStatus>, name: string) {
    Listed(s, name) && forall x :: x in s && x.name == name ==> x.state.terminated.Some?
  }

  /** The container's status in an entry, among the containers or the init containers. */
  function Side(s: PodStatus, init: bool): seq<ContainerStatus> {
    if init then s.initContainerStatuses else s.containerStatuses
  }

  /** Normalising keeps which names are listed, and which states are terminated. */
  lemma NormalizedSide(spec: PodSpec, status: PodStatus, init: bool, name: string)
    ensures Listed(Side(Normalize(spec, status), init), name) <==> Listed(Side(status, init), name)
    ensures AllTerminated(Side(Normalize(spec, status), init), name) <==> AllTerminated(Side(status, init), name)
  {
    var bytes, s := BytesPerStatus(spec), Side(status, init);
    var r := Side(Normalize(spec, status), init);
    if init {
      ArrangePermutes(NamesOf(spec.initContainers), CutAll(s, bytes), 0);
    } else {
      NameSortedLength(CutAll(s, bytes));
    }
    hide Arrange, NameSorted;
    forall x ensures x in r <==> x in CutAll(s, bytes) {
      assert init ==> (x in multiset(r) <==> x in multiset(CutAll(s, bytes)));
    }
    CutNames(s, bytes, name);
  }

  lemma CutNames(s: seq<ContainerStatus>, bytes: nat, name: string)
    ensures Listed(CutAll(s, bytes), name) <==> Listed(s, name)
    ensures AllTerminated(CutAll(s, bytes), name) <==> AllTerminated(s, name)
  {
    Alike(CutAll(s, bytes), s, name);
    Alike(s, CutAll(s, bytes), name);
  }

  lemma Alike(a: seq<ContainerStatus>, b: seq<ContainerStatus>, name: string)
    requires |a| == |b|
    requires forall i :: 0 <= i < |a| ==>
             a[i].name == b[i].name && a[i].state.terminated.Some? == b[i].state.terminated.Some?
    ensures Listed(a, name) ==> Listed(b, name)
    ensures AllTerminated(a, name) ==> AllTerminated(b, name)
  {
    if x :| x in a && x.name == name {
      var i :| 0 <= i < |a| && a[i] == x;
      assert b[i] in b && b[i].name == name;
    }
    forall y | y in b && y.name == name && AllTerminated(a, name) ensures y.state.terminated.Some? {
      var i :| 0 <= i < |b| && b[i] == y;
      assert a[i] in a && a[i].name == name;
    }
  }

  /** What is stored for the pod goes on under the policy Never and goes on listing the container. */
  ghost predicate KeepsListing(m: Manager, es: seq<Event>, u: UID, init: bool, name: string)
    decreases |es|
  {
    es != [] ==>
      u in Step(m, es[0]).podStatuses && Listed(Side(Step(m, es[0]).podStatuses[u].status, init), name) &&
      (es[0].Set? && es[0].pod.uid == u ==> es[0].pod.spec.restartPolicy == RestartPolicyNever) &&
      KeepsListing(Step(m, es[0]), es[1..], u, init, name)
  }

  lemma TerminatedStep(m: Manager, e: Event, u: UID, init: bool, name: string)
    requires u in m.podStatuses && AllTerminated(Side(m.podStatuses[u].status, init), name)
    requires u in Step(m, e).podStatuses && Listed(Side(Step(m, e).podStatuses[u].status, init), name)
    requires e.Set? && e.pod.uid == u ==> e.pod.spec.restartPolicy == RestartPolicyNever
    ensures AllTerminated(Side(Step(m, e).podStatuses[u].status, init), name)
  {
    if e.Set? && e.pod.uid == u && Stores(m, e.pod, e.status, e.mirror, e.force, e.now) {
      var before := m.podStatuses[u].status;
      var s := e.status.(conditions := KeepTransitionTimes(e.status.conditions, before.conditions, e.now),
                         startTime := KeepStartTime(e.status.startTime, before.startTime, e.now));
      assert Step(m, e).podStatuses[u].status == Normalize(e.pod.spec, s) && Side(s, init) == Side(e.status, init);
      NormalizedSide(e.pod.spec, s, init, name);
      var b :| b in Side(before, init) && b.name == name;
      assert Final(b, RestartPolicyNever);
      assert LegalTransition(Side(before, init), Side(e.status, init), RestartPolicyNever);
      hide Normalize, KeepTransitionTimes, EqualByKubelet, Prepared;
    }
  }

  /** Under the policy Never a container that is stored as terminated stays so for as long as it is listed. */
  lemma {:induction false} TerminatedStays(m: Manager, es: seq<Event>, u: UID, init: bool, name: string)
    requires u in m.podStatuses && AllTerminated(Side(m.podStatuses[u].status, init), name)
    requires KeepsListing(m, es, u, init, name)
    ensures u in Exec(m, es).podStatuses && AllTerminated(Side(Exec(m, es).podStatuses[u].status, init), name)
    decreases |es|
  {
    if es != [] {
      TerminatedStep(m, es[0], u, init, name);
      TerminatedStays(Step(m, es[0]), es[1..], u, init, name);
    }
  }

  // ---------- versions sent to the API server ----------

  /** The versions recorded for `u` since its record was last dropped. */
  function Written(m: Manager, e: Event, u: UID, log: seq<nat>): seq<nat> {
    match e
    case Sync(env, r, a) => if Writes(m, env, r, a) && a.fetched.pod.uid == u then log + [r.status.version] else log
    case Reset(uid) => if uid == u then [] else log
    case _ => log
  }

  function WrittenAll(m: Manager, es: seq<Event>, u: UID, log: seq<nat>): seq<nat>
    decreases |es|
  {
    if es == [] then log else WrittenAll(Step(m, es[0]), es[1..], u, Written(m, es[0], u, log))
  }

  /** `u` is the UID of a pod that is no mirror pod and is not being deleted. */
  ghost predicate Plain(es: seq<Event>, u: UID) {
    u != "" && forall i :: 0 <= i < |es| && es[i].Sync? ==>
      u !in es[i].env.mirrorToPod && (u in es[i].env.pods ==> es[i].env.pods[u].deletionTimestamp.None?)
  }

  ghost predicate StrictlyIncreasing(log: seq<nat>) {
    forall i, j :: 0 <= i < j < |log| ==> log[i] < log[j]
  }

  ghost predicate LogOk(m: Manager, u: UID, log: seq<nat>) {
    StrictlyIncreasing(log) && (u in m.apiStatusVersions <==> log != []) &&
    (log != [] ==> m.apiStatusVersions[u] == log[|log| - 1])
  }

  /** A write that does not raise the recorded version is one that is let through to delete the pod. */
  lemma OlderOnlyToDelete(m: Manager, env: Env, r: Request, a: Answer)
    requires Writes(m, env, r, a) && r.uid in m.apiStatusVersions && r.status.version <= m.apiStatusVersions[r.uid]
    ensures r.uid in env.pods && CanBeDeleted(env, env.pods[r.uid]) && env.pods[r.uid].deletionTimestamp.Some?
  {
  }

  lemma WrittenStep(m: Manager, e: Event, u: UID, log: seq<nat>)
    requires LogOk(m, u, log) && Plain([e], u)
    ensures LogOk(Step(m, e), u, Written(m, e, u, log))
  {
    assert [e][0] == e;
    if e.Sync? && Writes(m, e.env, e.request, e.answer) && e.answer.fetched.pod.uid == u {
      assert e.request.uid == u;
      if u in m.apiStatusVersions && e.request.status.version <= m.apiStatusVersions[u] {
        OlderOnlyToDelete(m, e.env, e.request, e.answer);
      }
    }
  }

  /** Between two resets of the record, the versions written for such a pod strictly increase. */
  lemma {:induction false} WrittenVersionsIncrease(m: Manager, es: seq<Event>, u: UID, log: seq<nat>)
    requires LogOk(m, u, log) && Plain(es, u)
    ensures LogOk(Exec(m, es), u, WrittenAll(m, es, u, log))
    decreases |es|
  {
    if es != [] {
      assert Plain([es[0]], u) by { assert [es[0]][0] == es[0]; }
      WrittenStep(m, es[0], u, log);
      assert forall i :: 0 <= i < |es[1..]| ==> es[1..][i] == es[i + 1];
      WrittenVersionsIncrease(Step(m, es[0]), es[1..], u, Written(m, es[0], u, log));
    }
  }

  /** The versions written from the beginning on for such a pod strictly increase from each reset to the next. */
  lemma WrittenSinceReset(es: seq<Event>, u: UID)
    requires Plain(es, u)
    ensures StrictlyIncreasing(WrittenAll(NEW_MANAGER, es, u, []))
    ensures u in Exec(NEW_MANAGER, es).apiStatusVersions ==>
              WrittenAll(NEW_MANAGER, es, u, []) != [] &&
              Exec(NEW_MANAGER, es).apiStatusVersions[u] == Last(WrittenAll(NEW_MANAGER, es, u, []))
  {
    WrittenVersionsIncrease(NEW_MANAGER, es, u, []);
  }

  function Last(log: seq<nat>): nat {
    if log == [] then 0 else log[|log| - 1]
  }

  // ---------- versions and start times of entries ----------

  /** The pod has an entry in every state the run goes through. */
  ghost predicate KeptThroughout(m: Manager, es: seq<Event>, u: UID)
    decreases |es|
  {
    u in m.podStatuses && (es != [] ==> KeptThroughout(Step(m, es[0]), es[1..], u))
  }

  /** How often a status has been stored for `u` since its entry began. */
  function StoreCount(m: Manager, e: Event, u: UID, n: nat): nat {
    if u !in Step(m, e).podStatuses then 0
    else if e.Set? && e.pod.uid == u && Stores(m, e.pod, e.status, e.mirror, e.force, e.now) then n + 1
    else n
  }

  function StoreCounts(m: Manager, es: seq<Event>, u: UID, n: nat): nat
    decreases |es|
  {
    if es == [] then n else StoreCounts(Step(m, es[0]), es[1..], u, StoreCount(m, es[0], u, n))
  }

  lemma {:induction false} VersionIsStoreCount(m: Manager, es: seq<Event>, u: UID)
    ensures VersionOf(Exec(m, es), u) == StoreCounts(m, es, u, VersionOf(m, u))
    decreases |es|
  {
    if es != [] {
      VersionsRiseByOne(m, es[0], u);
      hide Step, Stores;
      VersionIsStoreCount(Step(m, es[0]), es[1..], u);
    }
  }

  /** Over every run the version of an entry is the number of stores since the entry began. */
  lemma VersionsCountStores(es: seq<Event>, u: UID)
    ensures VersionOf(Exec(NEW_MANAGER, es), u) == StoreCounts(NEW_MANAGER, es, u, 0)
  {
    VersionIsStoreCount(NEW_MANAGER, es, u);
  }

  lemma {:induction false} RunInv(m: Manager, es: seq<Event>)
    requires Inv(m)
    ensures Inv(Exec(m, es))
    decreases |es|
  {
    if es != [] {
      StepInv(m, es[0]);
      RunInv(Step(m, es[0]), es[1..]);
    }
  }

  lemma {:induction false} StartTimeKept(m: Manager, es: seq<Event>, u: UID)
    requires Inv(m) && KeptThroughout(m, es, u)
    ensures u in Exec(m, es).podStatuses
    ensures var before, after := m.podStatuses[u].status.startTime, Exec(m, es).podStatuses[u].status.startTime;
            before.Some? && after.Some? && (before.value != 0 ==> after == before)
    decreases |es|
  {
    if es != [] {
      StepInv(m, es[0]);
      StartTimeStays(m, es[0], u);
      hide Step;
      StartTimeKept(Step(m, es[0]), es[1..], u);
    } else {
      assert StatusOk(m.podStatuses[u].status);
    }
  }

  /** Over every run, a start time that is stored once stays for as long as the pod has an entry. */
  lemma StartTimeSurvives(es: seq<Event>, fs: seq<Event>, u: UID)
    requires KeptThroughout(Exec(NEW_MANAGER, es), fs, u)
    ensures var m := Exec(NEW_MANAGER, es);
            u in m.podStatuses && u in Exec(m, fs).podStatuses &&
            var before, after := m.podStatuses[u].status.startTime, Exec(m, fs).podStatuses[u].status.startTime;
            before.Some? && after.Some? && (before.value != 0 ==> after == before)
  {
    RunInv(NEW_MANAGER, es);
    StartTimeKept(Exec(NEW_MANAGER, es), fs, u);
  }

  // ---------- transition times of conditions ----------

  /** Every state the run goes through has the kubelet's condition, with this status. */
  ghost predicate StatusThroughout(m: Manager, es: seq<Event>, u: UID, kind: string, status: ConditionStatus)
    decreases |es|
  {
    u in m.podStatuses && HasStatus(m.podStatuses[u].status.conditions, kind, status) &&
    (es != [] ==> StatusThroughout(Step(m, es[0]), es[1..], u, kind, status))
  }

  predicate HasStatus(conditions: seq<PodCondition>, kind: string, status: ConditionStatus) {
    GetPodCondition(conditions, kind).Some? && GetPodCondition(conditions, kind).value.status == status
  }

  function TimeOf(conditions: seq<PodCondition>, kind: string): Time {
    if GetPodCondition(conditions, kind).Some? then GetPodCondition(conditions, kind).value.lastTransitionTime else 0
  }

  lemma {:induction false} TransitionTimeKept(
      m: Manager, es: seq<Event>, u: UID, kind: string, status: ConditionStatus)
    requires Inv(m) && IsTimed(kind) && StatusThroughout(m, es, u, kind, status)
    ensures u in Exec(m, es).podStatuses
    ensures TimeOf(Exec(m, es).podStatuses[u].status.conditions, kind) ==
            TimeOf(m.podStatuses[u].status.conditions, kind)
    decreases |es|
  {
    if es != [] {
      StepInv(m, es[0]);
      TransitionTimeStays(m, es[0], u, kind);
      hide Step, Inv, IsTimed, GetPodCondition;
      TransitionTimeKept(Step(m, es[0]), es[1..], u, kind, status);
    }
  }

  /** Over every run, the transition time of a kubelet condition stays for as long as its status does. */
  lemma TransitionTimeSurvives(es: seq<Event>, fs: seq<Event>, u: UID, kind: string, status: ConditionStatus)
    requires IsTimed(kind) && StatusThroughout(Exec(NEW_MANAGER, es), fs, u, kind, status)
    ensures var m := Exec(NEW_MANAGER, es);
            u in m.podStatuses && u in Exec(m, fs).podStatuses &&
            TimeOf(Exec(m, fs).podStatuses[u].status.conditions, kind) ==
              TimeOf(m.podStatuses[u].status.conditions, kind)
  {
    RunInv(NEW_MANAGER, es);
    TransitionTimeKept(Exec(NEW_MANAGER, es), fs, u, kind, status);
  }

  // ---------- start times are set ----------

  predicate PastFirstSecond(t: Option<Time>) {
    IsSet(t) ==> t.value >= SECOND
  }

  /** The clock and the start times that are handed in are past the first second. */
  predicate Timely(e: Event) {
    e.Set? ==>
      e.now >= SECOND && PastFirstSecond(e.status.startTime) && PastFirstSecond(e.pod.status.startTime) &&
      (e.mirror.Some? ==> PastFirstSecond(e.mirror.value.startTime))
  }

  ghost predicate AllStarted(m: Manager) {
    forall u :: u in m.podStatuses ==> Started(m.podStatuses[u].status)
  }

  predicate Started(s: PodStatus) {
    IsSet(s.startTime) && s.startTime.value >= SECOND
  }

  lemma PreparedStarted(spec: PodSpec, status: PodStatus, before: PodStatus, now: Time)
    requires now >= SECOND && PastFirstSecond(status.startTime) && PastFirstSecond(before.startTime)
    ensures Started(Prepared(spec, status, before, now))
  {
    hide KeepTransitionTimes;
  }

  /** Over every such run, every entry has a start time. */
  lemma {:induction false} StartTimesAreSet(m: Manager, es: seq<Event>)
    requires AllStarted(m) && forall e :: e in es ==> Timely(e)
    ensures AllStarted(Exec(m, es))
    decreases |es|
  {
    if es != [] {
      var e := es[0];
      assert Timely(e);
      if e.Set? { PreparedStarted(e.pod.spec, e.status, StatusBefore(m, e.pod, e.mirror), e.now); }
      hide Prepared, Stores, Started, Timely;
      StartTimesAreSet(Step(m, e), es[1..]);
    }
  }

  // ---------- terminal phases ----------

  /** One round of a worker: a status is generated from the cached one and set. */
  datatype Round = Round(
    pod: Pod, statuses: seq<ContainerStatus>, inits: seq<ContainerStatus>, probes: Probes,
    mirror: Option<PodStatus>, force: bool, now: Time)

  function SetGenerated(m: Manager, r: Round): Event {
    var before := if r.pod.uid in m.podStatuses then m.podStatuses[r.pod.uid].status else r.pod.status;
    Set(r.pod, Generated(r.pod, before, r.statuses, r.inits, r.probes), r.mirror, r.force, r.now)
  }

  /** A run in which every status that is set for `u` has been generated from the cached one. */
  ghost predicate GeneratedOnly(m: Manager, es: seq<Event>, u: UID)
    decreases |es|
  {
    es != [] ==>
      (es[0].Set? && es[0].pod.uid == u ==> exists r :: es[0] == SetGenerated(m, r)) &&
      GeneratedOnly(Step(m, es[0]), es[1..], u)
  }

  lemma TerminalStep(m: Manager, e: Event, u: UID)
    requires u in m.podStatuses && IsPhaseTerminal(m.podStatuses[u].status.phase) && u in Step(m, e).podStatuses
    requires e.Set? && e.pod.uid == u ==> exists r :: e == SetGenerated(m, r)
    ensures IsPhaseTerminal(Step(m, e).podStatuses[u].status.phase)
  {
    if e.Set? && e.pod.uid == u {
      var r :| e == SetGenerated(m, r);
      TerminalPhasesAbsorb(r.pod, m.podStatuses[u].status, r.statuses, r.inits, r.probes);
      hide Generated, Stores, KeepTransitionTimes;
    }
  }

  /** Over any run of generating and setting, the cached phase of a pod that has ended does not come back. */
  lemma {:induction false} TerminalPhaseStays(m: Manager, es: seq<Event>, u: UID)
    requires u in m.podStatuses && IsPhaseTerminal(m.podStatuses[u].status.phase)
    requires GeneratedOnly(m, es, u) && KeptThroughout(m, es, u)
    ensures u in Exec(m, es).podStatuses && IsPhaseTerminal(Exec(m, es).podStatuses[u].status.phase)
    decreases |es|
  {
    if es != [] {
      TerminalStep(m, es[0], u);
      hide SetGenerated;
      TerminalPhaseStays(Step(m, es[0]), es[1..], u);
    }
  }
}
