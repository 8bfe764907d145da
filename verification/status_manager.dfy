/** The status manager as the object whose caches its methods change. */
module StatusManager {
  import opened Wrappers
  import opened Api
  import opened PodConditions
  import opened StatusNormalize
  import opened StatusManagerModel

  /** No container that must stay terminated is listed in another state. */
  method CheckContainerStateTransition(
      before: seq<ContainerStatus>, after: seq<ContainerStatus>, policy: RestartPolicy)
      returns (legal: bool)
    ensures legal <==> forall b, a :: b in before && a in after && b.name == a.name && Final(b, policy) ==>
            a.state.terminated.Some?
    ensures legal == LegalTransition(before, after, policy)
  {
    if policy == RestartPolicyAlways { return true; }
    for i := 0 to |before|
      invariant forall k, a :: 0 <= k < i && a in after && before[k].name == a.name && Final(before[k], policy) ==>
                a.state.terminated.Some?
    {
      if before[i].state.terminated.Some? &&
         !(before[i].state.terminated.value.exitCode != 0 && policy == RestartPolicyOnFailure)
      {
        for j := 0 to |after|
          invariant forall k :: 0 <= k < j && before[i].name == after[k].name ==> after[k].state.terminated.Some?
        {
          if before[i].name == after[j].name && after[j].state.terminated.None? {
            assert before[i] in before && after[j] in after && Final(before[i], policy);
            return false;
          }
        }
      }
    }
    legal := true;
  }

  method UpdateLastTransitionTime(
      conditions: seq<PodCondition>, before: seq<PodCondition>, kind: string, now: Time)
      returns (r: seq<PodCondition>)
    ensures r == KeepTransitionTime(conditions, before, kind, now)
  {
    var i, condition := FindCondition(conditions, kind);
    if condition.None? { return conditions; }
    var lastTransitionTime := now;
    var _, prior := FindCondition(before, kind);
    if prior.Some? && condition.value.status == prior.value.status {
      lastTransitionTime := prior.value.lastTransitionTime;
    }
    r := conditions[i := condition.value.(lastTransitionTime := lastTransitionTime)];
  }

  /** Equal but for conditions of others and the times of conditions. */
  method IsPodStatusByKubeletEqual(before: PodStatus, status: PodStatus) returns (equal: bool)
    ensures equal == EqualByKubelet(before, status)
  {
    for i := 0 to |status.conditions|
      invariant forall j :: 0 <= j < i && IsKubeletCondition(status.conditions[j].kind) ==>
                SameCondition(before.conditions, status.conditions[j])
    {
      var c := status.conditions[i];
      if IsKubeletCondition(c.kind) {
        var _, b := FindCondition(before.conditions, c.kind);
        if b.None? || b.value.status != c.status || b.value.message != c.message || b.value.reason != c.reason {
          assert c in status.conditions && !SameCondition(before.conditions, c);
          return false;
        }
      }
    }
    equal := before.(conditions := status.conditions) == status;
  }

  class StatusManager {
    var podStatuses: map<UID, Versioned>
    var podStatusChannel: seq<Request>
    var apiStatusVersions: map<UID, nat>

    function View(): Manager
      reads this
    {
      Manager(podStatuses, podStatusChannel, apiStatusVersions)
    }

    constructor ()
      ensures View() == NEW_MANAGER
    {
      podStatuses, podStatusChannel, apiStatusVersions := map[], [], map[];
    }

    /** The status as it would be stored. */
    method Prepare(spec: PodSpec, status: PodStatus, before: PodStatus, now: Time) returns (r: PodStatus)
      ensures r == Prepared(spec, status, before, now)
    {
      var conditions := UpdateLastTransitionTime(status.conditions, before.conditions, CONTAINERS_READY, now);
      conditions := UpdateLastTransitionTime(conditions, before.conditions, POD_READY, now);
      conditions := UpdateLastTransitionTime(conditions, before.conditions, POD_INITIALIZED, now);
      conditions := UpdateLastTransitionTime(conditions, before.conditions, POD_SCHEDULED, now);
      var startTime := status.startTime;
      if before.startTime.Some? && before.startTime.value != 0 {
        startTime := before.startTime;
      } else if status.startTime.None? || status.startTime.value == 0 {
        startTime := Some(now);
      }
      hide KeepTransitionTime;
      r := NormalizeStatus(spec, status.(conditions := conditions, startTime := startTime));
    }

    /** Whether the status is stored, and in which form. */
    method CheckUpdate(pod: Pod, status: PodStatus, mirror: Option<PodStatus>, forceUpdate: bool, now: Time)
      returns (store: bool, next: PodStatus)
      ensures store == Stores(View(), pod, status, mirror, forceUpdate, now)
      ensures store ==> next == Prepared(pod.spec, status, StatusBefore(View(), pod, mirror), now)
    {
      var isCached := pod.uid in podStatuses;
      var before := if isCached then podStatuses[pod.uid].status else if mirror.Some? then mirror.value else pod.status;
      next := status;
      var legal := CheckContainerStateTransition(before.containerStatuses, status.containerStatuses,
                                                 pod.spec.restartPolicy);
      if !legal { return false, next; }
      legal := CheckContainerStateTransition(before.initContainerStatuses, status.initContainerStatuses,
                                             pod.spec.restartPolicy);
      if !legal { return false, next; }
      next := Prepare(pod.spec, status, before, now);
      hide Prepared, LegalTransition, EqualByKubelet;
      if isCached && !forceUpdate {
        var same := IsPodStatusByKubeletEqual(podStatuses[pod.uid].status, next);
        if same { return false, next; }
      }
      store := true;
    }

    /** Stores the status and asks for it to be sent, unless the change is illegal or there is none. `mirror` is the
        status of the mirror pod, if there is one. */
    method UpdateStatusInternal(
        pod: Pod, status: PodStatus, mirror: Option<PodStatus>, forceUpdate: bool, now: Time)
        returns (triggered: bool)
      modifies this`podStatuses, this`podStatusChannel
      ensures View() == Update(old(View()), pod, status, mirror, forceUpdate, now)
      ensures triggered <==>
              Stores(old(View()), pod, status, mirror, forceUpdate, now) && |old(podStatusChannel)| < CHANNEL_CAPACITY
    {
      var store, next := CheckUpdate(pod, status, mirror, forceUpdate, now);
      hide Stores, Prepared, StatusBefore;
      if !store { return false; }
      var version := (if pod.uid in podStatuses then podStatuses[pod.uid].version else 0) + 1;
      var newStatus := Versioned(next, version, pod.name, pod.namespace);
      podStatuses := podStatuses[pod.uid := newStatus];
      if |podStatusChannel| < CHANNEL_CAPACITY {
        podStatusChannel := podStatusChannel + [Request(pod.uid, newStatus)];
        return true;
      }
      triggered := false;
    }

    /** A pod that is being deleted is updated even if nothing changed. */
    method SetPodStatus(pod: Pod, status: PodStatus, mirror: Option<PodStatus>, now: Time)
      modifies this`podStatuses, this`podStatusChannel
      ensures View() == Step(old(View()), Set(pod, status, mirror, pod.deletionTimestamp.Some?, now))
    {
      var triggered := UpdateStatusInternal(pod, status, mirror, pod.deletionTimestamp.Some?, now);
    }

    /** Whether the recorded version is behind, or the pod is ready to be deleted. */
    method IsStale(env: Env, uid: UID, status: Versioned) returns (stale: bool)
      ensures stale == NeedsUpdate(View(), env, uid, status.version)
    {
      if uid !in apiStatusVersions || apiStatusVersions[uid] < status.version { return true; }
      if uid !in env.pods { return false; }
      stale := CanBeDeleted(env, env.pods[uid]);
    }

    /** Sends a status to the API server, which answers `a`. */
    method SyncOne(env: Env, r: Request, a: Answer)
      modifies this`podStatuses, this`apiStatusVersions
      ensures View() == SyncPod(old(View()), env, r, a)
    {
      var stale := IsStale(env, r.uid, r.status);
      if !stale { return; }
      if !a.fetched.Found? { return; }
      var pod := a.fetched.pod;
      var translated := Translate(env, pod.uid);
      if |translated| > 0 && translated != r.uid {
        podStatuses := podStatuses - {r.uid};
        return;
      }
      if a.patch.PatchFailed? { return; }
      pod := AfterPatch(pod, a.patch);
      apiStatusVersions := apiStatusVersions[pod.uid := r.status.version];
      if CanBeDeleted(env, pod) && a.deleted { podStatuses := podStatuses - {r.uid}; }
    }

    /** Drops the records of pods that have neither a status nor a mirror. */
    method CleanOrphans(env: Env) returns (ghost es: seq<Event>)
      modifies this`apiStatusVersions
      ensures View() == Exec(old(View()), es) && forall e :: e in es ==> e.Reset?
      ensures forall u :: u in apiStatusVersions <==>
              u in old(apiStatusVersions) && (u in podStatuses || u in env.mirrorToPod)
    {
      es := [];
      var left := apiStatusVersions.Keys;
      while left != {}
        invariant podStatuses == old(podStatuses)
        invariant View() == Exec(old(View()), es) && forall e :: e in es ==> e.Reset?
        invariant forall u :: u in apiStatusVersions <==>
                  u in old(apiStatusVersions) && (u in left || u in podStatuses || u in env.mirrorToPod)
        invariant left <= old(apiStatusVersions).Keys
        decreases left
      {
        var uid :| uid in left;
        left := left - {uid};
        if uid !in podStatuses && uid !in env.mirrorToPod {
          ExecOneMore(old(View()), es, Reset(uid));
          es := es + [Reset(uid)];
          apiStatusVersions := apiStatusVersions - {uid};
        }
      }
    }

    /** Whether the API server's status differs from the cached one. A static pod is judged by its mirror. */
    method NeedsReconcile(env: Env, uid: UID, status: PodStatus) returns (needs: bool)
      ensures needs == Differs(env, uid, status)
    {
      if uid !in env.pods { return false; }
      var pod := env.pods[uid];
      if IsStaticPod(pod) {
        if uid !in env.mirrors { return false; }
        pod := env.mirrors[uid];
      }
      var podStatus := NormalizeStatus(pod.spec, pod.status);
      var same := IsPodStatusByKubeletEqual(podStatus, status);
      needs := !same;
    }

    /** The statuses to send, in the arbitrary order of the map; a record that has to be refreshed is dropped. */
    method CollectUpdates(env: Env) returns (updates: seq<Request>, ghost es: seq<Event>)
      modifies this`apiStatusVersions
      ensures View() == Exec(old(View()), es) && forall e :: e in es ==> e.Reset?
      ensures forall r :: r in updates ==> r.uid in podStatuses && podStatuses[r.uid] == r.status
      ensures forall u :: u in podStatuses && MustSend(old(View()), env, u, podStatuses[u]) ==>
              Request(u, podStatuses[u]) in updates
      ensures forall r :: r in updates ==>
              MustSend(old(View()), env, r.uid, r.status) || Synced(env, r.uid) !in apiStatusVersions
    {
      hide Differs, CanBeDeleted;
      updates, es := [], [];
      var left := podStatuses.Keys;
      while left != {}
        invariant left <= podStatuses.Keys && podStatuses == old(podStatuses)
        invariant View() == Exec(old(View()), es) && forall e :: e in es ==> e.Reset?
        invariant forall r :: r in updates ==> r.uid in podStatuses && podStatuses[r.uid] == r.status
        invariant forall u :: u in apiStatusVersions ==>
                  u in old(apiStatusVersions) && apiStatusVersions[u] == old(apiStatusVersions)[u]
        invariant forall r :: r in updates ==>
                  MustSend(old(View()), env, r.uid, r.status) || Synced(env, r.uid) !in apiStatusVersions
        invariant forall u :: u in podStatuses.Keys - left && MustSend(old(View()), env, u, podStatuses[u]) ==>
                  Request(u, podStatuses[u]) in updates
        decreases left
      {
        var uid :| uid in left;
        left := left - {uid};
        var status := podStatuses[uid];
        var syncedUID := uid;
        if uid in env.podToMirror {
          if env.podToMirror[uid] == "" { continue; }
          syncedUID := env.podToMirror[uid];
        }
        var stale := IsStale(env, syncedUID, status);
        var reconcile := NeedsReconcile(env, uid, status.status);
        if stale {
          updates := updates + [Request(uid, status)];
        } else if reconcile {
          ExecOneMore(old(View()), es, Reset(syncedUID));
          es := es + [Reset(syncedUID)];
          apiStatusVersions := apiStatusVersions - {syncedUID};
          updates := updates + [Request(uid, status)];
        }
      }
    }

    /** One batch: what it does to the caches is a run of resets and syncs. */
    method SyncBatch(env: Env, answers: map<UID, Answer>) returns (ghost es: seq<Event>)
      modifies this`podStatuses, this`apiStatusVersions
      ensures View() == Exec(old(View()), es) && forall e :: e in es ==> e.Reset? || (e.Sync? && e.env == env)
    {
      es := CleanOrphans(env);
      ghost var start := es;
      var updates;
      ghost var more;
      updates, more := CollectUpdates(env);
      ExecConcat(old(View()), start, more);
      es := start + more;
      for i := 0 to |updates|
        invariant View() == Exec(old(View()), es) && forall e :: e in es ==> e.Reset? || (e.Sync? && e.env == env)
      {
        var a := if updates[i].uid in answers then answers[updates[i].uid] else Answer(FetchFailed, PatchFailed, false);
        ExecOneMore(old(View()), es, Sync(env, updates[i], a));
        es := es + [Sync(env, updates[i], a)];
        SyncOne(env, updates[i], a);
      }
    }
  }

  lemma {:induction false} ExecConcat(m: Manager, xs: seq<Event>, ys: seq<Event>)
    ensures Exec(m, xs + ys) == Exec(Exec(m, xs), ys)
    decreases |xs|
  {
    if xs == [] {
      assert xs + ys == ys;
    } else {
      assert (xs + ys)[1..] == xs[1..] + ys;
      ExecConcat(Step(m, xs[0]), xs[1..], ys);
      hide Step;
    }
  }

  lemma ExecOneMore(m: Manager, es: seq<Event>, e: Event)
    ensures Exec(m, es + [e]) == Step(Exec(m, es), e)
  {
    ExecConcat(m, es, [e]);
    assert Exec(Exec(m, es), [e]) == Step(Exec(m, es), e);
  }
}
