/** The API status of a pod, generated from what the runtime reports, the status known before and the API's own. */
module PodStatuses {
  import opened Wrappers
  import opened Api
  import opened ContainerStatuses
  import opened StatusOrder
  import opened PodPhases
  import opened PodConditions

  // ---------- container statuses, pass by pass ----------

  /** Statuses are kept under their names. */
  ghost predicate Named(m: Statuses) {
    forall n :: n in m ==> m[n].name == n
  }

  method PreviousStatuses(previous: seq<ContainerStatus>) returns (m: Statuses)
    ensures m == Previous(previous) && Named(m)
  {
    m := map[];
    for i := 0 to |previous|
      invariant m == Previous(previous[..i]) && Named(m)
    {
      assert previous[..i + 1][..i] == previous[..i];
      m := m[previous[i].name := previous[i]];
    }
    assert previous[..|previous|] == previous;
  }

  method DefaultStatuses(containers: seq<Container>, before: Statuses, reason: string) returns (m: Statuses)
    requires Named(before)
    ensures m == Defaults(containers, before, reason) && Named(m)
  {
    m := map[];
    for i := 0 to |containers|
      invariant m == Defaults(containers[..i], before, reason) && Named(m)
    {
      assert containers[..i + 1][..i] == containers[..i];
      var c := containers[i];
      var status := ContainerStatus(c.name, JustWaiting(reason, ""), NO_STATE, false, 0, c.image, "", "");
      if c.name in before {
        if before[c.name].state.terminated.Some? {
          status := before[c.name];
        } else {
          status := status.(restartCount := before[c.name].restartCount,
                            lastTerminationState := before[c.name].lastTerminationState);
        }
      }
      m := m[c.name := status];
    }
    assert containers[..|containers|] == containers;
  }

  method IsReported(reported: seq<Reported>, name: string) returns (found: Option<Reported>)
    ensures found == Find(reported, name)
  {
    for i := 0 to |reported|
      invariant Find(reported, name) == Find(reported[i..], name)
    {
      if reported[i].name == name { return Some(reported[i]); }
      assert reported[i..][1..] == reported[i + 1..];
    }
    found := None;
  }

  /** Sets the last termination of a container that was running and is gone. */
  method InferStopOf(
      start: ContainerStatus, before: Option<ContainerStatus>, found: Option<Reported>, reason: string, deleted: bool)
    returns (status: ContainerStatus)
    ensures status == InferStop(start, before, found.Some?, reason, deleted) && status.name == start.name
  {
    status := start;
    if found.Some? || before.None? { return; }
    if before.value.state.terminated.Some? || before.value.state.running.None? { return; }
    var isDefaultWaitingStatus := status.state.waiting.Some? && status.state.waiting.value.reason == reason;
    if !isDefaultWaitingStatus || status.lastTerminationState.terminated.Some? { return; }
    status := status.(lastTerminationState := status.lastTerminationState.(
      terminated := Some(Terminated(137, CONTAINER_STATUS_UNKNOWN, LOST_WHEN_DELETED, 0, 0, ""))));
    if !deleted { status := status.(restartCount := status.restartCount + 1); }
  }

  method InferStopped(
      containers: seq<Container>, start: Statuses, before: Statuses, reported: seq<Reported>, reason: string,
      deleted: bool)
    returns (m: Statuses)
    requires Covers(start, containers) && Named(start)
    ensures m == InferStops(containers, start, before, reported, reason, deleted) && Named(m)
  {
    hide InferStop;
    m := start;
    for i := 0 to |containers|
      invariant m.Keys == start.Keys && Named(m)
      invariant Covers(start, containers[..i]) &&
                m == InferStops(containers[..i], start, before, reported, reason, deleted)
    {
      assert containers[..i + 1][..i] == containers[..i];
      var name := containers[i].name;
      var found := IsReported(reported, name);
      var status := InferStopOf(m[name], Lookup(before, name), found, reason, deleted);
      m := m[name := status];
    }
    assert containers[..|containers|] == containers;
  }

  /** How many reports of a name have been seen, as far as the code counts. */
  type Seen = map<string, nat>

  function SeenCount(seen: Seen, name: string): nat {
    if name in seen then seen[name] else 0
  }

  ghost predicate Counts(seen: Seen, names: set<string>, reports: seq<Reported>) {
    forall n :: n in names ==> SeenCount(seen, n) == if |Of(reports, n)| > 2 then 2 else |Of(reports, n)|
  }

  lemma CountsOneMore(seen: Seen, names: set<string>, reports: seq<Reported>, cs: Reported)
    requires Counts(seen, names, reports)
    ensures cs.name in names && SeenCount(seen, cs.name) < 2 ==>
              Counts(seen[cs.name := SeenCount(seen, cs.name) + 1], names, reports + [cs])
    ensures cs.name !in names || SeenCount(seen, cs.name) >= 2 ==> Counts(seen, names, reports + [cs])
  {
    assert (reports + [cs])[..|reports|] == reports;
  }

  method ShowReport(
      m: Statuses, cs: Reported, containerSeen: Seen, before: Statuses)
      returns (m': Statuses, seen': Seen)
    requires Named(m)
    ensures m' == ShowOne(m, cs, SeenCount(containerSeen, cs.name), before) && Named(m')
    ensures seen' == if cs.name in m && SeenCount(containerSeen, cs.name) < 2
                     then containerSeen[cs.name := SeenCount(containerSeen, cs.name) + 1] else containerSeen
  {
    m', seen' := m, containerSeen;
    if cs.name !in m || SeenCount(containerSeen, cs.name) >= 2 { return; }
    var status := Convert(cs, Lookup(before, cs.name));
    if SeenCount(containerSeen, cs.name) == 0 {
      m' := m[cs.name := status];
    } else {
      m' := m[cs.name := m[cs.name].(lastTerminationState := status.state)];
    }
    seen' := containerSeen[cs.name := SeenCount(containerSeen, cs.name) + 1];
  }

  /** `sorted` holds the reports with the latest first. */
  method ShowReported(start: Statuses, sorted: seq<Reported>, before: Statuses) returns (m: Statuses)
    requires Named(start)
    ensures m == Show(start, sorted, before) && Named(m)
  {
    m := start;
    var containerSeen: Seen := map[];
    hide ShowOne;
    for i := 0 to |sorted|
      invariant m.Keys == start.Keys && Named(m) && m == Show(start, sorted[..i], before)
      invariant Counts(containerSeen, start.Keys, sorted[..i])
    {
      assert sorted[..i + 1] == sorted[..i] + [sorted[i]] && sorted[..i + 1][..i] == sorted[..i];
      CountsOneMore(containerSeen, start.Keys, sorted[..i], sorted[i]);
      SeenIsEnough(m, sorted[i], SeenCount(containerSeen, sorted[i].name), |Of(sorted[..i], sorted[i].name)|, before);
      m, containerSeen := ShowReport(m, sorted[i], containerSeen, before);
      hide Counts;
    }
    assert sorted[..|sorted|] == sorted;
  }

  lemma SeenIsEnough(m: Statuses, cs: Reported, seen: nat, all: nat, before: Statuses)
    requires cs.name in m ==> seen == if all > 2 then 2 else all
    ensures ShowOne(m, cs, seen, before) == ShowOne(m, cs, all, before)
  {
  }

  method AwaitRestartOf(start: ContainerStatus, pod: Pod, found: Option<Reported>, reason: Option<Reason>, isInit: bool)
    returns (status: ContainerStatus)
    ensures status == AwaitRestart(start, pod, found, reason, isInit) && status.name == start.name
  {
    status := start;
    if isInit && found.Some? && found.value.state == ContainerExited && found.value.exitCode == 0 { return; }
    if !ShouldBeRestarted(pod, found) || reason.None? { return; }
    if status.state.terminated.Some? { status := status.(lastTerminationState := status.state); }
    status := status.(state := JustWaiting(reason.value.err, reason.value.message));
  }

  method AwaitRestarting(
      containers: seq<Container>, start: Statuses, pod: Pod, reported: seq<Reported>, reasons: map<string, Reason>,
      isInit: bool)
    returns (m: Statuses)
    requires Covers(start, containers) && Named(start)
    ensures m == AwaitRestarts(containers, start, pod, reported, reasons, isInit) && Named(m)
  {
    hide AwaitRestart, AwaitRestarts;
    AwaitNone(start, pod, reported, reasons, isInit);
    m := start;
    assert containers[..0] == [];
    for i := 0 to |containers|
      invariant m.Keys == start.Keys && Named(m)
      invariant Covers(start, containers[..i]) &&
                m == AwaitRestarts(containers[..i], start, pod, reported, reasons, isInit)
    {
      AwaitOneMore(containers, i, start, pod, reported, reasons, isInit);
      var name := containers[i].name;
      var found := IsReported(reported, name);
      var status := AwaitRestartOf(m[name], pod, found, if name in reasons then Some(reasons[name]) else None, isInit);
      m := m[name := status];
    }
    assert containers[..|containers|] == containers;
  }

  lemma AwaitNone(start: Statuses, pod: Pod, reported: seq<Reported>, reasons: map<string, Reason>, isInit: bool)
    ensures AwaitRestarts([], start, pod, reported, reasons, isInit) == start
  {
  }

  lemma AwaitOneMore(
      containers: seq<Container>, i: nat, start: Statuses, pod: Pod, reported: seq<Reported>,
      reasons: map<string, Reason>, isInit: bool)
    requires i < |containers| && Covers(start, containers)
    ensures Covers(start, containers[..i]) && Covers(start, containers[..i + 1])
    ensures var m, name := AwaitRestarts(containers[..i], start, pod, reported, reasons, isInit), containers[i].name;
            name in m &&
            AwaitRestarts(containers[..i + 1], start, pod, reported, reasons, isInit) ==
            m[name := AwaitRestart(m[name], pod, Find(reported, name),
                                   if name in reasons then Some(reasons[name]) else None, isInit)]
  {
    assert containers[..i + 1][..i] == containers[..i];
    hide AwaitRestart;
  }

  ghost predicate LatestFirst(sorted: seq<Reported>, reported: seq<Reported>) {
    multiset(sorted) == multiset(reported) &&
    forall i, j :: 0 <= i < j < |sorted| ==> sorted[i].createdAt >= sorted[j].createdAt
  }

  /** `sorted` is what sorting the reports by creation, latest first, leads to. */
  method ConvertToAPIContainerStatuses(
      pod: Pod, reported: seq<Reported>, sorted: seq<Reported>, previous: seq<ContainerStatus>,
      containers: seq<Container>, reasons: map<string, Reason>, hasInit: bool, isInit: bool)
      returns (statuses: seq<ContainerStatus>)
    requires LatestFirst(sorted, reported)
    ensures var m := Derive(pod, reported, sorted, previous, containers, reasons, hasInit, isInit);
            if isInit then statuses == InSpecOrder(pod.spec.initContainers, m) else Lists(statuses, m)
  {
    var before := PreviousStatuses(previous);
    var reason := if hasInit then POD_INITIALIZING else CONTAINER_CREATING;
    var m := DefaultStatuses(containers, before, reason);
    m := InferStopped(containers, m, before, reported, reason, pod.deletionTimestamp.Some?);
    m := ShowReported(m, sorted, before);
    m := AwaitRestarting(containers, m, pod, reported, reasons, isInit);
    if isInit {
      statuses := SortStatusesOfInitContainers(pod.spec.initContainers, m);
    } else {
      statuses := SortByName(m);
    }
  }

  // ---------- what the listed statuses say ----------

  lemma {:induction false} GetIn(s: seq<ContainerStatus>, rest: seq<ContainerStatus>, m: Statuses, name: string)
    requires MapOf(m, s)
    ensures name in m ==> GetContainerStatus(s + rest, name) == Some(m[name])
  {
    if name in m {
      GetFirst(s, rest, m[name]);
      forall i | 0 <= i < |s| && s[i].name == name ensures s[i] == m[name] {}
    }
  }

  lemma {:induction false} GetFirst(s: seq<ContainerStatus>, rest: seq<ContainerStatus>, x: ContainerStatus)
    requires x in s && forall i :: 0 <= i < |s| && s[i].name == x.name ==> s[i] == x
    ensures GetContainerStatus(s + rest, x.name) == Some(x)
  {
    assert (s + rest)[0] == s[0] && (s + rest)[1..] == s[1..] + rest;
    if s[0].name != x.name { GetFirst(s[1..], rest, x); }
  }

  // ---------- the phase of the derived statuses ----------

  ghost predicate Reports(info: seq<ContainerStatus>, containers: seq<Container>, m: Statuses)
    requires Covers(m, containers)
  {
    forall c :: c in containers ==> c.name in m && GetContainerStatus(info, c.name) == Some(m[c.name])
  }

  /** The runtime lists the latest report of each name first; one report per name is the simplest case. */
  ghost predicate FindsLatest(reported: seq<Reported>, sorted: seq<Reported>, containers: seq<Container>) {
    forall c :: c in containers ==> Find(reported, c.name) == First(Of(sorted, c.name))
  }

  /** What is known about a container apart from the reason cache. */
  predicate HasNotStarted(c: Container, sorted: seq<Reported>, previous: seq<ContainerStatus>) {
    NotStarted(Of(sorted, c.name), Lookup(Previous(previous), c.name))
  }

  predicate HasVanished(c: Container, sorted: seq<Reported>, previous: seq<ContainerStatus>) {
    Vanished(Of(sorted, c.name), Lookup(Previous(previous), c.name))
  }

  /** `info` lists what is derived from the reports for the containers of the pod, which have distinct names. */
  ghost predicate DerivedInfo(
      pod: Pod, reported: seq<Reported>, sorted: seq<Reported>, previous: seq<ContainerStatus>,
      reasons: map<string, Reason>, hasInit: bool, info: seq<ContainerStatus>)
  {
    DistinctNames(pod.spec.containers) && FindsLatest(reported, sorted, pod.spec.containers) &&
    Reports(info, pod.spec.containers,
            Derive(pod, reported, sorted, previous, pod.spec.containers, reasons, hasInit, false))
  }

  function ReasonOf(reasons: map<string, Reason>, name: string): Option<Reason> {
    if name in reasons then Some(reasons[name]) else None
  }

  lemma DerivedStatus(
      pod: Pod, reported: seq<Reported>, sorted: seq<Reported>, previous: seq<ContainerStatus>,
      reasons: map<string, Reason>, hasInit: bool, info: seq<ContainerStatus>, c: Container)
    requires DerivedInfo(pod, reported, sorted, previous, reasons, hasInit, info) && c in pod.spec.containers
    ensures GetContainerStatus(info, c.name) ==
              Some(DeriveOne(c, pod, First(Of(sorted, c.name)), Of(sorted, c.name), Lookup(Previous(previous), c.name),
                             ReasonOf(reasons, c.name), hasInit, false))
  {
    hide DeriveOne, Derive, DistinctNames, Find, Of, Previous, GetContainerStatus;
    var i :| 0 <= i < |pod.spec.containers| && pod.spec.containers[i] == c;
    DeriveIs(pod, reported, sorted, previous, pod.spec.containers, reasons, hasInit, false, i);
  }

  lemma DerivedKind(
      pod: Pod, reported: seq<Reported>, sorted: seq<Reported>, previous: seq<ContainerStatus>,
      reasons: map<string, Reason>, hasInit: bool, info: seq<ContainerStatus>, c: Container)
    requires DerivedInfo(pod, reported, sorted, previous, reasons, hasInit, info) && c in pod.spec.containers
    ensures KindOf(GetContainerStatus(info, c.name)) != IsUnknown
    ensures KindOf(GetContainerStatus(info, c.name)) == IsWaiting <==> HasNotStarted(c, sorted, previous)
  {
    hide DerivedInfo, DeriveOne, NotStarted, KindOf, GetContainerStatus, Of, Previous;
    DerivedStatus(pod, reported, sorted, previous, reasons, hasInit, info, c);
    WaitingIff(c, pod, Of(sorted, c.name), Lookup(Previous(previous), c.name), ReasonOf(reasons, c.name), hasInit);
  }

  lemma DerivedVanished(
      pod: Pod, reported: seq<Reported>, sorted: seq<Reported>, previous: seq<ContainerStatus>,
      reasons: map<string, Reason>, hasInit: bool, info: seq<ContainerStatus>, c: Container)
    requires DerivedInfo(pod, reported, sorted, previous, reasons, hasInit, info) && c in pod.spec.containers
    requires HasVanished(c, sorted, previous)
    ensures KindOf(GetContainerStatus(info, c.name)) == IsStopped(false)
  {
    hide DerivedInfo, DeriveOne, KindOf, GetContainerStatus, Of, Previous;
    DerivedStatus(pod, reported, sorted, previous, reasons, hasInit, info, c);
    VanishedStopped(c, pod, Of(sorted, c.name), Lookup(Previous(previous), c.name), ReasonOf(reasons, c.name), hasInit);
  }

  /** The derived statuses make the pod pending exactly if an init container is pending, some container shows no
      sign of ever having started, or there is none: whatever the reason cache holds. */
  lemma PendingIff(
      pod: Pod, reported: seq<Reported>, sorted: seq<Reported>, previous: seq<ContainerStatus>,
      reasons: map<string, Reason>, hasInit: bool, info: seq<ContainerStatus>)
    requires DerivedInfo(pod, reported, sorted, previous, reasons, hasInit, info)
    requires !(SomeInit(pod.spec, info, InitFailed) && pod.spec.restartPolicy == RestartPolicyNever)
    ensures PhaseOf(pod.spec, info) == PodPending <==>
              SomeInit(pod.spec, info, InitPending) || pod.spec.containers == [] ||
              exists c :: c in pod.spec.containers && HasNotStarted(c, sorted, previous)
  {
    hide DerivedInfo, KindOf, HasNotStarted, InitKindOf, PhaseOf, SomeInit, GetContainerStatus;
    var spec := pod.spec;
    forall c | c in spec.containers
      ensures KindOf(GetContainerStatus(info, c.name)) != IsUnknown
      ensures KindOf(GetContainerStatus(info, c.name)) == IsWaiting <==> HasNotStarted(c, sorted, previous)
    {
      DerivedKind(pod, reported, sorted, previous, reasons, hasInit, info, c);
    }
    PendingByWaiting(spec, info);
  }

  /** Vanished containers are not pending: if all were running and are gone, the pod has failed if it must not
      restart, and is running otherwise. */
  lemma AllVanished(
      pod: Pod, reported: seq<Reported>, sorted: seq<Reported>, previous: seq<ContainerStatus>,
      reasons: map<string, Reason>, info: seq<ContainerStatus>)
    requires DerivedInfo(pod, reported, sorted, previous, reasons, false, info)
    requires pod.spec.initContainers == [] && pod.spec.containers != []
    requires forall c :: c in pod.spec.containers ==> HasVanished(c, sorted, previous)
    ensures PhaseOf(pod.spec, info) == if pod.spec.restartPolicy == RestartPolicyNever then PodFailed else PodRunning
  {
    hide DerivedInfo, KindOf, HasVanished, InitKindOf, PhaseOf, GetContainerStatus;
    forall c | c in pod.spec.containers ensures KindOf(GetContainerStatus(info, c.name)) == IsStopped(false) {
      DerivedVanished(pod, reported, sorted, previous, reasons, false, info, c);
    }
    AllStopped(pod.spec, info);
  }

  lemma AllStopped(spec: PodSpec, info: seq<ContainerStatus>)
    requires spec.initContainers == [] && spec.containers != []
    requires forall c :: c in spec.containers ==> KindOf(GetContainerStatus(info, c.name)) == IsStopped(false)
    ensures PhaseOf(spec, info) == if spec.restartPolicy == RestartPolicyNever then PodFailed else PodRunning
  {
    assert spec.containers[0] in spec.containers;
    hide KindOf, InitKindOf;
  }

  // ---------- the theorems apply to what the code lists ----------

  /** The listed statuses, with those of the init containers behind them, are what the phase is derived from. */
  lemma ListedReports(
      statuses: seq<ContainerStatus>, inits: seq<ContainerStatus>, containers: seq<Container>, m: Statuses)
    requires Lists(statuses, m) && Covers(m, containers)
    ensures Reports(statuses + inits, containers, m)
  {
    forall c | c in containers ensures c.name in m && GetContainerStatus(statuses + inits, c.name) == Some(m[c.name]) {
      var i :| 0 <= i < |containers| && containers[i] == c;
      GetIn(statuses, inits, m, c.name);
    }
  }

  /** With at most one report of each name, the runtime's order and the order by creation find the same. */
  lemma OneReportEach(reported: seq<Reported>, sorted: seq<Reported>, containers: seq<Container>)
    requires LatestFirst(sorted, reported)
    requires forall i, j :: 0 <= i < j < |reported| ==> reported[i].name != reported[j].name
    ensures FindsLatest(reported, sorted, containers)
  {
    forall c | c in containers ensures Find(reported, c.name) == First(Of(sorted, c.name)) {
      FindIs(reported, c.name);
      OfIs(sorted, c.name);
      if Of(sorted, c.name) != [] {
        var x := Of(sorted, c.name)[0];
        assert x in Of(sorted, c.name) && x in multiset(sorted);
        assert x in reported;
      }
      if Find(reported, c.name).Some? {
        var x := Find(reported, c.name).value;
        assert x in multiset(reported);
        assert x in sorted && x in Of(sorted, c.name);
      }
    }
  }

  lemma {:induction false} FindIs(reported: seq<Reported>, name: string)
    ensures match Find(reported, name)
            case Some(x) => x in reported && x.name == name
            case None => forall x :: x in reported ==> x.name != name
  {
    if reported != [] && reported[0].name != name {
      FindIs(reported[1..], name);
      assert forall x :: x in reported <==> x == reported[0] || x in reported[1..];
    }
  }

  lemma {:induction false} OfIs(reported: seq<Reported>, name: string)
    ensures forall x :: x in Of(reported, name) <==> x in reported && x.name == name
    decreases |reported|
  {
    if reported != [] {
      var n := |reported| - 1;
      OfIs(reported[..n], name);
      assert forall x :: x in reported <==> x in reported[..n] || x == reported[n];
    }
  }
}
