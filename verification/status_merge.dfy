/** Merging the kubelet's status of a pod into the one the API server has. */
module StatusMerge {
  import opened Wrappers
  import opened Api
  import opened PodConditions

  /** The kubelet's own conditions, in order. */
  function OwnConditions(conditions: seq<PodCondition>): (r: seq<PodCondition>)
    ensures forall c :: c in r ==> c in conditions && IsKubeletCondition(c.kind)
    decreases |conditions|
  {
    if conditions == [] then []
    else
      var n := |conditions| - 1;
      OwnConditions(conditions[..n]) + if IsKubeletCondition(conditions[n].kind) then [conditions[n]] else []
  }

  predicate IsTrue(conditions: seq<PodCondition>, kind: string) {
    GetPodCondition(conditions, kind).Some? && GetPodCondition(conditions, kind).value.status == ConditionTrue
  }

  /** Adds the condition or replaces the first of its kind; the transition time moves only with the status. */
  function UpdatePodCondition(conditions: seq<PodCondition>, c: PodCondition, now: Time): seq<PodCondition> {
    var i := ConditionIndex(conditions, c.kind);
    if i == |conditions| then conditions + [c.(lastTransitionTime := now)]
    else conditions[i := c.(lastTransitionTime :=
                              if c.status == conditions[i].status then conditions[i].lastTransitionTime else now)]
  }

  function PodReadyForTerminalPhase(phase: PodPhase): PodCondition {
    ContainersReadyForTerminalPhase(phase).(kind := POD_READY)
  }

  /** The new phase is put off while it would end a pod that could still have running containers. */
  predicate Delayed(before: PodStatus, next: PodStatus, couldHaveRunningContainers: bool) {
    !IsPhaseTerminal(before.phase) && IsPhaseTerminal(next.phase) && couldHaveRunningContainers
  }

  predicate Forced(phase: PodPhase, conditions: seq<PodCondition>) {
    IsPhaseTerminal(phase) && (IsTrue(conditions, POD_READY) || IsTrue(conditions, CONTAINERS_READY))
  }

  function ForceNotReady(phase: PodPhase, conditions: seq<PodCondition>, now: Time, later: Time): seq<PodCondition> {
    UpdatePodCondition(UpdatePodCondition(conditions, ContainersReadyForTerminalPhase(phase), now),
                       PodReadyForTerminalPhase(phase), later)
  }

  function Merge(
      before: PodStatus, next: PodStatus, couldHaveRunningContainers: bool, now: Time, later: Time): PodStatus {
    var delayed := Delayed(before, next, couldHaveRunningContainers);
    var conditions := ForeignConditions(before.conditions) + OwnConditions(next.conditions);
    var phase := if delayed then before.phase else next.phase;
    next.(phase := phase,
          reason := if delayed then before.reason else next.reason,
          message := if delayed then before.message else next.message,
          conditions := if Forced(phase, conditions) then ForceNotReady(phase, conditions, now, later) else conditions)
  }

  method MergePodStatus(
      before: PodStatus, next: PodStatus, couldHaveRunningContainers: bool, now: Time, later: Time)
      returns (r: PodStatus)
    ensures r == Merge(before, next, couldHaveRunningContainers, now, later)
  {
    var podConditions := KeepForeign(before.conditions);
    var own := [];
    for i := 0 to |next.conditions|
      invariant own == OwnConditions(next.conditions[..i])
      invariant podConditions == ForeignConditions(before.conditions) + own
    {
      assert next.conditions[..i + 1][..i] == next.conditions[..i];
      if IsKubeletCondition(next.conditions[i].kind) {
        podConditions := podConditions + [next.conditions[i]];
        own := own + [next.conditions[i]];
      }
    }
    assert next.conditions[..|next.conditions|] == next.conditions;
    hide ForeignConditions, OwnConditions;
    r := next.(conditions := podConditions);
    if !IsPhaseTerminal(before.phase) && IsPhaseTerminal(next.phase) {
      if couldHaveRunningContainers {
        r := r.(phase := before.phase, reason := before.reason, message := before.message);
      }
    }
    if IsPhaseTerminal(r.phase) {
      if IsTrue(r.conditions, POD_READY) || IsTrue(r.conditions, CONTAINERS_READY) {
        var conditions, changed := UpdateCondition(r.conditions, ContainersReadyForTerminalPhase(r.phase), now);
        conditions, changed := UpdateCondition(conditions, PodReadyForTerminalPhase(r.phase), later);
        r := r.(conditions := conditions);
      }
    }
  }

  /** Whether a condition changed or was added. */
  method UpdateCondition(
      conditions: seq<PodCondition>, condition: PodCondition, now: Time)
      returns (r: seq<PodCondition>, changed: bool)
    ensures r == UpdatePodCondition(conditions, condition, now)
    ensures changed <==> r != conditions
  {
    var c := condition.(lastTransitionTime := now);
    var i, before := FindCondition(conditions, condition.kind);
    if before.None? { return conditions + [c], true; }
    if c.status == before.value.status { c := c.(lastTransitionTime := before.value.lastTransitionTime); }
    var b := before.value;
    var isEqual := c.status == b.status && c.reason == b.reason && c.message == b.message &&
                   c.lastProbeTime == b.lastProbeTime && c.lastTransitionTime == b.lastTransitionTime;
    r := conditions[i := c];
    changed := !isEqual;
    assert conditions[i] == before.value && r[i] == c;
  }

  // ---------- where conditions are found ----------

  lemma {:induction false} IndexBehind(front: seq<PodCondition>, back: seq<PodCondition>, kind: string)
    requires forall c :: c in front ==> c.kind != kind
    ensures ConditionIndex(front + back, kind) == |front| + ConditionIndex(back, kind)
  {
    if front == [] {
      assert front + back == back;
    } else {
      assert (front + back)[1..] == front[1..] + back && (front + back)[0] == front[0];
      IndexBehind(front[1..], back, kind);
    }
  }

  lemma UpdateBehind(front: seq<PodCondition>, back: seq<PodCondition>, c: PodCondition, now: Time)
    requires forall x :: x in front ==> x.kind != c.kind
    ensures UpdatePodCondition(front + back, c, now) == front + UpdatePodCondition(back, c, now)
  {
    IndexBehind(front, back, c.kind);
  }

  lemma UpdatedFound(conditions: seq<PodCondition>, c: PodCondition, now: Time, kind: string)
    ensures var r := UpdatePodCondition(conditions, c, now);
            if kind == c.kind then GetPodCondition(r, kind).Some? && GetPodCondition(r, kind).value.status == c.status
            else GetPodCondition(r, kind) == GetPodCondition(conditions, kind)
  {
    var i := ConditionIndex(conditions, c.kind);
    var r := UpdatePodCondition(conditions, c, now);
    IndexIs(conditions, r, c.kind, i, kind);
  }

  /** Replacing or appending at the first position of a kind moves no other kind. */
  lemma IndexIs(conditions: seq<PodCondition>, r: seq<PodCondition>, changed: string, i: nat, kind: string)
    requires i == ConditionIndex(conditions, changed) && i < |r| && r[i].kind == changed
    requires |r| == (if i < |conditions| then |conditions| else |conditions| + 1)
    requires forall j :: 0 <= j < |conditions| && j != i ==> r[j] == conditions[j]
    ensures kind == changed ==> ConditionIndex(r, kind) == i
    ensures kind != changed ==> GetPodCondition(r, kind) == GetPodCondition(conditions, kind)
  {
    var j, k := ConditionIndex(conditions, kind), ConditionIndex(r, kind);
    if kind == changed {
      assert r[i].kind == kind;
      forall m | 0 <= m < i ensures r[m].kind != kind {
        assert r[m] == conditions[m];
      }
    } else {
      if k < |r| { assert k != i && r[k] == conditions[k]; }
      if j < |conditions| { assert j != i && r[j] == conditions[j]; }
    }
  }

  lemma {:induction false} Split(front: seq<PodCondition>, back: seq<PodCondition>)
    requires forall c :: c in front ==> !IsKubeletCondition(c.kind)
    requires forall c :: c in back ==> IsKubeletCondition(c.kind)
    ensures OwnConditions(front + back) == back && ForeignConditions(front + back) == front
    decreases |front| + |back|
  {
    if back != [] {
      var n := |back| - 1;
      assert (front + back)[..|front + back| - 1] == front + back[..n] && back == back[..n] + [back[n]];
      Split(front, back[..n]);
      assert IsKubeletCondition(back[n].kind) by { assert back[n] in back; }
    } else if front != [] {
      var n := |front| - 1;
      assert front + back == front && front == front[..n] + [front[n]] && front[..n] + [] == front[..n];
      Split(front[..n], []);
      assert !IsKubeletCondition(front[n].kind) by { assert front[n] in front; }
    }
  }

  // ---------- what merging promises ----------

  lemma OwnKinds(phase: PodPhase)
    ensures IsKubeletCondition(ContainersReadyForTerminalPhase(phase).kind) &&
            IsKubeletCondition(PodReadyForTerminalPhase(phase).kind)
    ensures ContainersReadyForTerminalPhase(phase).kind == CONTAINERS_READY &&
            PodReadyForTerminalPhase(phase).kind == POD_READY
    ensures ContainersReadyForTerminalPhase(phase).status == PodReadyForTerminalPhase(phase).status == ConditionFalse
    ensures POD_READY != CONTAINERS_READY
  {
    assert |POD_READY| == 5 && |CONTAINERS_READY| == 15;
  }

  /** Forcing the ready conditions touches the kubelet's own part only. */
  lemma ForceBehind(front: seq<PodCondition>, back: seq<PodCondition>, phase: PodPhase, now: Time, later: Time)
    requires forall c :: c in front ==> !IsKubeletCondition(c.kind)
    requires forall c :: c in back ==> IsKubeletCondition(c.kind)
    ensures var back' := ForceNotReady(phase, back, now, later);
            ForceNotReady(phase, front + back, now, later) == front + back' && forall c :: c in back' ==>
              IsKubeletCondition(c.kind)
  {
    OwnKinds(phase);
    var c1, c2 := ContainersReadyForTerminalPhase(phase), PodReadyForTerminalPhase(phase);
    UpdateBehind(front, back, c1, now);
    UpdateBehind(front, UpdatePodCondition(back, c1, now), c2, later);
    hide ContainersReadyForTerminalPhase, PodReadyForTerminalPhase, IsKubeletCondition;
  }

  /** The result has the old conditions of others, then the kubelet's own new ones, which are changed only to take
      back readiness from a terminal pod. */
  lemma MergeOrder(before: PodStatus, next: PodStatus, could: bool, now: Time, later: Time)
    ensures var r := Merge(before, next, could, now, later);
            var merged := ForeignConditions(before.conditions) + OwnConditions(next.conditions);
            ForeignConditions(r.conditions) == ForeignConditions(before.conditions) &&
            r.conditions == ForeignConditions(before.conditions) + OwnConditions(r.conditions) &&
            (!Forced(r.phase, merged) ==> r.conditions == merged)
  {
    var front, back := ForeignConditions(before.conditions), OwnConditions(next.conditions);
    var r := Merge(before, next, could, now, later);
    Split(front, back);
    ForceBehind(front, back, r.phase, now, later);
    Split(front, ForceNotReady(r.phase, back, now, later));
    hide ForceNotReady, ForeignConditions, OwnConditions, IsKubeletCondition;
  }

  /** A pod that could have running containers is not ended, and nothing else keeps the new phase back. */
  lemma MergePhase(before: PodStatus, next: PodStatus, could: bool, now: Time, later: Time)
    ensures var r := Merge(before, next, could, now, later);
            (IsPhaseTerminal(r.phase) <==> IsPhaseTerminal(next.phase) && (IsPhaseTerminal(before.phase) || !could)) &&
            (r.phase == next.phase || (r.phase == before.phase && r.reason == before.reason &&
                                       r.message == before.message))
  {
  }

  /** A terminal result is not ready. */
  lemma MergedTerminalIsNotReady(before: PodStatus, next: PodStatus, could: bool, now: Time, later: Time)
    ensures var r := Merge(before, next, could, now, later);
            IsPhaseTerminal(r.phase) ==> !IsTrue(r.conditions, POD_READY) && !IsTrue(r.conditions, CONTAINERS_READY)
  {
    var r := Merge(before, next, could, now, later);
    var merged := ForeignConditions(before.conditions) + OwnConditions(next.conditions);
    OwnKinds(r.phase);
    var c1, c2 := ContainersReadyForTerminalPhase(r.phase), PodReadyForTerminalPhase(r.phase);
    var once := UpdatePodCondition(merged, c1, now);
    UpdatedFound(merged, c1, now, CONTAINERS_READY);
    UpdatedFound(once, c2, later, CONTAINERS_READY);
    UpdatedFound(once, c2, later, POD_READY);
    hide UpdatePodCondition, ForeignConditions, OwnConditions, GetPodCondition, ContainersReadyForTerminalPhase,
      PodReadyForTerminalPhase;
  }

  /** Merging the result with the same old status again changes nothing, whenever that is. */
  lemma MergeTwice(before: PodStatus, next: PodStatus, could: bool, now: Time, later: Time, now2: Time, later2: Time)
    ensures var r := Merge(before, next, could, now, later); Merge(before, r, could, now2, later2) == r
  {
    var r := Merge(before, next, could, now, later);
    MergeOrder(before, next, could, now, later);
    MergedTerminalIsNotReady(before, next, could, now, later);
    MergePhase(before, next, could, now, later);
    MergePhase(before, r, could, now2, later2);
    assert !Forced(r.phase, r.conditions);
    hide ForeignConditions, OwnConditions, IsTrue, ForceNotReady;
  }
}
