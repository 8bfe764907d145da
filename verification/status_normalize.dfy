/** Statuses are normalised before they are stored and compared: times are cut to seconds, termination messages to
    a budget of bytes, and the container statuses are put in order. */
module StatusNormalize {
  import opened Wrappers
  import opened Api
  import opened StatusOrder

  const SECOND: nat := 1_000_000_000
  const MAX_POD_TERMINATION_MESSAGE_LOG_LENGTH: nat := 1024 * 12

  function Seconds(t: Time): Time {
    t - t % SECOND
  }

  lemma SecondsOnce(t: Time)
    ensures Seconds(Seconds(t)) == Seconds(t) && Seconds(t) <= t
  {
  }

  function BytesPerStatus(spec: PodSpec): nat {
    var containers := |spec.containers| + |spec.initContainers|;
    if containers > 0 then MAX_POD_TERMINATION_MESSAGE_LOG_LENGTH / containers
      else MAX_POD_TERMINATION_MESSAGE_LOG_LENGTH
  }

  function Cut(message: string, bytes: nat): string {
    if |message| > bytes then message[..bytes] else message
  }

  function CutState(c: ContainerState, bytes: nat): ContainerState {
    c.(running := if c.running.Some? then Some(Running(Seconds(c.running.value.startedAt))) else None,
       terminated :=
         if c.terminated.Some? then
           var t := c.terminated.value;
           Some(t.(startedAt := Seconds(t.startedAt), finishedAt := Seconds(t.finishedAt),
                   message := Cut(t.message, bytes)))
         else None)
  }

  function CutStatus(s: ContainerStatus, bytes: nat): ContainerStatus {
    s.(state := CutState(s.state, bytes), lastTerminationState := CutState(s.lastTerminationState, bytes))
  }

  function CutAll(s: seq<ContainerStatus>, bytes: nat): (r: seq<ContainerStatus>)
    ensures |r| == |s|
  {
    seq(|s|, i requires 0 <= i < |s| => CutStatus(s[i], bytes))
  }

  function CutCondition(c: PodCondition): PodCondition {
    c.(lastProbeTime := Seconds(c.lastProbeTime), lastTransitionTime := Seconds(c.lastTransitionTime))
  }

  function CutConditions(s: seq<PodCondition>): (r: seq<PodCondition>)
    ensures |r| == |s|
  {
    seq(|s|, i requires 0 <= i < |s| => CutCondition(s[i]))
  }

  /** The order that sorting by name leads to; for distinct names there is only one. */
  function NameSorted(s: seq<ContainerStatus>): seq<ContainerStatus>
    decreases |s|
  {
    if s == [] then [] else Insert(NameSorted(s[..|s| - 1]), s[|s| - 1])
  }

  function Normalize(spec: PodSpec, status: PodStatus): PodStatus {
    var bytes := BytesPerStatus(spec);
    status.(
      startTime := if status.startTime.Some? then Some(Seconds(status.startTime.value)) else None,
      conditions := CutConditions(status.conditions),
      containerStatuses := NameSorted(CutAll(status.containerStatuses, bytes)),
      initContainerStatuses := Arrange(NamesOf(spec.initContainers), CutAll(status.initContainerStatuses, bytes), 0))
  }

  // ---------- in place, as the code does it ----------

  method NormalizeState(c: ContainerState, bytes: nat) returns (r: ContainerState)
    ensures r == CutState(c, bytes)
  {
    r := c;
    if c.running.Some? { r := r.(running := Some(Running(Seconds(c.running.value.startedAt)))); }
    if c.terminated.Some? {
      var t := c.terminated.value;
      t := t.(startedAt := Seconds(t.startedAt), finishedAt := Seconds(t.finishedAt));
      if |t.message| > bytes { t := t.(message := t.message[..bytes]); }
      r := r.(terminated := Some(t));
    }
  }

  method NormalizeStates(statuses: array<ContainerStatus>, bytes: nat)
    modifies statuses
    ensures statuses[..] == CutAll(old(statuses[..]), bytes)
  {
    for i := 0 to statuses.Length
      invariant forall j :: 0 <= j < statuses.Length ==>
        statuses[j] == if j < i then CutStatus(old(statuses[j]), bytes) else old(statuses[j])
    {
      var state := NormalizeState(statuses[i].state, bytes);
      var last := NormalizeState(statuses[i].lastTerminationState, bytes);
      statuses[i] := statuses[i].(state := state, lastTerminationState := last);
    }
  }

  method NormalizeConditions(conditions: array<PodCondition>)
    modifies conditions
    ensures conditions[..] == CutConditions(old(conditions[..]))
  {
    for i := 0 to conditions.Length
      invariant forall j :: 0 <= j < conditions.Length ==>
        conditions[j] == if j < i then CutCondition(old(conditions[j])) else old(conditions[j])
    {
      conditions[i] := conditions[i].(
        lastProbeTime := Seconds(conditions[i].lastProbeTime),
        lastTransitionTime := Seconds(conditions[i].lastTransitionTime));
    }
  }

  /** Normalises the lists in place. Sorting by name is the library's. */
  method NormalizeStatus(spec: PodSpec, status: PodStatus) returns (r: PodStatus)
    ensures r == Normalize(spec, status)
  {
    var bytes := MAX_POD_TERMINATION_MESSAGE_LOG_LENGTH;
    var containers := |spec.containers| + |spec.initContainers|;
    if containers > 0 { bytes := bytes / containers; }

    var startTime := status.startTime;
    if startTime.Some? { startTime := Some(Seconds(startTime.value)); }

    var conditions := new PodCondition[|status.conditions|](
      i requires 0 <= i < |status.conditions| => status.conditions[i]);
    assert conditions[..] == status.conditions;
    NormalizeConditions(conditions);

    var cs := new ContainerStatus[|status.containerStatuses|](
      i requires 0 <= i < |status.containerStatuses| => status.containerStatuses[i]);
    assert cs[..] == status.containerStatuses;
    NormalizeStates(cs, bytes);

    var ics := new ContainerStatus[|status.initContainerStatuses|](
      i requires 0 <= i < |status.initContainerStatuses| => status.initContainerStatuses[i]);
    assert ics[..] == status.initContainerStatuses;
    NormalizeStates(ics, bytes);
    SortInitContainerStatuses(spec.initContainers, ics);

    r := status.(startTime := startTime, conditions := conditions[..],
                 containerStatuses := NameSorted(cs[..]), initContainerStatuses := ics[..]);
  }

  lemma {:induction false} InsertLength(s: seq<ContainerStatus>, x: ContainerStatus)
    ensures |Insert(s, x)| == |s| + 1
    ensures forall y :: y in Insert(s, x) <==> y == x || y in s
  {
    if s != [] {
      InsertLength(s[1..], x);
      assert forall y :: y in s <==> y == s[0] || y in s[1..];
    }
  }

  lemma {:induction false} NameSortedLength(s: seq<ContainerStatus>)
    ensures |NameSorted(s)| == |s|
    ensures forall y :: y in NameSorted(s) <==> y in s
    decreases |s|
  {
    if s != [] {
      var n := |s| - 1;
      NameSortedLength(s[..n]);
      InsertLength(NameSorted(s[..n]), s[n]);
      assert forall y :: y in s <==> y in s[..n] || y == s[n];
    }
  }

  // ---------- the budget ----------

  function MessageLength(s: ContainerStatus): nat {
    if s.state.terminated.Some? then |s.state.terminated.value.message| else 0
  }

  function TotalLength(s: seq<ContainerStatus>): nat {
    if s == [] then 0 else MessageLength(s[0]) + TotalLength(s[1..])
  }

  lemma {:induction false} TotalBound(s: seq<ContainerStatus>, bytes: nat)
    requires forall x :: x in s ==> MessageLength(x) <= bytes
    ensures TotalLength(s) <= |s| * bytes
  {
    if s != [] {
      TotalBound(s[1..], bytes);
      OneMore(|s| - 1, bytes);
      assert s[0] in s;
      hide MessageLength;
    }
  }

  lemma OneMore(n: nat, bytes: nat)
    ensures (n + 1) * bytes == bytes + n * bytes
  {
  }

  lemma CutLength(s: seq<ContainerStatus>, bytes: nat)
    ensures forall x :: x in CutAll(s, bytes) ==> MessageLength(x) <= bytes
  {
  }

  lemma PermutedLengths(a: seq<ContainerStatus>, b: seq<ContainerStatus>, bytes: nat)
    requires Permutation(a, b) && forall x :: x in b ==> MessageLength(x) <= bytes
    ensures forall x :: x in a ==> MessageLength(x) <= bytes
  {
    forall x | x in a ensures MessageLength(x) <= bytes {
      assert x in multiset(a);
      assert x in b;
    }
  }

  /** With no more statuses than containers, the current termination messages of a pod stay within the limit. */
  lemma MessagesWithinLimit(spec: PodSpec, status: PodStatus)
    requires |status.containerStatuses| + |status.initContainerStatuses| <= |spec.containers| + |spec.initContainers|
    ensures var r, n := Normalize(spec, status), |spec.containers| + |spec.initContainers|;
            var total := TotalLength(r.containerStatuses) + TotalLength(r.initContainerStatuses);
            total <= n * BytesPerStatus(spec) && total <= MAX_POD_TERMINATION_MESSAGE_LOG_LENGTH
  {
    var bytes, r := BytesPerStatus(spec), Normalize(spec, status);
    var cs, ics := CutAll(status.containerStatuses, bytes), CutAll(status.initContainerStatuses, bytes);
    CutLength(status.containerStatuses, bytes);
    CutLength(status.initContainerStatuses, bytes);
    NameSortedLength(cs);
    ArrangePermutes(NamesOf(spec.initContainers), ics, 0);
    PermutedLengths(r.initContainerStatuses, ics, bytes);
    TotalBound(r.containerStatuses, bytes);
    TotalBound(r.initContainerStatuses, bytes);
    hide Normalize;
    var n := |spec.containers| + |spec.initContainers|;
    Budget(|r.containerStatuses|, |r.initContainerStatuses|, n, bytes);
  }

  lemma Budget(a: nat, b: nat, n: nat, bytes: nat)
    requires a + b <= n
    requires n > 0 ==> bytes == MAX_POD_TERMINATION_MESSAGE_LOG_LENGTH / n
    ensures a * bytes + b * bytes <= n * bytes && a * bytes + b * bytes <= MAX_POD_TERMINATION_MESSAGE_LOG_LENGTH
  {
    assert a * bytes + b * bytes == (a + b) * bytes <= n * bytes;
  }

  /** Every normalised status is one of the originals, with messages cut to prefixes. */
  lemma MessagesArePrefixes(spec: PodSpec, status: PodStatus, x: ContainerStatus)
    requires x in Normalize(spec, status).containerStatuses || x in Normalize(spec, status).initContainerStatuses
    ensures exists y :: (y in status.containerStatuses || y in status.initContainerStatuses) &&
              x == CutStatus(y, BytesPerStatus(spec)) &&
              (x.state.terminated.Some? ==> x.state.terminated.value.message <= y.state.terminated.value.message)
  {
    var bytes := BytesPerStatus(spec);
    var cs, ics := CutAll(status.containerStatuses, bytes), CutAll(status.initContainerStatuses, bytes);
    NameSortedLength(cs);
    ArrangePermutes(NamesOf(spec.initContainers), ics, 0);
    assert x in cs || x in ics by {
      if x !in Normalize(spec, status).containerStatuses {
        assert x in multiset(Normalize(spec, status).initContainerStatuses);
      }
    }
    hide Normalize, NameSorted, Arrange, Seconds;
    if x in cs { CutFrom(status.containerStatuses, bytes, x); } else {
      CutFrom(status.initContainerStatuses, bytes, x);
    }
  }

  lemma CutFrom(s: seq<ContainerStatus>, bytes: nat, x: ContainerStatus)
    requires x in CutAll(s, bytes)
    ensures exists y :: y in s && x == CutStatus(y, bytes) &&
              (x.state.terminated.Some? ==> x.state.terminated.value.message <= y.state.terminated.value.message)
  {
    var i :| 0 <= i < |s| && CutAll(s, bytes)[i] == x;
    assert s[i] in s && x == CutStatus(s[i], bytes);
    hide Seconds;
  }

  // ---------- normalising twice ----------

  lemma CutTwice(s: ContainerStatus, bytes: nat)
    ensures CutStatus(CutStatus(s, bytes), bytes) == CutStatus(s, bytes)
  {
  }

  ghost predicate DistinctStatuses(s: seq<ContainerStatus>) {
    Distinct(StatusNames(s))
  }

  lemma {:induction false} NameSortedOrdered(s: seq<ContainerStatus>)
    requires DistinctStatuses(s)
    ensures InNameOrder(NameSorted(s))
    decreases |s|
  {
    if s != [] {
      var n := |s| - 1;
      assert StatusNames(s[..n]) == StatusNames(s)[..n];
      NameSortedOrdered(s[..n]);
      NameSortedLength(s[..n]);
      forall y | y in NameSorted(s[..n]) ensures y.name != s[n].name {
        assert y in s[..n];
        var i :| 0 <= i < n && s[i] == y;
        assert StatusNames(s)[i] != StatusNames(s)[n];
      }
      InsertOrdered(NameSorted(s[..n]), s[n]);
    }
  }

  lemma {:induction false} OrderedIsDistinct(s: seq<ContainerStatus>)
    requires InNameOrder(s)
    ensures DistinctStatuses(s)
  {
    forall i, j | 0 <= i < j < |s| ensures StatusNames(s)[i] != StatusNames(s)[j] {
      LessIrreflexive(s[i].name);
    }
  }

  lemma SortedTwice(s: seq<ContainerStatus>)
    requires DistinctStatuses(s)
    ensures NameSorted(NameSorted(s)) == NameSorted(s)
  {
    NameSortedOrdered(s);
    OrderedIsDistinct(NameSorted(s));
    NameSortedOrdered(NameSorted(s));
    NameSortedLength(s);
    NameSortedLength(NameSorted(s));
    ListIsUnique(NameSorted(NameSorted(s)), NameSorted(s));
  }

  lemma FoundIsThere(s: seq<ContainerStatus>, current: nat, name: string)
    requires current <= |s|
    ensures IndexFrom(s, current, name) < |s| ==> HasName(s[current..], name)
  {
    var j := IndexFrom(s, current, name);
    if j < |s| { assert s[current..][j - current].name == name; }
  }

  /** Statuses that are in place are left there. */
  lemma {:induction false} ArrangedStays(names: seq<string>, s: seq<ContainerStatus>, current: nat)
    requires current <= |s| && Distinct(names)
    requires Placed(s, s, current, Present(names, s[current..]))
    ensures Arrange(names, s, current) == s
    decreases |names|
  {
    if names != [] {
      var rest := names[1..];
      var present := Present(names, s[current..]);
      if HasName(s[current..], names[0]) {
        assert present[0] == names[0] && s[current + 0].name == present[0];
        assert IndexFrom(s, current, names[0]) == current;
        assert Swap(s, current, current) == s;
        forall n | n in rest ensures HasName(s[current + 1..], n) <==> HasName(s[current..], n) {
          RestKeepsNames(s, current, current, n);
        }
        PresentCongruent(rest, s[current + 1..], s[current..]);
        forall i | 0 <= i < |present| - 1 ensures s[current + 1 + i].name == Present(rest, s[current..])[i] {
          assert s[current + (i + 1)].name == present[i + 1];
        }
        ArrangedStays(rest, s, current + 1);
      } else {
        var j := IndexFrom(s, current, names[0]);
        FoundIsThere(s, current, names[0]);
        assert present == [] + Present(rest, s[current..]) == Present(rest, s[current..]);
        ArrangedStays(rest, s, current);
      }
    }
  }

  lemma {:induction false} PresentPermuted(names: seq<string>, a: seq<ContainerStatus>, b: seq<ContainerStatus>)
    requires Permutation(a, b)
    ensures Present(names, a) == Present(names, b)
  {
    forall n ensures HasName(a, n) <==> HasName(b, n) {
      if i :| 0 <= i < |a| && a[i].name == n {
        assert a[i] in multiset(a);
        assert a[i] in b;
      }
      if i :| 0 <= i < |b| && b[i].name == n {
        assert b[i] in multiset(b);
        assert b[i] in a;
      }
    }
    PresentCongruent(names, a, b);
  }

  lemma ArrangedTwice(names: seq<string>, s: seq<ContainerStatus>)
    requires Distinct(names)
    ensures Arrange(names, Arrange(names, s, 0), 0) == Arrange(names, s, 0)
  {
    var r := Arrange(names, s, 0);
    ArrangePlaces(names, s, 0);
    ArrangePermutes(names, s, 0);
    assert s[0..] == s && r[0..] == r;
    PresentPermuted(names, r, s);
    ArrangedStays(names, r, 0);
  }

  /** Normalising a status again changes nothing. */
  lemma NormalizeTwice(spec: PodSpec, status: PodStatus)
    requires DistinctStatuses(status.containerStatuses) && Distinct(NamesOf(spec.initContainers))
    ensures Normalize(spec, Normalize(spec, status)) == Normalize(spec, status)
  {
    var bytes, r := BytesPerStatus(spec), Normalize(spec, status);
    ContainersTwice(status.containerStatuses, bytes);
    InitsTwice(NamesOf(spec.initContainers), status.initContainerStatuses, bytes);
    ConditionsTwice(status.conditions);
    if status.startTime.Some? { SecondsOnce(status.startTime.value); }
    hide CutAll, NameSorted, Arrange, CutConditions, Seconds, BytesPerStatus;
  }

  lemma ConditionsTwice(s: seq<PodCondition>)
    ensures CutConditions(CutConditions(s)) == CutConditions(s)
  {
    forall i | 0 <= i < |s| ensures CutCondition(CutCondition(s[i])) == CutCondition(s[i]) {
      SecondsOnce(s[i].lastProbeTime);
      SecondsOnce(s[i].lastTransitionTime);
    }
    hide Seconds;
  }

  lemma ContainersTwice(s: seq<ContainerStatus>, bytes: nat)
    requires DistinctStatuses(s)
    ensures NameSorted(CutAll(NameSorted(CutAll(s, bytes)), bytes)) == NameSorted(CutAll(s, bytes))
  {
    assert StatusNames(CutAll(s, bytes)) == StatusNames(s);
    SortedTwice(CutAll(s, bytes));
    NameSortedLength(CutAll(s, bytes));
    CutStays(NameSorted(CutAll(s, bytes)), s, bytes);
  }

  lemma InitsTwice(names: seq<string>, s: seq<ContainerStatus>, bytes: nat)
    requires Distinct(names)
    ensures Arrange(names, CutAll(Arrange(names, CutAll(s, bytes), 0), bytes), 0) == Arrange(names, CutAll(s, bytes), 0)
  {
    var cut := CutAll(s, bytes);
    var r := Arrange(names, cut, 0);
    ArrangedTwice(names, cut);
    ArrangePermutes(names, cut, 0);
    forall x | x in r ensures x in cut {
      assert x in multiset(r);
    }
    CutStays(r, s, bytes);
  }

  lemma CutStays(r: seq<ContainerStatus>, s: seq<ContainerStatus>, bytes: nat)
    requires forall x :: x in r ==> x in CutAll(s, bytes)
    ensures CutAll(r, bytes) == r
  {
    forall i | 0 <= i < |r| ensures CutStatus(r[i], bytes) == r[i] {
      assert r[i] in CutAll(s, bytes);
      var k :| 0 <= k < |s| && CutAll(s, bytes)[k] == r[i];
      CutTwice(s[k], bytes);
    }
  }
}
