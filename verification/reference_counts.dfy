/** Counting how many registered pods mention an object: what a store of objects keeps for the manager. */
module ReferenceCounts {
  import opened Wrappers
  import opened Api

  datatype ObjectKey = ObjectKey(namespace: string, name: string, uid: UID)

  /** Objects are kept under a key without UID. */
  function KeyOf(namespace: string, name: string): ObjectKey {
    ObjectKey(namespace, name, "")
  }

  function PodKey(pod: Pod): ObjectKey {
    ObjectKey(pod.namespace, pod.name, pod.uid)
  }

  type Counts = map<ObjectKey, int>

  function CountOf(counts: Counts, key: ObjectKey): int {
    if key in counts then counts[key] else 0
  }

  function AddRef(counts: Counts, key: ObjectKey): Counts {
    counts[key := CountOf(counts, key) + 1]
  }

  function DeleteRef(counts: Counts, key: ObjectKey): Counts {
    if key !in counts then counts
    else if counts[key] - 1 == 0 then counts - {key}
    else counts[key := counts[key] - 1]
  }

  function AddRefs(counts: Counts, namespace: string, names: seq<string>): Counts
    decreases |names|
  {
    if names == [] then counts else AddRefs(AddRef(counts, KeyOf(namespace, names[0])), namespace, names[1..])
  }

  function DeleteRefs(counts: Counts, namespace: string, names: seq<string>): Counts
    decreases |names|
  {
    if names == [] then counts else DeleteRefs(DeleteRef(counts, KeyOf(namespace, names[0])), namespace, names[1..])
  }

  ghost predicate Enumerates(order: seq<string>, names: set<string>) {
    (forall n :: n in order <==> n in names) &&
    (forall i, j :: 0 <= i < j < |order| ==> order[i] != order[j])
  }

  // ---------- what the counts mean ----------

  type Registered = map<ObjectKey, Pod>

  predicate Mentions(pod: Pod, refs: Pod -> set<string>, key: ObjectKey) {
    key.uid == "" && pod.namespace == key.namespace && key.name in refs(pod)
  }

  /** The registered pods that mention the object. */
  function Mentioning(registered: Registered, refs: Pod -> set<string>, key: ObjectKey): set<ObjectKey> {
    set k | k in registered && Mentions(registered[k], refs, key)
  }

  ghost predicate Positive(counts: Counts) {
    forall key :: key in counts ==> counts[key] > 0
  }

  /** An object is kept exactly while somebody mentions it, with the number of those who do. */
  ghost predicate Conserved(counts: Counts, registered: Registered, refs: Pod -> set<string>) {
    Positive(counts) && forall key :: CountOf(counts, key) == |Mentioning(registered, refs, key)|
  }

  /** The registered pods determine the counts: registering a pod twice, for one, changes none. */
  lemma CountsDetermined(a: Counts, b: Counts, registered: Registered, refs: Pod -> set<string>)
    requires Conserved(a, registered, refs) && Conserved(b, registered, refs)
    ensures a == b
  {
    forall key ensures (key in a <==> key in b) && (key in a ==> a[key] == b[key]) {
      assert CountOf(a, key) == CountOf(b, key);
    }
  }

  lemma KeptIffMentioned(counts: Counts, registered: Registered, refs: Pod -> set<string>, key: ObjectKey)
    requires Conserved(counts, registered, refs)
    ensures key in counts <==> exists k :: k in registered && Mentions(registered[k], refs, key)
  {
    assert CountOf(counts, key) == |Mentioning(registered, refs, key)|;
    if k :| k in registered && Mentions(registered[k], refs, key) {
      assert k in Mentioning(registered, refs, key);
    }
  }

  // ---------- registering and unregistering ----------

  predicate Names(namespace: string, names: seq<string>, key: ObjectKey) {
    key.uid == "" && key.namespace == namespace && key.name in names
  }

  lemma {:induction false} AddRefsIs(counts: Counts, namespace: string, names: seq<string>)
    requires Positive(counts) && forall i, j :: 0 <= i < j < |names| ==> names[i] != names[j]
    ensures var counts' := AddRefs(counts, namespace, names);
            Positive(counts') &&
            forall key :: CountOf(counts', key) == CountOf(counts, key) + if Names(namespace, names, key) then 1 else 0
    decreases |names|
  {
    if names != [] {
      AddRefsIs(AddRef(counts, KeyOf(namespace, names[0])), namespace, names[1..]);
      assert forall n :: n in names <==> n == names[0] || n in names[1..];
    }
  }

  lemma {:induction false} DeleteRefsIs(counts: Counts, namespace: string, names: seq<string>)
    requires Positive(counts) && forall i, j :: 0 <= i < j < |names| ==> names[i] != names[j]
    requires forall key :: Names(namespace, names, key) ==> key in counts
    ensures var counts' := DeleteRefs(counts, namespace, names);
            Positive(counts') &&
            forall key :: CountOf(counts', key) == CountOf(counts, key) - if Names(namespace, names, key) then 1 else 0
    decreases |names|
  {
    if names != [] {
      assert Names(namespace, names, KeyOf(namespace, names[0]));
      assert forall n :: n in names <==> n == names[0] || n in names[1..];
      DeleteRefsIs(DeleteRef(counts, KeyOf(namespace, names[0])), namespace, names[1..]);
    }
  }

  lemma MentioningWith(registered: Registered, refs: Pod -> set<string>, pod: Pod, key: ObjectKey)
    ensures var k := PodKey(pod);
            |Mentioning(registered[k := pod], refs, key)| ==
              |Mentioning(registered - {k}, refs, key)| + if Mentions(pod, refs, key) then 1 else 0
  {
    var k := PodKey(pod);
    var rest := Mentioning(registered - {k}, refs, key);
    assert Mentioning(registered[k := pod], refs, key) == if Mentions(pod, refs, key) then rest + {k} else rest;
  }

  lemma MentioningWithout(registered: Registered, refs: Pod -> set<string>, k: ObjectKey, key: ObjectKey)
    requires k in registered
    ensures |Mentioning(registered, refs, key)| ==
              |Mentioning(registered - {k}, refs, key)| + if Mentions(registered[k], refs, key) then 1 else 0
  {
    var rest := Mentioning(registered - {k}, refs, key);
    assert Mentioning(registered, refs, key) == if Mentions(registered[k], refs, key) then rest + {k} else rest;
  }

  /** Registering adds the references of the pod, then deletes those of its previous version. */
  lemma RegisterConserves(
      counts: Counts, registered: Registered, refs: Pod -> set<string>, pod: Pod, names: seq<string>,
      previous: seq<string>)
    requires Conserved(counts, registered, refs) && Enumerates(names, refs(pod))
    requires PodKey(pod) in registered ==> Enumerates(previous, refs(registered[PodKey(pod)]))
    ensures var k := PodKey(pod);
            var added := AddRefs(counts, pod.namespace, names);
            Conserved(if k in registered then DeleteRefs(added, registered[k].namespace, previous) else added,
                      registered[k := pod], refs)
  {
    var k := PodKey(pod);
    AddRefsIs(counts, pod.namespace, names);
    var added := AddRefs(counts, pod.namespace, names);
    if k in registered {
      StillCounted(added, registered, refs, k, previous);
      DeleteRefsIs(added, registered[k].namespace, previous);
    }
    var after := if k in registered then DeleteRefs(added, registered[k].namespace, previous) else added;
    forall key ensures CountOf(after, key) == |Mentioning(registered[k := pod], refs, key)| {
      assert CountOf(counts, key) == |Mentioning(registered, refs, key)|;
      MentioningWith(registered, refs, pod, key);
      if k in registered {
        MentioningWithout(registered, refs, k, key);
      } else {
        assert registered - {k} == registered;
      }
    }
  }

  /** Registering a pod that is registered already changes no count. */
  lemma RegisteringTwice(
      counts: Counts, registered: Registered, refs: Pod -> set<string>, pod: Pod, names: seq<string>,
      previous: seq<string>)
    requires Conserved(counts, registered, refs) && PodKey(pod) in registered && registered[PodKey(pod)] == pod
    requires Enumerates(names, refs(pod)) && Enumerates(previous, refs(pod))
    ensures DeleteRefs(AddRefs(counts, pod.namespace, names), pod.namespace, previous) == counts
  {
    RegisterConserves(counts, registered, refs, pod, names, previous);
    assert registered[PodKey(pod) := pod] == registered;
    CountsDetermined(DeleteRefs(AddRefs(counts, pod.namespace, names), pod.namespace, previous), counts, registered,
                     refs);
  }

  /** What the previous version mentions has a count to give up. */
  lemma StillCounted(
      counts: Counts, registered: Registered, refs: Pod -> set<string>, k: ObjectKey, previous: seq<string>)
    requires k in registered && Enumerates(previous, refs(registered[k]))
    requires forall key :: CountOf(counts, key) >= |Mentioning(registered, refs, key)|
    ensures forall key :: Names(registered[k].namespace, previous, key) ==> key in counts
  {
    forall key | Names(registered[k].namespace, previous, key) ensures key in counts {
      assert k in Mentioning(registered, refs, key);
      assert CountOf(counts, key) >= |Mentioning(registered, refs, key)|;
    }
  }

  lemma UnregisterConserves(
      counts: Counts, registered: Registered, refs: Pod -> set<string>, k: ObjectKey, previous: seq<string>)
    requires Conserved(counts, registered, refs) && k in registered && Enumerates(previous, refs(registered[k]))
    ensures Conserved(DeleteRefs(counts, registered[k].namespace, previous), registered - {k}, refs)
  {
    StillCounted(counts, registered, refs, k, previous);
    DeleteRefsIs(counts, registered[k].namespace, previous);
    forall key ensures CountOf(DeleteRefs(counts, registered[k].namespace, previous), key) ==
                       |Mentioning(registered - {k}, refs, key)|
    {
      assert CountOf(counts, key) == |Mentioning(registered, refs, key)|;
      MentioningWithout(registered, refs, k, key);
    }
  }

  lemma {:induction false} CountedTwiceStays(
      counts: Counts, namespace: string, names: seq<string>, key: ObjectKey, done: nat)
    requires Positive(counts) && done <= |names| && forall i, j :: 0 <= i < j < |names| ==> names[i] != names[j]
    requires CountOf(counts, key) >= 2
    ensures key in DeleteRefs(counts, namespace, names[..done])
    decreases |names|
  {
    if done > 0 {
      assert names[..done][1..] == names[1..][..done - 1];
      var counts' := DeleteRef(counts, KeyOf(namespace, names[0]));
      if key == KeyOf(namespace, names[0]) {
        Untouched(counts', namespace, names[1..][..done - 1], key);
      } else {
        CountedTwiceStays(counts', namespace, names[1..], key, done - 1);
      }
    }
  }

  /** What both versions of a pod mention has its key at every moment of a registration: while the new references
      are added, and while those of the previous version are deleted. Its item stays. */
  lemma NeverDropped(
      counts: Counts, registered: Registered, refs: Pod -> set<string>, pod: Pod, names: seq<string>,
      previous: seq<string>, key: ObjectKey, added: nat, deleted: nat)
    requires Conserved(counts, registered, refs) && Enumerates(names, refs(pod))
    requires PodKey(pod) in registered && Enumerates(previous, refs(registered[PodKey(pod)]))
    requires Mentions(pod, refs, key) && Mentions(registered[PodKey(pod)], refs, key)
    requires added <= |names| && deleted <= |previous|
    ensures key in AddRefs(counts, pod.namespace, names[..added])
    ensures key in DeleteRefs(AddRefs(counts, pod.namespace, names), registered[PodKey(pod)].namespace,
                              previous[..deleted])
  {
    var prev := registered[PodKey(pod)];
    KeptIffMentioned(counts, registered, refs, key);
    assert key in counts;
    assert counts[key] > 0 && CountOf(counts, key) >= 1;
    AddRefsIs(counts, pod.namespace, names[..added]);
    AddRefsIs(counts, pod.namespace, names);
    assert Names(pod.namespace, names, key);
    CountedTwiceStays(AddRefs(counts, pod.namespace, names), prev.namespace, previous, key, deleted);
  }

  lemma {:induction false} Untouched(counts: Counts, namespace: string, names: seq<string>, key: ObjectKey)
    requires key in counts && !Names(namespace, names, key)
    ensures key in DeleteRefs(counts, namespace, names)
    decreases |names|
  {
    if names != [] { Untouched(DeleteRef(counts, KeyOf(namespace, names[0])), namespace, names[1..], key); }
  }
}
