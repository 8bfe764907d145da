/** The pod storage as the object that merges updates in place. */
module PodConfigStorage {
  import opened Wrappers
  import opened Api
  import opened PodConfig

  /** Compares two annotation maps entry by entry, in whatever order the maps yield their keys. */
  method IsAnnotationMapEqual(existing: Annotations, candidate: Annotations) returns (equal: bool)
    ensures equal <==> forall k :: !IsLocalAnnotationKey(k) ==>
              (k in existing <==> k in candidate) && (k in existing && k in candidate ==> existing[k] == candidate[k])
    ensures equal <==> Foreign(existing) == Foreign(candidate)
  {
    ForeignEqual(existing, candidate);
    var left := candidate.Keys;
    while left != {}
      invariant left <= candidate.Keys
      invariant forall k :: k in candidate.Keys - left && !IsLocalAnnotationKey(k) ==>
                k in existing && existing[k] == candidate[k]
      decreases left
    {
      var k :| k in left;
      left := left - {k};
      if !IsLocalAnnotationKey(k) && !(k in existing && existing[k] == candidate[k]) { return false; }
    }
    left := existing.Keys;
    while left != {}
      invariant left <= existing.Keys
      invariant forall k :: k in existing.Keys - left && !IsLocalAnnotationKey(k) ==> k in candidate
      decreases left
    {
      var k :| k in left;
      left := left - {k};
      if !IsLocalAnnotationKey(k) && k !in candidate { return false; }
    }
    equal := true;
  }

  lemma ForeignEqual(a: Annotations, b: Annotations)
    ensures Foreign(a) == Foreign(b) <==>
              forall k :: !IsLocalAnnotationKey(k) ==> (k in a <==> k in b) && (k in a && k in b ==> a[k] == b[k])
  {
    hide IsLocalAnnotationKey;
    if Foreign(a) == Foreign(b) {
      forall k | !IsLocalAnnotationKey(k) ensures (k in a <==> k in b) && (k in a && k in b ==> a[k] == b[k]) {
        assert (k in Foreign(a) <==> k in Foreign(b)) && (k in Foreign(a) ==> Foreign(a)[k] == Foreign(b)[k]);
      }
    }
  }

  const LOCALS := [CONFIG_SOURCE_ANNOTATION_KEY, CONFIG_MIRROR_ANNOTATION_KEY, CONFIG_FIRST_SEEN_ANNOTATION_KEY]

  lemma LocalsAre(k: string)
    ensures k in LOCALS <==> IsLocalAnnotationKey(k)
  {
    var a, b, c := CONFIG_SOURCE_ANNOTATION_KEY, CONFIG_MIRROR_ANNOTATION_KEY, CONFIG_FIRST_SEEN_ANNOTATION_KEY;
    var locals := [a, b, c];
    assert locals[0] == a && locals[1] == b && locals[2] == c;
  }

  /** The annotations that are listed in `keys`. */
  function Among(annotations: Annotations, keys: seq<string>): Annotations {
    map k | k in annotations && k in keys :: annotations[k]
  }

  /** Copies the listed annotations that there are. */
  method CopyListed(to: Annotations, existing: Annotations, keys: seq<string>) returns (annotations: Annotations)
    ensures annotations == to + Among(existing, keys)
  {
    annotations := to;
    for i := 0 to |keys|
      invariant annotations == to + Among(existing, keys[..i])
    {
      assert keys[..i + 1] == keys[..i] + [keys[i]];
      AmongSnoc(existing, keys[..i], keys[i]);
      if keys[i] in existing { annotations := annotations[keys[i] := existing[keys[i]]]; }
    }
    assert keys[..|keys|] == keys;
  }

  /** The annotations of the update plus the stored pod's own local ones. */
  method UpdateAnnotations(existing: Pod, ref: Pod) returns (annotations: Annotations)
    ensures annotations == ref.annotations + Local(existing.annotations)
  {
    annotations := CopyListed(ref.annotations, existing.annotations, LOCALS);
    ListedIsLocal(existing.annotations);
  }

  lemma ListedIsLocal(annotations: Annotations)
    ensures Among(annotations, LOCALS) == Local(annotations)
  {
    forall k ensures k in LOCALS <==> IsLocalAnnotationKey(k) { LocalsAre(k); }
    hide IsLocalAnnotationKey;
  }

  lemma AmongSnoc(annotations: Annotations, keys: seq<string>, k: string)
    ensures Among(annotations, keys + [k]) ==
              if k in annotations then Among(annotations, keys)[k := annotations[k]] else Among(annotations, keys)
  {
    forall j ensures j in keys + [k] <==> j in keys || j == k {}
  }

  method CheckPod(existing: Pod, ref: Pod) returns (pod: Pod, need: Need)
    ensures (pod, need) == CheckAndUpdatePod(existing, ref)
  {
    pod, need := existing, Nothing;
    var sameAnnotations := IsAnnotationMapEqual(existing.annotations, ref.annotations);
    if existing.spec == ref.spec && existing.labels == ref.labels &&
      existing.deletionTimestamp == ref.deletionTimestamp &&
       existing.deletionGracePeriodSeconds == ref.deletionGracePeriodSeconds && sameAnnotations
    {
      if existing.status != ref.status {
        pod := pod.(status := ref.status);
        need := NeedReconcile;
      }
      return;
    }
    var seen := ref.(annotations := ref.annotations[CONFIG_FIRST_SEEN_ANNOTATION_KEY := FirstSeen(existing)]);
    var annotations := UpdateAnnotations(existing, seen);
    pod := pod.(spec := ref.spec, labels := ref.labels, deletionTimestamp := ref.deletionTimestamp,
                deletionGracePeriodSeconds := ref.deletionGracePeriodSeconds, status := ref.status,
                annotations := annotations);
    need := if ref.deletionTimestamp.Some? then NeedGracefulDelete else NeedUpdate;
  }

  ghost function Names(pods: seq<Pod>): set<string> {
    set i | 0 <= i < |pods| :: FullName(pods[i])
  }

  lemma NamesSnoc(pods: seq<Pod>, pod: Pod)
    ensures Names(pods + [pod]) == Names(pods) + {FullName(pod)}
  {
    var all := pods + [pod];
    forall n ensures n in Names(all) <==> n in Names(pods) || n == FullName(pod) {
      if n in Names(pods) {
        var i :| 0 <= i < |pods| && FullName(pods[i]) == n;
        assert FullName(all[i]) == n;
      }
      assert all[|pods|] == pod;
    }
  }

  /** Keeps the first pod of each full name. */
  method FilterInvalid(pods: seq<Pod>) returns (filtered: seq<Pod>)
    ensures filtered == FilterInvalidPods(pods)
    ensures forall i, j :: 0 <= i < j < |filtered| ==> FullName(filtered[i]) != FullName(filtered[j])
    ensures Names(filtered) == Names(pods)
  {
    var names: set<string> := {};
    filtered := [];
    hide FullName;
    for i := 0 to |pods|
      invariant filtered == FilterInvalidPods(pods[..i])
      invariant names == Names(pods[..i]) == Names(filtered)
      invariant forall j, k :: 0 <= j < k < |filtered| ==> FullName(filtered[j]) != FullName(filtered[k])
    {
      var name := FullName(pods[i]);
      assert pods[..i + 1] == pods[..i] + [pods[i]];
      NamesSnoc(pods[..i], pods[i]);
      NamesSnoc(filtered, pods[i]);
      if name !in names {
        names := names + {name};
        filtered := filtered + [pods[i]];
      }
    }
    assert pods[..|pods|] == pods;
  }

  class PodStorage {
    var pods: map<string, map<UID, Pod>>
    var sourcesSeen: set<string>
    /** What has been sent to the updates channel. */
    var updates: seq<PodUpdate>

    function View(): Storage
      reads this
    {
      Storage(pods, sourcesSeen)
    }

    constructor ()
      ensures View() == EMPTY && updates == []
    {
      pods, sourcesSeen, updates := map[], {}, [];
    }

    /** Merges one pod into the stored ones; `rebuild` says that they go into a new map. */
    method UpdatePod(m: Merging, newPod: Pod, source: string, rebuild: bool, at: string) returns (m': Merging)
      ensures m' == MergeOne(m, newPod, source, rebuild, at)
    {
      var ref := FromSource(newPod, source);
      if ref.uid in m.before {
        var existing, need := CheckPod(m.before[ref.uid], ref);
        return Merging(m.before[ref.uid := existing], m.pods[ref.uid := existing],
                       PodConfig.Note(RefreshAll(m.changes, existing), need, existing));
      }
      var added := Seen(ref, at);
      m' := Merging(if rebuild then m.before else m.before[ref.uid := added], m.pods[ref.uid := added],
                    m.changes.(adds := m.changes.adds + [added]));
    }

    method UpdatePods(
        start: Merging, newPods: seq<Pod>, source: string, rebuild: bool, clock: nat -> string)
        returns (m: Merging)
      ensures m == MergeAll(start, FilterInvalidPods(newPods), source, rebuild, clock)
    {
      var filtered := FilterInvalid(newPods);
      hide MergeOne;
      m := start;
      for i := 0 to |filtered|
        invariant m == MergeAll(start, filtered[..i], source, rebuild, clock)
      {
        assert filtered[..i + 1][..i] == filtered[..i];
        m := UpdatePod(m, filtered[i], source, rebuild, clock(i));
      }
      assert filtered[..|filtered|] == filtered;
    }

    method RemovePods(stored: map<UID, Pod>, values: seq<Pod>) returns (left: map<UID, Pod>, removed: seq<Pod>)
      ensures (left, removed) == RemoveAll(stored, [], values)
    {
      left, removed := stored, [];
      for i := 0 to |values|
        invariant RemoveAll(left, removed, values[i..]) == RemoveAll(stored, [], values)
      {
        assert values[i..][1..] == values[i + 1..];
        if values[i].uid in left {
          removed := removed + [left[values[i].uid]];
          left := left - {values[i].uid};
        }
      }
    }

    /** The stored pods that the new map misses, in the order in which the old map happens to yield them. */
    method MissingPods(stored: map<UID, Pod>, kept: map<UID, Pod>) returns (removed: seq<Pod>, order: seq<UID>)
      ensures Enumerates(order, stored.Keys) && removed == Missing(stored, kept, order)
    {
      var left := stored.Keys;
      removed, order := [], [];
      while left != {}
        invariant left <= stored.Keys && Enumerates(order, stored.Keys - left) &&
                  removed == Missing(stored, kept, order)
        decreases left
      {
        var uid :| uid in left;
        left := left - {uid};
        MissingSnoc(stored, kept, order, uid);
        if uid !in kept { removed := removed + [stored[uid]]; }
        order := order + [uid];
      }
    }

    method Send(op: PodOperation, list: seq<Pod>, source: string)
      modifies this`updates
      ensures updates == old(updates) + Message(op, list, source)
    {
      if |list| > 0 { updates := updates + [PodUpdate(op, list, source)]; }
    }

    /** Merges an update into the stored pods and lists the changes. */
    method MergeChange(source: string, change: PodUpdate, clock: nat -> string) returns (c: Changes, order: seq<UID>)
      modifies this`pods, this`sourcesSeen
      ensures var i := Input(source, change, clock, order);
              Valid(old(View()), i) && View() == After(old(View()), i) && c == ChangesOf(old(View()), i)
    {
      var stored := if source in pods then pods[source] else map[];
      var m, removed;
      removed, order := MissingPods(stored, stored);
      if change.op == SET {
        sourcesSeen := sourcesSeen + {source};
        m := UpdatePods(Merging(stored, map[], NO_CHANGES), change.pods, source, true, clock);
        KeysKept(Merging(stored, map[], NO_CHANGES), FilterInvalidPods(change.pods), source, clock);
        removed, order := MissingPods(m.before, m.pods);
        m := m.(changes := m.changes.(removes := removed));
      } else if change.op == REMOVE {
        var left, gone := RemovePods(stored, change.pods);
        m := Merging(stored, left, NO_CHANGES.(removes := gone));
      } else if change.op == RECONCILE {
        m := Merging(stored, stored, NO_CHANGES);
      } else {
        m := UpdatePods(Merging(stored, stored, NO_CHANGES), change.pods, source, false, clock);
      }
      hide MergeAll, RemoveAll, FilterInvalidPods, Missing;
      pods := pods[source := m.pods];
      c := m.changes;
    }

    /** Merges an update and delivers the changes, in their order. */
    method Merge(source: string, change: PodUpdate, clock: nat -> string) returns (order: seq<UID>)
      modifies this
      ensures var i := Input(source, change, clock, order);
              Valid(old(View()), i) && View() == After(old(View()), i) &&
              updates == old(updates) + Delivered(old(View()), i)
    {
      var seenBefore := source in sourcesSeen;
      var c;
      c, order := MergeChange(source, change, clock);
      ghost var i := Input(source, change, clock, order);
      var firstSet := !seenBefore && source in sourcesSeen;
      assert firstSet <==> source !in old(sourcesSeen) && change.op == SET;
      assert Delivered(old(View()), i) == Messages(c, source, firstSet);
      hide ChangesOf, MergeInput, After;
      Deliver(c, source, firstSet);
    }

    method Deliver(c: Changes, source: string, firstSet: bool)
      modifies this`updates
      ensures updates == old(updates) + Messages(c, source, firstSet)
    {
      ghost var before := updates;
      hide Message;
      Send(REMOVE, c.removes, source);
      Send(ADD, c.adds, source);
      assert updates == before + (Message(REMOVE, c.removes, source) + Message(ADD, c.adds, source));
      Send(UPDATE, c.updates, source);
      assert updates == before + (Message(REMOVE, c.removes, source) + Message(ADD, c.adds, source) +
                                  Message(UPDATE, c.updates, source));
      Send(DELETE, c.deletes, source);
      ghost var sent := Message(REMOVE, c.removes, source) + Message(ADD, c.adds, source) +
                        Message(UPDATE, c.updates, source) + Message(DELETE, c.deletes, source);
      assert updates == before + sent;
      if firstSet && |c.adds| == 0 && |c.updates| == 0 && |c.deletes| == 0 {
        updates := updates + [PodUpdate(ADD, c.adds, source)];
      }
      ghost var announced := Announcement(c, source, firstSet);
      assert updates == before + (sent + announced);
      Send(RECONCILE, c.reconciles, source);
      assert updates == before + (sent + announced + Message(RECONCILE, c.reconciles, source));
    }
  }

  lemma {:induction false} MissingSnoc(stored: map<UID, Pod>, kept: map<UID, Pod>, order: seq<UID>, uid: UID)
    requires uid in stored && forall u :: u in order ==> u in stored
    ensures Missing(stored, kept, order + [uid]) ==
            Missing(stored, kept, order) + (if uid in kept then [] else [stored[uid]])
  {
    if order != [] {
      assert (order + [uid])[1..] == order[1..] + [uid];
      MissingSnoc(stored, kept, order[1..], uid);
    }
  }

  lemma {:induction false} KeysKept(m: Merging, refs: seq<Pod>, source: string, clock: nat -> string)
    ensures MergeAll(m, refs, source, true, clock).before.Keys == m.before.Keys
    decreases |refs|
  {
    if refs != [] { KeysKept(m, refs[..|refs| - 1], source, clock); }
  }
}
