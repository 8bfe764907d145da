/** Snapshots and deltas from several sources of pods become a stream of small changes. */
module PodConfig {
  import opened Wrappers
  import opened Api

  datatype PodOperation = SET | ADD | DELETE | REMOVE | UPDATE | RECONCILE

  datatype PodUpdate = PodUpdate(op: PodOperation, pods: seq<Pod>, source: string)

  /** The five lists a merge leaves behind. */
  datatype Changes = Changes(adds: seq<Pod>, updates: seq<Pod>, deletes: seq<Pod>, removes: seq<Pod>,
                             reconciles: seq<Pod>)

  const NO_CHANGES := Changes([], [], [], [], [])

  type Annotations = map<string, string>

  // ---------- comparing a pod with the stored one ----------

  predicate IsLocalAnnotationKey(key: string) {
    key == CONFIG_SOURCE_ANNOTATION_KEY || key == CONFIG_MIRROR_ANNOTATION_KEY ||
    key == CONFIG_FIRST_SEEN_ANNOTATION_KEY
  }

  /** The annotations that are not the kubelet's own. */
  function Foreign(annotations: Annotations): Annotations {
    map k | k in annotations && !IsLocalAnnotationKey(k) :: annotations[k]
  }

  predicate PodsDifferSemantically(existing: Pod, ref: Pod) {
    !(existing.spec == ref.spec && existing.labels == ref.labels &&
      existing.deletionTimestamp == ref.deletionTimestamp &&
      existing.deletionGracePeriodSeconds == ref.deletionGracePeriodSeconds &&
      Foreign(existing.annotations) == Foreign(ref.annotations))
  }

  function Local(annotations: Annotations): Annotations {
    map k | k in annotations && IsLocalAnnotationKey(k) :: annotations[k]
  }

  function FirstSeen(pod: Pod): string {
    if CONFIG_FIRST_SEEN_ANNOTATION_KEY in pod.annotations then pod.annotations[CONFIG_FIRST_SEEN_ANNOTATION_KEY]
      else ""
  }

  datatype Need = Nothing | NeedUpdate | NeedReconcile | NeedGracefulDelete

  /** What checkAndUpdatePod makes of the stored pod, and what it asks for. */
  function CheckAndUpdatePod(existing: Pod, ref: Pod): (Pod, Need) {
    if !PodsDifferSemantically(existing, ref) then
      (existing.(status := ref.status), if existing.status != ref.status then NeedReconcile else Nothing)
    else
      (existing.(
         spec := ref.spec, labels := ref.labels, deletionTimestamp := ref.deletionTimestamp,
         deletionGracePeriodSeconds := ref.deletionGracePeriodSeconds, status := ref.status,
         annotations := ref.annotations[CONFIG_FIRST_SEEN_ANNOTATION_KEY := FirstSeen(existing)] +
           Local(existing.annotations)),
       if ref.deletionTimestamp.Some? then NeedGracefulDelete else NeedUpdate)
  }

  // ---------- merging ----------

  /** The first pod of each full name, in order. */
  function FilterInvalidPods(pods: seq<Pod>): (filtered: seq<Pod>)
    decreases |pods|
  {
    if pods == [] then []
    else
      var before, pod := pods[..|pods| - 1], pods[|pods| - 1];
      if exists i :: 0 <= i < |before| && FullName(before[i]) == FullName(pod) then FilterInvalidPods(before)
      else FilterInvalidPods(before) + [pod]
  }

  /** The pods are shared with the stored map: a stored pod that changes changes in the lists as well. */
  function Refresh(pods: seq<Pod>, pod: Pod): seq<Pod> {
    seq(|pods|, i requires 0 <= i < |pods| => if pods[i].uid == pod.uid then pod else pods[i])
  }

  function RefreshAll(c: Changes, pod: Pod): Changes {
    Changes(Refresh(c.adds, pod), Refresh(c.updates, pod), Refresh(c.deletes, pod), c.removes,
            Refresh(c.reconciles, pod))
  }

  function Note(c: Changes, need: Need, pod: Pod): Changes {
    match need
    case Nothing => c
    case NeedUpdate => c.(updates := c.updates + [pod])
    case NeedReconcile => c.(reconciles := c.reconciles + [pod])
    case NeedGracefulDelete => c.(deletes := c.deletes + [pod])
  }

  /** A merge under way. A SET builds `pods` anew beside the one before; the other operations change one map. */
  datatype Merging = Merging(before: map<UID, Pod>, pods: map<UID, Pod>, changes: Changes)

  function FromSource(ref: Pod, source: string): Pod {
    ref.(annotations := ref.annotations[CONFIG_SOURCE_ANNOTATION_KEY := source])
  }

  function Seen(ref: Pod, at: string): Pod {
    ref.(annotations := ref.annotations[CONFIG_FIRST_SEEN_ANNOTATION_KEY := at])
  }

  /** One pod of an update; `rebuild` says that `pods` is a new map. */
  function MergeOne(m: Merging, ref: Pod, source: string, rebuild: bool, at: string): Merging {
    var pod := FromSource(ref, source);
    if pod.uid in m.before then
      var (existing, need) := CheckAndUpdatePod(m.before[pod.uid], pod);
      Merging(m.before[pod.uid := existing], m.pods[pod.uid := existing],
              Note(RefreshAll(m.changes, existing), need, existing))
    else
      var added := Seen(pod, at);
      Merging(if rebuild then m.before else m.before[pod.uid := added], m.pods[pod.uid := added],
              m.changes.(adds := m.changes.adds + [added]))
  }

  /** `clock` gives the time at which each pod of the update is first looked at. */
  function MergeAll(m: Merging, refs: seq<Pod>, source: string, rebuild: bool, clock: nat -> string): Merging
    decreases |refs|
  {
    if refs == [] then m
    else
      var n := |refs| - 1;
      MergeOne(MergeAll(m, refs[..n], source, rebuild, clock), refs[n], source, rebuild, clock(n))
  }

  function RemoveAll(pods: map<UID, Pod>, removed: seq<Pod>, values: seq<Pod>): (map<UID, Pod>, seq<Pod>)
    decreases |values|
  {
    if values == [] then (pods, removed)
    else if values[0].uid in pods then
      RemoveAll(pods - {values[0].uid}, removed + [pods[values[0].uid]], values[1..])
    else RemoveAll(pods, removed, values[1..])
  }

  /** The pods of `stored` that `pods` misses, in the arbitrary order in which the map yields them. */
  function Missing(stored: map<UID, Pod>, pods: map<UID, Pod>, order: seq<UID>): seq<Pod>
    requires forall u :: u in order ==> u in stored
  {
    if order == [] then []
    else (if order[0] in pods then [] else [stored[order[0]]]) + Missing(stored, pods, order[1..])
  }

  ghost predicate Enumerates(order: seq<UID>, uids: set<UID>) {
    (forall u :: u in order <==> u in uids) &&
    (forall i, j :: 0 <= i < j < |order| ==> order[i] != order[j])
  }

  datatype Storage = Storage(pods: map<string, map<UID, Pod>>, sourcesSeen: set<string>)

  const EMPTY := Storage(map[], {})

  function PodsOf(pods: map<string, map<UID, Pod>>, source: string): map<UID, Pod> {
    if source in pods then pods[source] else map[]
  }

  /** What came in: the change, when its pods were looked at, and the order in which the old map was read. */
  datatype Input = Input(source: string, change: PodUpdate, clock: nat -> string, order: seq<UID>)

  ghost predicate Valid(s: Storage, i: Input) {
    Enumerates(i.order, PodsOf(s.pods, i.source).Keys)
  }

  function MergeInput(s: Storage, i: Input): Merging {
    var stored := PodsOf(s.pods, i.source);
    match i.change.op
    case SET => MergeAll(Merging(stored, map[], NO_CHANGES), FilterInvalidPods(i.change.pods), i.source, true, i.clock)
    case REMOVE =>
      var (pods, removed) := RemoveAll(stored, [], i.change.pods);
      Merging(stored, pods, NO_CHANGES.(removes := removed))
    case RECONCILE => Merging(stored, stored, NO_CHANGES)
    case _ => MergeAll(Merging(stored, stored, NO_CHANGES), FilterInvalidPods(i.change.pods), i.source, false, i.clock)
  }

  function Removed(m: Merging, i: Input): Changes {
    if i.change.op == SET && (forall u :: u in i.order ==> u in m.before)
    then m.changes.(removes := Missing(m.before, m.pods, i.order)) else m.changes
  }

  function ChangesOf(s: Storage, i: Input): Changes {
    Removed(MergeInput(s, i), i)
  }

  function After(s: Storage, i: Input): Storage {
    Storage(s.pods[i.source := MergeInput(s, i).pods],
            if i.change.op == SET then s.sourcesSeen + {i.source} else s.sourcesSeen)
  }

  function Message(op: PodOperation, pods: seq<Pod>, source: string): seq<PodUpdate> {
    if pods == [] then [] else [PodUpdate(op, pods, source)]
  }

  /** A source that is first seen without a pod to add, update or delete is announced by an empty ADD. */
  function Announcement(c: Changes, source: string, firstSet: bool): seq<PodUpdate> {
    if firstSet && c.adds == [] && c.updates == [] && c.deletes == [] then [PodUpdate(ADD, [], source)] else []
  }

  function Messages(c: Changes, source: string, firstSet: bool): seq<PodUpdate> {
    Message(REMOVE, c.removes, source) + Message(ADD, c.adds, source) +
    Message(UPDATE, c.updates, source) + Message(DELETE, c.deletes, source) +
    Announcement(c, source, firstSet) + Message(RECONCILE, c.reconciles, source)
  }

  /** The messages a merge delivers, in order. */
  function Delivered(s: Storage, i: Input): seq<PodUpdate> {
    Messages(ChangesOf(s, i), i.source, i.source !in s.sourcesSeen && i.change.op == SET)
  }

  // ---------- the listener ----------

  /** The latest pod of each UID. */
  function Latest(pods: seq<Pod>): map<UID, Pod>
    decreases |pods|
  {
    if pods == [] then map[]
    else Latest(pods[..|pods| - 1])[pods[|pods| - 1].uid := pods[|pods| - 1]]
  }

  function UIDs(pods: seq<Pod>): set<UID> {
    set pod <- pods :: pod.uid
  }

  /** What a listener that keeps the pods of each source does with a message. */
  function Listen(known: map<string, map<UID, Pod>>, message: PodUpdate): map<string, map<UID, Pod>> {
    var pods := PodsOf(known, message.source);
    known[message.source := if message.op == REMOVE then pods - UIDs(message.pods) else pods + Latest(message.pods)]
  }

  function ListenAll(known: map<string, map<UID, Pod>>, messages: seq<PodUpdate>): map<string, map<UID, Pod>>
    decreases |messages|
  {
    if messages == [] then known else ListenAll(Listen(known, messages[0]), messages[1..])
  }

  ghost predicate SamePods(a: map<string, map<UID, Pod>>, b: map<string, map<UID, Pod>>) {
    forall source :: PodsOf(a, source) == PodsOf(b, source)
  }

  lemma {:induction false} LatestRefresh(pods: seq<Pod>, pod: Pod)
    ensures Latest(Refresh(pods, pod)) == if pod.uid in Latest(pods) then Latest(pods)[pod.uid := pod] else Latest(pods)
    decreases |pods|
  {
    if pods != [] {
      var n := |pods| - 1;
      assert Refresh(pods, pod)[..n] == Refresh(pods[..n], pod);
      LatestRefresh(pods[..n], pod);
    }
  }

  lemma LatestAppend(pods: seq<Pod>, pod: Pod)
    ensures Latest(pods + [pod]) == Latest(pods)[pod.uid := pod]
  {
    assert (pods + [pod])[..|pods|] == pods;
  }

  function Get(pods: map<UID, Pod>, u: UID): Option<Pod> {
    if u in pods then Some(pods[u]) else None
  }

  lemma LatestOfRefresh(list: seq<Pod>, pod: Pod, u: UID)
    ensures Get(Latest(Refresh(list, pod)), u) ==
              if u == pod.uid && Get(Latest(list), u).Some? then Some(pod) else Get(Latest(list), u)
  {
    LatestRefresh(list, pod);
    hide Latest, Refresh;
  }

  lemma LatestOfAppend(list: seq<Pod>, pod: Pod, u: UID)
    ensures Get(Latest(list + [pod]), u) == if u == pod.uid then Some(pod) else Get(Latest(list), u)
  {
    LatestAppend(list, pod);
    hide Latest;
  }

  /** What the four lists that add and change pods say last about one UID. */
  datatype Mentions = Mentions(adds: Option<Pod>, updates: Option<Pod>, deletes: Option<Pod>, reconciles: Option<Pod>)
  {
    predicate Changed() { updates.Some? || deletes.Some? || reconciles.Some? }
    predicate Touched() { adds.Some? || Changed() }
  }

  function MentionsOf(c: Changes, u: UID): Mentions {
    Mentions(Get(Latest(c.adds), u), Get(Latest(c.updates), u), Get(Latest(c.deletes), u), Get(Latest(c.reconciles), u))
  }

  /** What a merge under way has made of one UID: `start` was stored when it began. */
  predicate TrackedAt(
      u: UID, start: Option<Pod>, before: Option<Pod>, now: Option<Pod>, said: Mentions, rebuild: bool) {
    (said.adds.Some? ==> said.adds == now) && (said.updates.Some? ==> said.updates == now) &&
    (said.deletes.Some? ==> said.deletes == now) && (said.reconciles.Some? ==> said.reconciles == now) &&
    (said.Changed() ==> before.Some?) &&
    (now.Some? && !said.Touched() ==> start == now) &&
    (start.Some? ==> before.Some?) &&
    (before.Some? && now.None? ==> start == before && !said.Touched()) &&
    (before.Some? && now.Some? ==> before == now) &&
    (if rebuild then before.Some? <==> start.Some? else before == now) &&
    (before.Some? ==> before.value.uid == u) && (now.Some? ==> now.value.uid == u)
  }

  predicate TracksAt(m: Merging, start: map<UID, Pod>, rebuild: bool, u: UID) {
    TrackedAt(u, Get(start, u), Get(m.before, u), Get(m.pods, u), MentionsOf(m.changes, u), rebuild)
  }

  /** What the lists say about a merge that began with the pods `start`. */
  ghost predicate Tracks(m: Merging, start: map<UID, Pod>, rebuild: bool) {
    forall u :: TracksAt(m, start, rebuild, u)
  }

  /** Pods are stored under their UID. */
  ghost predicate Keyed(pods: map<UID, Pod>) {
    forall u :: u in pods ==> pods[u].uid == u
  }

  function Refreshed(said: Option<Pod>, pod: Pod, noted: bool): Option<Pod> {
    if noted || said.Some? then Some(pod) else None
  }

  /** A stored pod that changes is refreshed wherever it is mentioned, and noted in the list of its need. */
  lemma NoteMentions(c: Changes, need: Need, pod: Pod, u: UID)
    ensures var said, c' := MentionsOf(c, u), Note(RefreshAll(c, pod), need, pod);
            MentionsOf(c', u) ==
              if u != pod.uid then said
              else Mentions(Refreshed(said.adds, pod, false), Refreshed(said.updates, pod, need == NeedUpdate),
                            Refreshed(said.deletes, pod, need == NeedGracefulDelete),
                            Refreshed(said.reconciles, pod, need == NeedReconcile))
  {
    LatestOfRefresh(c.adds, pod, u);
    LatestOfRefresh(c.updates, pod, u);
    LatestOfRefresh(c.deletes, pod, u);
    LatestOfRefresh(c.reconciles, pod, u);
    LatestOfAppend(Refresh(c.updates, pod), pod, u);
    LatestOfAppend(Refresh(c.deletes, pod), pod, u);
    LatestOfAppend(Refresh(c.reconciles, pod), pod, u);
    hide Latest, Refresh, Get;
  }

  lemma MergeOneTracks(m: Merging, start: map<UID, Pod>, ref: Pod, source: string, rebuild: bool, at: string)
    requires Tracks(m, start, rebuild)
    ensures Tracks(MergeOne(m, ref, source, rebuild, at), start, rebuild)
  {
    var pod := FromSource(ref, source);
    hide Tracks;
    if pod.uid in m.before {
      var (existing, need) := CheckAndUpdatePod(m.before[pod.uid], pod);
      assert Keyed(m.before) by { KeyedBefore(m, start, rebuild); }
      CheckKeepsUID(m.before[pod.uid], pod);
      hide CheckAndUpdatePod;
      StoredTracks(m, start, rebuild, existing, need);
    } else {
      AddedTracks(m, start, rebuild, Seen(pod, at));
    }
  }

  lemma KeyedBefore(m: Merging, start: map<UID, Pod>, rebuild: bool)
    requires Tracks(m, start, rebuild)
    ensures Keyed(m.before) && Keyed(m.pods)
  {
    forall u ensures (u in m.before ==> m.before[u].uid == u) && (u in m.pods ==> m.pods[u].uid == u) {
      assert TracksAt(m, start, rebuild, u);
    }
  }

  lemma StoredTracks(m: Merging, start: map<UID, Pod>, rebuild: bool, existing: Pod, need: Need)
    requires Tracks(m, start, rebuild) && existing.uid in m.before
    requires need == Nothing ==> existing == m.before[existing.uid]
    ensures Tracks(Merging(m.before[existing.uid := existing], m.pods[existing.uid := existing],
                           Note(RefreshAll(m.changes, existing), need, existing)), start, rebuild)
  {
    var m' := Merging(m.before[existing.uid := existing], m.pods[existing.uid := existing],
                      Note(RefreshAll(m.changes, existing), need, existing));
    forall u ensures TracksAt(m', start, rebuild, u) {
      assert TracksAt(m, start, rebuild, u) && TracksAt(m, start, rebuild, existing.uid);
      NoteMentions(m.changes, need, existing, u);
      hide Tracks, Note, RefreshAll, MentionsOf;
      StoredAt(u, Get(start, u), Get(m.before, u), Get(m.pods, u), MentionsOf(m.changes, u), rebuild, existing, need);
    }
  }

  lemma StoredAt(
      u: UID, start: Option<Pod>, before: Option<Pod>, now: Option<Pod>, said: Mentions, rebuild: bool, existing: Pod,
      need: Need)
    requires TrackedAt(u, start, before, now, said, rebuild)
    requires u == existing.uid ==> before.Some? && (need == Nothing ==> before.value == existing)
    ensures var hit := u == existing.uid;
            TrackedAt(u, start, if hit then Some(existing) else before, if hit then Some(existing) else now,
                      if !hit then said
                      else Mentions(Refreshed(said.adds, existing, false),
                                    Refreshed(said.updates, existing, need == NeedUpdate),
                                    Refreshed(said.deletes, existing, need == NeedGracefulDelete),
                                    Refreshed(said.reconciles, existing, need == NeedReconcile)), rebuild)
  {
  }

  lemma AddedTracks(m: Merging, start: map<UID, Pod>, rebuild: bool, added: Pod)
    requires Tracks(m, start, rebuild) && added.uid !in m.before
    ensures Tracks(Merging(if rebuild then m.before else m.before[added.uid := added], m.pods[added.uid := added],
                           m.changes.(adds := m.changes.adds + [added])), start, rebuild)
  {
    var m' := Merging(if rebuild then m.before else m.before[added.uid := added], m.pods[added.uid := added],
                      m.changes.(adds := m.changes.adds + [added]));
    forall u ensures TracksAt(m', start, rebuild, u) {
      assert TracksAt(m, start, rebuild, u);
      LatestOfAppend(m.changes.adds, added, u);
      hide Latest;
      assert u != added.uid ==> Get(m'.before, u) == Get(m.before, u) && Get(m'.pods, u) == Get(m.pods, u);
    }
  }

  lemma CheckKeepsUID(existing: Pod, ref: Pod)
    ensures var (pod, need) := CheckAndUpdatePod(existing, ref);
            pod.uid == existing.uid && (need == Nothing ==> pod == existing)
  {
  }

  lemma {:induction false} MergeAllTracks(
      m: Merging, start: map<UID, Pod>, refs: seq<Pod>, source: string, rebuild: bool, clock: nat -> string)
    requires Tracks(m, start, rebuild)
    ensures Tracks(MergeAll(m, refs, source, rebuild, clock), start, rebuild)
    decreases |refs|
  {
    if refs != [] {
      var n := |refs| - 1;
      MergeAllTracks(m, start, refs[..n], source, rebuild, clock);
      MergeOneTracks(MergeAll(m, refs[..n], source, rebuild, clock), start, refs[n], source, rebuild, clock(n));
    }
  }

  // ---------- the stream of changes rebuilds the store ----------

  /** What the five lists make of the pods a merge began with. */
  function Replayed(start: map<UID, Pod>, c: Changes): map<UID, Pod> {
    start - UIDs(c.removes) + Latest(c.adds) + Latest(c.updates) + Latest(c.deletes) + Latest(c.reconciles)
  }

  lemma ReplayedAt(start: map<UID, Pod>, c: Changes, u: UID)
    ensures var said := MentionsOf(c, u);
            Get(Replayed(start, c), u) ==
              if said.reconciles.Some? then said.reconciles
              else if said.deletes.Some? then said.deletes
              else if said.updates.Some? then said.updates
              else if said.adds.Some? then said.adds
              else if u in UIDs(c.removes) then None else Get(start, u)
  {
    hide Latest, UIDs;
  }

  lemma ReplayedIs(m: Merging, start: map<UID, Pod>, rebuild: bool, removes: seq<Pod>)
    requires Tracks(m, start, rebuild)
    requires forall u :: u in UIDs(removes) <==> u in m.before && u !in m.pods
    ensures Replayed(start, m.changes.(removes := removes)) == m.pods
  {
    var c := m.changes.(removes := removes);
    forall u ensures Get(Replayed(start, c), u) == Get(m.pods, u) {
      ReplayedAt(start, c, u);
      assert MentionsOf(c, u) == MentionsOf(m.changes, u);
      assert TracksAt(m, start, rebuild, u);
      hide Replayed, UIDs, MentionsOf;
    }
    hide Replayed;
    SameMap(Replayed(start, c), m.pods);
  }

  lemma SameMap(a: map<UID, Pod>, b: map<UID, Pod>)
    requires forall u :: Get(a, u) == Get(b, u)
    ensures a == b
  {
    forall u ensures (u in a <==> u in b) && (u in a ==> a[u] == b[u]) {
      assert Get(a, u) == Get(b, u);
    }
  }

  lemma {:induction false} MissingUIDs(stored: map<UID, Pod>, pods: map<UID, Pod>, order: seq<UID>)
    requires Keyed(stored) && forall u :: u in order ==> u in stored
    ensures forall u :: u in UIDs(Missing(stored, pods, order)) <==> u in order && u !in pods
  {
    if order != [] {
      MissingUIDs(stored, pods, order[1..]);
      var rest := Missing(stored, pods, order[1..]);
      forall u ensures u in UIDs(Missing(stored, pods, order)) <==> u in order && u !in pods {
        assert u in order <==> u == order[0] || u in order[1..];
        if order[0] !in pods { UIDsCons(stored[order[0]], rest); } else { assert [] + rest == rest; }
      }
    }
  }

  lemma UIDsCons(pod: Pod, pods: seq<Pod>)
    ensures UIDs([pod] + pods) == {pod.uid} + UIDs(pods)
  {
    assert forall p :: p in [pod] + pods <==> p == pod || p in pods;
  }

  lemma {:induction false} RemoveAllIs(pods: map<UID, Pod>, removed: seq<Pod>, values: seq<Pod>)
    requires Keyed(pods)
    ensures var (pods', removed') := RemoveAll(pods, removed, values);
            Keyed(pods') && UIDs(removed') == UIDs(removed) + (UIDs(values) * pods.Keys) && pods' == pods - UIDs(values)
    decreases |values|
  {
    if values != [] {
      var u := values[0].uid;
      assert values == [values[0]] + values[1..];
      UIDsCons(values[0], values[1..]);
      if u in pods {
        UIDsSnoc(removed, pods[u]);
        RemoveAllIs(pods - {u}, removed + [pods[u]], values[1..]);
        RemoveOneMore(pods, u, UIDs(values[1..]));
      } else {
        RemoveAllIs(pods, removed, values[1..]);
        assert pods - UIDs(values) == pods - UIDs(values[1..]);
      }
      hide UIDs;
    }
  }

  lemma RemoveOneMore(pods: map<UID, Pod>, u: UID, rest: set<UID>)
    requires u in pods
    ensures pods - {u} - rest == pods - ({u} + rest)
    ensures {u} + (rest * (pods - {u}).Keys) == ({u} + rest) * pods.Keys
  {
  }

  lemma UIDsSnoc(pods: seq<Pod>, pod: Pod)
    ensures UIDs(pods + [pod]) == UIDs(pods) + {pod.uid}
  {
    assert forall p :: p in pods + [pod] <==> p == pod || p in pods;
  }

  ghost predicate Sound(s: Storage) {
    forall source :: Keyed(PodsOf(s.pods, source))
  }

  lemma StartTracks(start: map<UID, Pod>, rebuild: bool)
    requires Keyed(start)
    ensures Tracks(Merging(start, if rebuild then map[] else start, NO_CHANGES), start, rebuild)
  {
  }

  /** One merge: the lists turn the pods stored for the source into the new ones. */
  lemma ChangesReplay(s: Storage, i: Input)
    requires Sound(s) && Valid(s, i)
    ensures Replayed(PodsOf(s.pods, i.source), ChangesOf(s, i)) == MergeInput(s, i).pods
    ensures Keyed(MergeInput(s, i).pods)
  {
    var start, m := PodsOf(s.pods, i.source), MergeInput(s, i);
    assert Keyed(start);
    if i.change.op == REMOVE {
      RemoveAllIs(start, [], i.change.pods);
      var (pods, removed) := RemoveAll(start, [], i.change.pods);
      assert start - UIDs(removed) == pods;
    } else {
      var rebuild := i.change.op == SET;
      InputTracks(s, i);
      KeyedBefore(m, start, rebuild);
      hide Tracks, MergeInput, Replayed, Latest;
      if rebuild {
        SetRemoves(s, i);
      } else {
        NoneMissing(m, start);
      }
      ReplayedIs(m, start, rebuild, ChangesOf(s, i).removes);
    }
  }

  lemma NoneMissing(m: Merging, start: map<UID, Pod>)
    requires Tracks(m, start, false)
    ensures forall u :: !(u in m.before && u !in m.pods)
  {
    forall u ensures !(u in m.before && u !in m.pods) {
      assert TracksAt(m, start, false, u);
    }
  }

  lemma InputTracks(s: Storage, i: Input)
    requires Keyed(PodsOf(s.pods, i.source)) && i.change.op != REMOVE
    ensures Tracks(MergeInput(s, i), PodsOf(s.pods, i.source), i.change.op == SET)
    ensures MergeInput(s, i).changes.removes == []
  {
    var start, rebuild := PodsOf(s.pods, i.source), i.change.op == SET;
    var m0 := Merging(start, if rebuild then map[] else start, NO_CHANGES);
    StartTracks(start, rebuild);
    hide Tracks;
    MergeAllTracks(m0, start, FilterInvalidPods(i.change.pods), i.source, rebuild, i.clock);
    RemovesNothing(m0, FilterInvalidPods(i.change.pods), i.source, rebuild, i.clock);
  }

  lemma {:induction false} RemovesNothing(
      m: Merging, refs: seq<Pod>, source: string, rebuild: bool, clock: nat -> string)
    ensures MergeAll(m, refs, source, rebuild, clock).changes.removes == m.changes.removes
    decreases |refs|
  {
    if refs != [] { RemovesNothing(m, refs[..|refs| - 1], source, rebuild, clock); }
  }

  lemma SetRemoves(s: Storage, i: Input)
    requires Sound(s) && Valid(s, i) && i.change.op == SET
    ensures var m := MergeInput(s, i);
            forall u :: u in UIDs(ChangesOf(s, i).removes) <==> u in m.before && u !in m.pods
  {
    var m, start := MergeInput(s, i), PodsOf(s.pods, i.source);
    assert Keyed(start);
    InputTracks(s, i);
    KeyedBefore(m, start, true);
    forall u ensures u in i.order <==> u in m.before {
      assert TracksAt(m, start, true, u);
    }
    MissingUIDs(m.before, m.pods, i.order);
  }

  lemma {:induction false} ListenAllConcat(known: map<string, map<UID, Pod>>, xs: seq<PodUpdate>, ys: seq<PodUpdate>)
    ensures ListenAll(known, xs + ys) == ListenAll(ListenAll(known, xs), ys)
    decreases |xs|
  {
    if xs == [] {
      assert xs + ys == ys;
    } else {
      assert (xs + ys)[1..] == xs[1..] + ys;
      ListenAllConcat(Listen(known, xs[0]), xs[1..], ys);
    }
  }

  function Applied(pods: map<UID, Pod>, op: PodOperation, list: seq<Pod>): map<UID, Pod> {
    if op == REMOVE then pods - UIDs(list) else pods + Latest(list)
  }

  /** `known` differs from `was` at the source only, where it has `pods`. */
  ghost predicate Has(
      known: map<string, map<UID, Pod>>, was: map<string, map<UID, Pod>>, source: string, pods: map<UID, Pod>) {
    forall other :: PodsOf(known, other) == if other == source then pods else PodsOf(was, other)
  }

  /** A list that is empty is not sent, which makes no difference. */
  lemma ListenMessage(was: map<string, map<UID, Pod>>, sent: seq<PodUpdate>, pods: map<UID, Pod>,
                      op: PodOperation, list: seq<Pod>, source: string)
    requires Has(ListenAll(was, sent), was, source, pods)
    ensures Has(ListenAll(was, sent + Message(op, list, source)), was, source, Applied(pods, op, list))
  {
    ListenAllConcat(was, sent, Message(op, list, source));
    var known := ListenAll(was, sent);
    if list == [] {
      assert Applied(pods, op, list) == pods;
    } else {
      assert ListenAll(known, Message(op, list, source)) == Listen(known, PodUpdate(op, list, source));
    }
  }

  lemma ListenEmpty(was: map<string, map<UID, Pod>>, sent: seq<PodUpdate>, pods: map<UID, Pod>, source: string)
    requires Has(ListenAll(was, sent), was, source, pods)
    ensures Has(ListenAll(was, sent + [PodUpdate(ADD, [], source)]), was, source, pods)
  {
    var known := ListenAll(was, sent);
    ListenAllConcat(was, sent, [PodUpdate(ADD, [], source)]);
    assert ListenAll(known, [PodUpdate(ADD, [], source)]) == Listen(known, PodUpdate(ADD, [], source));
    assert pods + Latest([]) == pods;
  }

  lemma DeliveredReplays(s: Storage, i: Input, was: map<string, map<UID, Pod>>)
    ensures var pods := PodsOf(was, i.source);
            Has(ListenAll(was, Delivered(s, i)), was, i.source, Replayed(pods, ChangesOf(s, i)))
  {
    var c, source, pods := ChangesOf(s, i), i.source, PodsOf(was, i.source);
    hide ChangesOf, Message;
    assert ListenAll(was, []) == was;
    ListenMessage(was, [], pods, REMOVE, c.removes, source);
    assert [] + Message(REMOVE, c.removes, source) == Message(REMOVE, c.removes, source);
    var sent := Message(REMOVE, c.removes, source);
    pods := Applied(pods, REMOVE, c.removes);
    ListenMessage(was, sent, pods, ADD, c.adds, source);
    sent, pods := sent + Message(ADD, c.adds, source), Applied(pods, ADD, c.adds);
    ListenMessage(was, sent, pods, UPDATE, c.updates, source);
    sent, pods := sent + Message(UPDATE, c.updates, source), Applied(pods, UPDATE, c.updates);
    ListenMessage(was, sent, pods, DELETE, c.deletes, source);
    sent, pods := sent + Message(DELETE, c.deletes, source), Applied(pods, DELETE, c.deletes);
    var announce := Announcement(c, source, i.source !in s.sourcesSeen && i.change.op == SET);
    ListenEmpty(was, sent, pods, source);
    assert sent + [] == sent;
    sent := sent + announce;
    ListenMessage(was, sent, pods, RECONCILE, c.reconciles, source);
  }

  ghost predicate ValidAll(s: Storage, inputs: seq<Input>)
    decreases |inputs|
  {
    inputs == [] || (Valid(s, inputs[0]) && ValidAll(After(s, inputs[0]), inputs[1..]))
  }

  function AfterAll(s: Storage, inputs: seq<Input>): Storage
    decreases |inputs|
  {
    if inputs == [] then s else AfterAll(After(s, inputs[0]), inputs[1..])
  }

  function DeliveredAll(s: Storage, inputs: seq<Input>): seq<PodUpdate>
    decreases |inputs|
  {
    if inputs == [] then [] else Delivered(s, inputs[0]) + DeliveredAll(After(s, inputs[0]), inputs[1..])
  }

  lemma AfterSound(s: Storage, i: Input)
    requires Sound(s) && Valid(s, i)
    ensures Sound(After(s, i))
  {
    ChangesReplay(s, i);
    forall source ensures Keyed(PodsOf(After(s, i).pods, source)) {
      assert Keyed(PodsOf(s.pods, source));
    }
  }

  lemma {:induction false} StreamReplays(s: Storage, inputs: seq<Input>, known: map<string, map<UID, Pod>>)
    requires Sound(s) && ValidAll(s, inputs) && SamePods(known, s.pods)
    ensures SamePods(ListenAll(known, DeliveredAll(s, inputs)), AfterAll(s, inputs).pods)
    decreases |inputs|
  {
    if inputs != [] {
      var i := inputs[0];
      var known' := ListenAll(known, Delivered(s, i));
      AfterSound(s, i);
      Rebuilt(s, i, known);
      ListenAllConcat(known, Delivered(s, i), DeliveredAll(After(s, i), inputs[1..]));
      StreamReplays(After(s, i), inputs[1..], known');
    }
  }

  lemma Rebuilt(s: Storage, i: Input, known: map<string, map<UID, Pod>>)
    requires Sound(s) && Valid(s, i) && SamePods(known, s.pods)
    ensures SamePods(ListenAll(known, Delivered(s, i)), After(s, i).pods)
  {
    ChangesReplay(s, i);
    DeliveredReplays(s, i, known);
    hide Delivered, MergeInput, Replayed, ChangesOf, Sound;
    var known', p' := ListenAll(known, Delivered(s, i)), After(s, i).pods;
    forall source ensures PodsOf(known', source) == PodsOf(p', source) {
      assert PodsOf(known, source) == PodsOf(s.pods, source);
    }
  }

  /** Over any run of updates from any sources, a listener that starts with nothing and takes the delivered
      messages one by one holds exactly the stored pods of every source. */
  lemma StreamRebuildsStore(inputs: seq<Input>)
    requires ValidAll(EMPTY, inputs)
    ensures SamePods(ListenAll(map[], DeliveredAll(EMPTY, inputs)), AfterAll(EMPTY, inputs).pods)
  {
    StreamReplays(EMPTY, inputs, map[]);
  }
}
