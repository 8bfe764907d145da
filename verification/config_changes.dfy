/** What one merge reports: which pods are in which list, when repeating a snapshot reports nothing, and what
    happens to the time a pod was first seen. */
module PodConfigChanges {
  import opened Wrappers
  import opened Api
  import opened PodConfig

  // ---------- comparing ----------

  /** The kubelet would not act on the difference between the two pods. */
  predicate Same(a: Pod, b: Pod) {
    !PodsDifferSemantically(a, b) && a.status == b.status
  }

  lemma SourceIsLocal(ref: Pod, source: string)
    ensures Same(FromSource(ref, source), ref)
  {
    assert Foreign(ref.annotations[CONFIG_SOURCE_ANNOTATION_KEY := source]) == Foreign(ref.annotations);
  }

  lemma SeenIsLocal(ref: Pod, at: string)
    ensures Same(Seen(ref, at), ref)
  {
    assert Foreign(ref.annotations[CONFIG_FIRST_SEEN_ANNOTATION_KEY := at]) == Foreign(ref.annotations);
  }

  /** The stored pod takes over all that matters, and something is asked for exactly when something mattered. */
  lemma CheckMakesSame(existing: Pod, ref: Pod)
    ensures var (pod, need) := CheckAndUpdatePod(existing, ref);
            Same(pod, ref) && (need == Nothing <==> Same(existing, ref)) && (need == Nothing ==> pod == existing)
    ensures var need := CheckAndUpdatePod(existing, ref).1;
            (need == NeedReconcile ==> !PodsDifferSemantically(existing, ref)) &&
            (need == NeedGracefulDelete ==> ref.deletionTimestamp.Some?)
  {
    var annotations := ref.annotations[CONFIG_FIRST_SEEN_ANNOTATION_KEY := FirstSeen(existing)] +
        Local(existing.annotations);
    assert Foreign(annotations) == Foreign(ref.annotations);
  }

  // ---------- which pod is in which list ----------

  ghost predicate DistinctUIDs(pods: seq<Pod>) {
    forall i, j :: 0 <= i < j < |pods| ==> pods[i].uid != pods[j].uid
  }

  function Begin(start: map<UID, Pod>, rebuild: bool): Merging {
    Merging(start, if rebuild then map[] else start, NO_CHANGES)
  }

  lemma UIDsOf(refs: seq<Pod>, n: nat)
    requires n < |refs|
    ensures UIDs(refs[..n + 1]) == UIDs(refs[..n]) + {refs[n].uid}
  {
    assert refs[..n + 1] == refs[..n] + [refs[n]];
    UIDsSnoc(refs[..n], refs[n]);
  }

  /** What one mention of a pod is reported as. */
  datatype Report = Added | Kept | Updated | Reconciled | Deleted

  function ReportOf(previous: Option<Pod>, ref: Pod): Report {
    if previous.None? then Added
    else if Same(previous.value, ref) then Kept
    else if !PodsDifferSemantically(previous.value, ref) then Reconciled
    else if ref.deletionTimestamp.Some? then Deleted else Updated
  }

  function ReportFor(need: Need): Report {
    match need case Nothing => Kept case NeedUpdate => Updated case NeedReconcile => Reconciled
               case NeedGracefulDelete => Deleted
  }

  /** What the next mention of `u` is compared with: the mention before it, or else what is stored. A snapshot does
      not find the pods it has just added. */
  function Previous(start: map<UID, Pod>, refs: seq<Pod>, u: UID, rebuild: bool): Option<Pod> {
    if u in start || !rebuild then (if u in Latest(refs) then Some(Latest(refs)[u]) else Get(start, u)) else None
  }

  datatype Mention = Mention(uid: UID, report: Report)

  /** The mentions of an update in order, each with what it is reported as. */
  function Reports(start: map<UID, Pod>, refs: seq<Pod>, rebuild: bool): (ms: seq<Mention>)
    ensures |ms| == |refs|
    decreases |refs|
  {
    if refs == [] then []
    else
      var front, ref := refs[..|refs| - 1], refs[|refs| - 1];
      Reports(start, front, rebuild) + [Mention(ref.uid, ReportOf(Previous(start, front, ref.uid, rebuild), ref))]
  }

  /** The UIDs whose mentions are reported as `r`, in order. */
  function Pick(ms: seq<Mention>, r: Report): seq<UID>
    decreases |ms|
  {
    if ms == [] then []
    else
      var n := |ms| - 1;
      Pick(ms[..n], r) + (if ms[n].report == r then [ms[n].uid] else [])
  }

  function Ids(pods: seq<Pod>): seq<UID> {
    seq(|pods|, k requires 0 <= k < |pods| => pods[k].uid)
  }

  ghost predicate Lists(c: Changes, ms: seq<Mention>) {
    Ids(c.adds) == Pick(ms, Added) && Ids(c.updates) == Pick(ms, Updated) && Ids(c.deletes) == Pick(ms, Deleted) &&
    Ids(c.reconciles) == Pick(ms, Reconciled)
  }

  predicate Alike(a: Option<Pod>, b: Option<Pod>) {
    if a.None? then b.None? else b.Some? && Same(a.value, b.value)
  }

  /** The map a merge under way looks into agrees with the mentions so far. */
  ghost predicate Agrees(before: map<UID, Pod>, start: map<UID, Pod>, refs: seq<Pod>, rebuild: bool) {
    Keyed(before) && forall u :: Alike(Get(before, u), Previous(start, refs, u, rebuild))
  }

  lemma CheckReports(existing: Pod, previous: Pod, ref: Pod, source: string)
    requires Same(existing, previous)
    ensures var (pod, need) := CheckAndUpdatePod(existing, FromSource(ref, source));
            pod.uid == existing.uid && Same(pod, ref) && ReportFor(need) == ReportOf(Some(previous), ref)
  {
    SourceIsLocal(ref, source);
    CheckMakesSame(existing, FromSource(ref, source));
    CheckKeepsUID(existing, FromSource(ref, source));
  }

  /** A list whose pod is refreshed, and then noted or not. */
  lemma OneListNoted(list: seq<Pod>, pod: Pod)
    ensures Ids(Refresh(list, pod)) == Ids(list) && Ids(Refresh(list, pod) + [pod]) == Ids(list) + [pod.uid]
  {
  }

  lemma NoteLists(c: Changes, need: Need, pod: Pod)
    ensures var c' := Note(RefreshAll(c, pod), need, pod);
            Ids(c'.adds) == Ids(c.adds) &&
            Ids(c'.updates) == Ids(c.updates) + (if need == NeedUpdate then [pod.uid] else []) &&
            Ids(c'.deletes) == Ids(c.deletes) + (if need == NeedGracefulDelete then [pod.uid] else []) &&
            Ids(c'.reconciles) == Ids(c.reconciles) + (if need == NeedReconcile then [pod.uid] else [])
  {
    OneListNoted(c.adds, pod);
    OneListNoted(c.updates, pod);
    OneListNoted(c.deletes, pod);
    OneListNoted(c.reconciles, pod);
    hide Ids, Refresh;
  }

  lemma PickSnoc(ms: seq<Mention>, m: Mention, r: Report)
    ensures Pick(ms + [m], r) == Pick(ms, r) + (if m.report == r then [m.uid] else [])
  {
    assert (ms + [m])[..|ms|] == ms;
  }

  lemma ListsSnoc(c: Changes, c': Changes, ms: seq<Mention>, m: Mention)
    requires Lists(c, ms)
    requires Ids(c'.adds) == Ids(c.adds) + (if m.report == Added then [m.uid] else [])
    requires Ids(c'.updates) == Ids(c.updates) + (if m.report == Updated then [m.uid] else [])
    requires Ids(c'.deletes) == Ids(c.deletes) + (if m.report == Deleted then [m.uid] else [])
    requires Ids(c'.reconciles) == Ids(c.reconciles) + (if m.report == Reconciled then [m.uid] else [])
    ensures Lists(c', ms + [m])
  {
    PickSnoc(ms, m, Added);
    PickSnoc(ms, m, Updated);
    PickSnoc(ms, m, Deleted);
    PickSnoc(ms, m, Reconciled);
    hide Pick, Ids;
  }

  /** One more mention, which leaves `before'`: only its own entry differs, and it is as the mention says. */
  lemma AgreesSnoc(
      before: map<UID, Pod>, before': map<UID, Pod>, start: map<UID, Pod>, refs: seq<Pod>, rebuild: bool, ref: Pod)
    requires Agrees(before, start, refs, rebuild) && Keyed(before')
    requires forall u :: u != ref.uid ==> Get(before', u) == Get(before, u)
    requires if ref.uid in start || !rebuild then Alike(Get(before', ref.uid), Some(ref))
             else Get(before', ref.uid) == Get(before, ref.uid)
    ensures Agrees(before', start, refs + [ref], rebuild)
  {
    LatestAppend(refs, ref);
    hide Same, Latest;
  }

  lemma MergeOneLists(
      m: Merging, start: map<UID, Pod>, refs: seq<Pod>, ref: Pod, source: string, rebuild: bool, at: string)
    requires Agrees(m.before, start, refs, rebuild) && Lists(m.changes, Reports(start, refs, rebuild))
    ensures var m' := MergeOne(m, ref, source, rebuild, at);
            Agrees(m'.before, start, refs + [ref], rebuild) &&
            Lists(m'.changes, Reports(start, refs + [ref], rebuild))
  {
    var ms, previous := Reports(start, refs, rebuild), Previous(start, refs, ref.uid, rebuild);
    assert (refs + [ref])[..|refs|] == refs;
    assert Reports(start, refs + [ref], rebuild) == ms + [Mention(ref.uid, ReportOf(previous, ref))];
    assert Alike(Get(m.before, ref.uid), previous);
    hide Reports, Agrees, Lists;
    if ref.uid in m.before {
      CheckReports(m.before[ref.uid], previous.value, ref, source);
      assert Keyed(m.before) by { AgreesKeyed(m.before, start, refs, rebuild); }
      var (existing, need) := CheckAndUpdatePod(m.before[ref.uid], FromSource(ref, source));
      hide CheckAndUpdatePod, ReportOf, Same;
      NoteLists(m.changes, need, existing);
      ListsSnoc(m.changes, Note(RefreshAll(m.changes, existing), need, existing), ms,
                Mention(ref.uid, ReportFor(need)));
      StoredAgrees(m.before, existing, start, refs, rebuild, ref);
    } else {
      SourceIsLocal(ref, source);
      SeenIsLocal(FromSource(ref, source), at);
      hide Same;
      AddedLists(m, start, refs, ref, rebuild, Seen(FromSource(ref, source), at));
    }
  }

  lemma AgreesKeyed(before: map<UID, Pod>, start: map<UID, Pod>, refs: seq<Pod>, rebuild: bool)
    requires Agrees(before, start, refs, rebuild)
    ensures Keyed(before)
  {
  }

  lemma StoredAgrees(
      before: map<UID, Pod>, existing: Pod, start: map<UID, Pod>, refs: seq<Pod>, rebuild: bool, ref: Pod)
    requires Agrees(before, start, refs, rebuild) && ref.uid in before
    requires existing.uid == ref.uid && Same(existing, ref)
    ensures Agrees(before[ref.uid := existing], start, refs + [ref], rebuild)
  {
    assert Alike(Get(before, ref.uid), Previous(start, refs, ref.uid, rebuild));
    AgreesSnoc(before, before[ref.uid := existing], start, refs, rebuild, ref);
  }

  lemma AddedLists(m: Merging, start: map<UID, Pod>, refs: seq<Pod>, ref: Pod, rebuild: bool, added: Pod)
    requires Agrees(m.before, start, refs, rebuild) && Lists(m.changes, Reports(start, refs, rebuild))
    requires ref.uid !in m.before && added.uid == ref.uid && Same(added, ref)
    ensures Agrees(if rebuild then m.before else m.before[ref.uid := added], start, refs + [ref], rebuild)
    ensures Lists(m.changes.(adds := m.changes.adds + [added]),
                  Reports(start, refs, rebuild) + [Mention(ref.uid, Added)])
  {
    assert Alike(Get(m.before, ref.uid), Previous(start, refs, ref.uid, rebuild));
    assert Ids(m.changes.adds + [added]) == Ids(m.changes.adds) + [ref.uid];
    hide Same, Lists, Ids, Reports;
    ListsSnoc(m.changes, m.changes.(adds := m.changes.adds + [added]), Reports(start, refs, rebuild),
              Mention(ref.uid, Added));
    AgreesSnoc(m.before, if rebuild then m.before else m.before[ref.uid := added], start, refs, rebuild, ref);
  }

  lemma {:induction false} MergeAllLists(
      start: map<UID, Pod>, refs: seq<Pod>, source: string, rebuild: bool, clock: nat -> string)
    requires Keyed(start)
    ensures var m := MergeAll(Begin(start, rebuild), refs, source, rebuild, clock);
            Agrees(m.before, start, refs, rebuild) && Lists(m.changes, Reports(start, refs, rebuild))
    decreases |refs|
  {
    if refs != [] {
      var n := |refs| - 1;
      MergeAllLists(start, refs[..n], source, rebuild, clock);
      assert refs == refs[..n] + [refs[n]];
      hide MergeOne, Agrees, Lists;
      MergeOneLists(MergeAll(Begin(start, rebuild), refs[..n], source, rebuild, clock), start, refs[..n], refs[n],
                    source, rebuild, clock(n));
    }
  }

  /** The mentions a merge goes through: the first pod of each full name, unless the update removes or reconciles. */
  function Considered(i: Input): seq<Pod> {
    if i.change.op == REMOVE || i.change.op == RECONCILE then [] else FilterInvalidPods(i.change.pods)
  }

  /** The mentions of the update, each with what it is reported as. */
  function ReportsOf(s: Storage, i: Input): seq<Mention> {
    Reports(PodsOf(s.pods, i.source), Considered(i), i.change.op == SET)
  }

  function RemovesOf(start: map<UID, Pod>, i: Input): set<UID> {
    match i.change.op
    case SET => start.Keys - UIDs(Considered(i))
    case REMOVE => start.Keys * UIDs(i.change.pods)
    case _ => {}
  }

  /** Each mention is reported once, in order, as what it changes against the mention before it or what was stored;
      the removed pods are those a snapshot misses or a REMOVE names, each once. */
  lemma ReportsInOrder(s: Storage, i: Input)
    requires Sound(s) && Valid(s, i)
    ensures var c := ChangesOf(s, i);
            Lists(c, ReportsOf(s, i)) && UIDs(c.removes) == RemovesOf(PodsOf(s.pods, i.source), i) &&
            DistinctUIDs(c.removes)
  {
    var start := PodsOf(s.pods, i.source);
    assert Keyed(start);
    if i.change.op == REMOVE {
      RemoveAllIs(start, [], i.change.pods);
      RemoveAllDistinct(start, [], i.change.pods);
    } else if i.change.op != RECONCILE {
      MergeAllLists(start, Considered(i), i.source, i.change.op == SET, i.clock);
      InputTracks(s, i);
      if i.change.op == SET { SnapshotRemoves(s, i); }
    }
    hide MergeAll, Reports, Tracks;
  }

  lemma SnapshotRemoves(s: Storage, i: Input)
    requires Sound(s) && Valid(s, i) && i.change.op == SET
    ensures var c, start := ChangesOf(s, i), PodsOf(s.pods, i.source);
            UIDs(c.removes) == start.Keys - UIDs(Considered(i)) && DistinctUIDs(c.removes)
  {
    var start, m := PodsOf(s.pods, i.source), MergeInput(s, i);
    SetRemoves(s, i);
    assert Keyed(start);
    BeforeKeys(s, i);
    MergedKeys(start, Considered(i), i.source, i.clock);
    InputTracks(s, i);
    KeyedBefore(m, start, true);
    MissingDistinct(m.before, m.pods, i.order);
    hide MergeAll, Missing, Tracks;
  }

  lemma {:induction false} MissingDistinct(stored: map<UID, Pod>, pods: map<UID, Pod>, order: seq<UID>)
    requires Keyed(stored) && (forall u :: u in order ==> u in stored)
    requires forall i, j :: 0 <= i < j < |order| ==> order[i] != order[j]
    ensures DistinctUIDs(Missing(stored, pods, order))
  {
    if order != [] {
      var rest := Missing(stored, pods, order[1..]);
      MissingDistinct(stored, pods, order[1..]);
      MissingUIDs(stored, pods, order[1..]);
      if order[0] in pods {
        assert Missing(stored, pods, order) == rest;
      } else {
        assert order[0] !in order[1..];
        DistinctCons(stored[order[0]], rest);
      }
    }
  }

  lemma DistinctCons(pod: Pod, pods: seq<Pod>)
    requires DistinctUIDs(pods) && pod.uid !in UIDs(pods)
    ensures DistinctUIDs([pod] + pods)
  {
    assert forall k :: 0 <= k < |pods| ==> pods[k] in pods && pods[k].uid in UIDs(pods);
  }

  lemma {:induction false} RemoveAllDistinct(pods: map<UID, Pod>, removed: seq<Pod>, values: seq<Pod>)
    requires Keyed(pods) && DistinctUIDs(removed) && UIDs(removed) !! pods.Keys
    ensures DistinctUIDs(RemoveAll(pods, removed, values).1)
    decreases |values|
  {
    if values != [] {
      var u := values[0].uid;
      if u in pods {
        assert forall k :: 0 <= k < |removed| ==> removed[k] in removed && removed[k].uid in UIDs(removed);
        UIDsSnoc(removed, pods[u]);
        RemoveAllDistinct(pods - {u}, removed + [pods[u]], values[1..]);
      } else {
        RemoveAllDistinct(pods, removed, values[1..]);
      }
    }
  }

  lemma BeforeKeys(s: Storage, i: Input)
    requires Keyed(PodsOf(s.pods, i.source)) && i.change.op == SET
    ensures MergeInput(s, i).before.Keys == PodsOf(s.pods, i.source).Keys
  {
    var m, start := MergeInput(s, i), PodsOf(s.pods, i.source);
    InputTracks(s, i);
    forall u ensures u in m.before <==> u in start {
      assert TracksAt(m, start, true, u);
    }
  }

  /** A snapshot stores exactly the pods it names. */
  lemma {:induction false} MergedKeys(start: map<UID, Pod>, refs: seq<Pod>, source: string, clock: nat -> string)
    ensures MergeAll(Begin(start, true), refs, source, true, clock).pods.Keys == UIDs(refs)
    decreases |refs|
  {
    if refs != [] {
      var n := |refs| - 1;
      MergedKeys(start, refs[..n], source, clock);
      assert refs[..n + 1] == refs;
      UIDsOf(refs, n);
      hide UIDs, CheckAndUpdatePod;
    }
  }

  // ---------- when every pod is in one list only ----------

  ghost predicate Apart(a: seq<Pod>, b: seq<Pod>) {
    UIDs(a) * UIDs(b) == {}
  }

  ghost predicate Disjoint(c: Changes) {
    Apart(c.adds, c.updates) && Apart(c.adds, c.deletes) && Apart(c.adds, c.removes) && Apart(c.adds, c.reconciles) &&
    Apart(c.updates, c.deletes) && Apart(c.updates, c.removes) && Apart(c.updates, c.reconciles) &&
    Apart(c.deletes, c.removes) && Apart(c.deletes, c.reconciles) && Apart(c.removes, c.reconciles)
  }

  ghost predicate EachOnce(c: Changes) {
    DistinctUIDs(c.adds) && DistinctUIDs(c.updates) && DistinctUIDs(c.deletes) && DistinctUIDs(c.reconciles) &&
    DistinctUIDs(c.removes)
  }

  /** All reported mentions of a UID are reported alike. */
  ghost predicate ReportedAlike(ms: seq<Mention>) {
    forall j, k :: 0 <= j < k < |ms| && ms[j].uid == ms[k].uid && ms[j].report != Kept && ms[k].report != Kept ==>
      ms[j].report == ms[k].report
  }

  /** Of the mentions of a UID at most one is reported. */
  ghost predicate ReportedOnce(ms: seq<Mention>) {
    forall j, k :: 0 <= j < k < |ms| && ms[j].uid == ms[k].uid ==> ms[j].report == Kept || ms[k].report == Kept
  }

  lemma {:induction false} PickIff(ms: seq<Mention>, r: Report, u: UID)
    ensures u in Pick(ms, r) <==> Mention(u, r) in ms
    decreases |ms|
  {
    if ms != [] {
      PickIff(ms[..|ms| - 1], r, u);
    }
  }

  ghost predicate NoRepeats(us: seq<UID>) {
    forall i, j :: 0 <= i < j < |us| ==> us[i] != us[j]
  }

  ghost predicate NoTwo(ms: seq<Mention>, r: Report) {
    forall j, k :: 0 <= j < k < |ms| ==> !(ms[j] == ms[k] && ms[j].report == r)
  }

  lemma {:induction false} PickDistinct(ms: seq<Mention>, r: Report)
    ensures NoRepeats(Pick(ms, r)) <==> NoTwo(ms, r)
    decreases |ms|
  {
    if ms != [] {
      var n := |ms| - 1;
      PickDistinct(ms[..n], r);
      PickIff(ms[..n], r, ms[n].uid);
      NoRepeatsSnoc(Pick(ms[..n], r), ms[n].uid);
      NoTwoSnoc(ms[..n], ms[n], r);
      assert ms == ms[..n] + [ms[n]];
      hide NoRepeats, NoTwo;
      assert Pick(ms[..n], r) + [] == Pick(ms[..n], r);
    }
  }

  lemma NoTwoSnoc(ms: seq<Mention>, m: Mention, r: Report)
    ensures NoTwo(ms + [m], r) <==> NoTwo(ms, r) && !(m.report == r && m in ms)
  {
    var all := ms + [m];
    assert all[|ms|] == m && forall k :: 0 <= k < |ms| ==> all[k] == ms[k];
    if NoTwo(all, r) {
      forall j, k | 0 <= j < k < |ms| ensures !(ms[j] == ms[k] && ms[j].report == r) { assert all[k] == ms[k]; }
      forall j | 0 <= j < |ms| ensures !(m.report == r && m == ms[j]) { assert all[j] == ms[j]; }
    }
  }

  lemma NoRepeatsSnoc(us: seq<UID>, u: UID)
    ensures NoRepeats(us + [u]) <==> NoRepeats(us) && u !in us
  {
    if NoRepeats(us + [u]) {
      forall i | 0 <= i < |us| ensures us[i] != u { assert (us + [u])[i] != (us + [u])[|us|]; }
      forall i, j | 0 <= i < j < |us| ensures us[i] != us[j] { assert (us + [u])[i] != (us + [u])[j]; }
    }
  }

  lemma IdsAre(list: seq<Pod>)
    ensures (forall u :: u in UIDs(list) <==> u in Ids(list)) && (DistinctUIDs(list) <==> NoRepeats(Ids(list)))
  {
    forall u ensures u in UIDs(list) <==> u in Ids(list) {
      if u in UIDs(list) {
        var k :| 0 <= k < |list| && list[k].uid == u;
        assert Ids(list)[k] == u;
      }
      if u in Ids(list) {
        var k :| 0 <= k < |list| && Ids(list)[k] == u;
        assert list[k] in list;
      }
    }
    if NoRepeats(Ids(list)) {
      forall i, j | 0 <= i < j < |list| ensures list[i].uid != list[j].uid { assert Ids(list)[i] != Ids(list)[j]; }
    }
  }

  /** A list that reports `r` holds the UIDs with such a mention, and holds none twice if none has two. */
  lemma ListIs(list: seq<Pod>, ms: seq<Mention>, r: Report)
    requires Ids(list) == Pick(ms, r)
    ensures forall u :: u in UIDs(list) <==> Mention(u, r) in ms
    ensures DistinctUIDs(list) <==> NoTwo(ms, r)
  {
    IdsAre(list);
    PickDistinct(ms, r);
    forall u ensures u in UIDs(list) <==> Mention(u, r) in ms {
      PickIff(ms, r, u);
    }
  }

  /** No UID has two mentions, one reported as `a` and the other as `b`. */
  ghost predicate NotBoth(ms: seq<Mention>, a: Report, b: Report) {
    forall u :: !(Mention(u, a) in ms && Mention(u, b) in ms)
  }

  lemma ApartIff(x: seq<Pod>, y: seq<Pod>, ms: seq<Mention>, a: Report, b: Report)
    requires Ids(x) == Pick(ms, a) && Ids(y) == Pick(ms, b)
    ensures Apart(x, y) <==> NotBoth(ms, a, b)
  {
    ListIs(x, ms, a);
    ListIs(y, ms, b);
    hide UIDs, Ids, Pick;
    if Apart(x, y) {
      forall u ensures !(Mention(u, a) in ms && Mention(u, b) in ms) {
        assert u !in UIDs(x) * UIDs(y);
      }
    }
  }

  ghost predicate NoneDiffer(ms: seq<Mention>) {
    NotBoth(ms, Added, Updated) && NotBoth(ms, Added, Deleted) && NotBoth(ms, Added, Reconciled) &&
    NotBoth(ms, Updated, Deleted) && NotBoth(ms, Updated, Reconciled) && NotBoth(ms, Deleted, Reconciled)
  }

  lemma AlikeIff(ms: seq<Mention>)
    ensures ReportedAlike(ms) <==> NoneDiffer(ms)
  {
    if ReportedAlike(ms) {
      forall u, a, b | Mention(u, a) in ms && Mention(u, b) in ms && a != Kept && b != Kept ensures a == b {
        var j :| 0 <= j < |ms| && ms[j] == Mention(u, a);
        var k :| 0 <= k < |ms| && ms[k] == Mention(u, b);
        assert j < k || k < j || j == k;
      }
    }
    if NoneDiffer(ms) {
      forall j, k | 0 <= j < k < |ms| && ms[j].uid == ms[k].uid && ms[j].report != Kept && ms[k].report != Kept
        ensures ms[j].report == ms[k].report
      {
        OneReport(ms, ms[j].uid, ms[j].report, ms[k].report);
      }
    }
  }

  lemma OneReport(ms: seq<Mention>, u: UID, a: Report, b: Report)
    requires NoneDiffer(ms) && Mention(u, a) in ms && Mention(u, b) in ms && a != Kept && b != Kept
    ensures a == b
  {
  }

  /** A removed pod is not mentioned. */
  lemma RemovedApart(s: Storage, i: Input, list: seq<Pod>, r: Report)
    requires Ids(list) == Pick(ReportsOf(s, i), r)
    requires UIDs(ChangesOf(s, i).removes) == RemovesOf(PodsOf(s.pods, i.source), i)
    ensures Apart(list, ChangesOf(s, i).removes) && Apart(ChangesOf(s, i).removes, list)
  {
    var ms := ReportsOf(s, i);
    ListIs(list, ms, r);
    forall u | u in UIDs(list) ensures u !in RemovesOf(PodsOf(s.pods, i.source), i) {
      MentionedUIDs(PodsOf(s.pods, i.source), Considered(i), i.change.op == SET);
      assert u in UIDs(Considered(i));
      hide Considered, ReportsOf;
    }
    hide ChangesOf, UIDs, RemovesOf;
  }

  lemma {:induction false} MentionedUIDs(start: map<UID, Pod>, refs: seq<Pod>, rebuild: bool)
    ensures forall m :: m in Reports(start, refs, rebuild) ==> m.uid in UIDs(refs)
    decreases |refs|
  {
    if refs != [] {
      var n := |refs| - 1;
      MentionedUIDs(start, refs[..n], rebuild);
      assert refs[..n + 1] == refs;
      UIDsOf(refs, n);
      hide UIDs, ReportOf, Previous;
    }
  }

  /** No pod is in two of the five lists if and only if all reported mentions of a UID are reported alike. */
  lemma ListsAreDisjoint(s: Storage, i: Input)
    requires Sound(s) && Valid(s, i)
    ensures Disjoint(ChangesOf(s, i)) <==> ReportedAlike(ReportsOf(s, i))
  {
    var c, ms := ChangesOf(s, i), ReportsOf(s, i);
    ReportsInOrder(s, i);
    AlikeIff(ms);
    hide ReportsOf, ReportedAlike, Apart, NotBoth, Ids, Pick, DistinctUIDs;
    RemovedApart(s, i, c.adds, Added);
    RemovedApart(s, i, c.updates, Updated);
    RemovedApart(s, i, c.deletes, Deleted);
    RemovedApart(s, i, c.reconciles, Reconciled);
    hide ChangesOf, UIDs, RemovesOf;
    ApartIff(c.adds, c.updates, ms, Added, Updated);
    ApartIff(c.adds, c.deletes, ms, Added, Deleted);
    ApartIff(c.adds, c.reconciles, ms, Added, Reconciled);
    ApartIff(c.updates, c.deletes, ms, Updated, Deleted);
    ApartIff(c.updates, c.reconciles, ms, Updated, Reconciled);
    ApartIff(c.deletes, c.reconciles, ms, Deleted, Reconciled);
  }

  lemma OnceIff(ms: seq<Mention>)
    ensures ReportedOnce(ms) <==>
              ReportedAlike(ms) && NoTwo(ms, Added) && NoTwo(ms, Updated) && NoTwo(ms, Deleted) && NoTwo(ms, Reconciled)
  {
    if ReportedAlike(ms) && NoTwo(ms, Added) && NoTwo(ms, Updated) && NoTwo(ms, Deleted) && NoTwo(ms, Reconciled) {
      forall j, k | 0 <= j < k < |ms| && ms[j].uid == ms[k].uid ensures ms[j].report == Kept || ms[k].report == Kept {
        assert ms[j].report == ms[k].report ==> ms[j] == ms[k];
      }
    }
  }

  /** Every pod is in at most one list, and there once, if and only if of the mentions of a UID at most one is
      reported. */
  lemma ReportedOnceIff(s: Storage, i: Input)
    requires Sound(s) && Valid(s, i)
    ensures Disjoint(ChangesOf(s, i)) && EachOnce(ChangesOf(s, i)) <==> ReportedOnce(ReportsOf(s, i))
  {
    var c, ms := ChangesOf(s, i), ReportsOf(s, i);
    ReportsInOrder(s, i);
    ListsAreDisjoint(s, i);
    OnceIff(ms);
    hide ChangesOf, ReportsOf, Disjoint, DistinctUIDs, NoTwo, ReportedOnce, ReportedAlike, Ids, Pick;
    ListIs(c.adds, ms, Added);
    ListIs(c.updates, ms, Updated);
    ListIs(c.deletes, ms, Deleted);
    ListIs(c.reconciles, ms, Reconciled);
  }

  lemma {:induction false} AloneReports(start: map<UID, Pod>, refs: seq<Pod>, rebuild: bool)
    requires DistinctUIDs(refs)
    ensures forall k :: 0 <= k < |refs| ==>
              Reports(start, refs, rebuild)[k] == Mention(refs[k].uid, ReportOf(Get(start, refs[k].uid), refs[k]))
    decreases |refs|
  {
    if refs != [] {
      var n := |refs| - 1;
      AloneReports(start, refs[..n], rebuild);
      LatestKeys(refs[..n]);
      assert refs[n].uid !in UIDs(refs[..n]);
      hide ReportOf, UIDs;
    }
  }

  /** With distinct UIDs every pod is in at most one list, once, and is reported as it differs from the stored one. */
  lemma ReportsExactly(s: Storage, i: Input)
    requires Sound(s) && Valid(s, i) && DistinctUIDs(Considered(i))
    ensures var c, refs := ChangesOf(s, i), Considered(i);
            Disjoint(c) && EachOnce(c) && Lists(c, ReportsOf(s, i)) &&
            forall k :: 0 <= k < |refs| ==>
              ReportsOf(s, i)[k] == Mention(refs[k].uid, ReportOf(Get(PodsOf(s.pods, i.source), refs[k].uid), refs[k]))
  {
    AloneReports(PodsOf(s.pods, i.source), Considered(i), i.change.op == SET);
    ReportsInOrder(s, i);
    ReportedOnceIff(s, i);
    hide ChangesOf, Considered, Reports, ReportOf, Disjoint, Lists;
  }

  // ---------- repeating a snapshot ----------

  /** Pods of the update that share a UID do not contradict each other. */
  ghost predicate Consistent(refs: seq<Pod>) {
    forall i, j :: 0 <= i < j < |refs| && refs[i].uid == refs[j].uid ==> Same(refs[i], refs[j])
  }

  /** The snapshot is stored: each pod is as its last mention says. */
  ghost predicate Stored(pods: map<UID, Pod>, refs: seq<Pod>) {
    pods.Keys == UIDs(refs) && forall u :: u in pods && u in Latest(refs) ==> Same(pods[u], Latest(refs)[u])
  }

  lemma LatestKeys(refs: seq<Pod>)
    ensures Latest(refs).Keys == UIDs(refs)
    decreases |refs|
  {
    if refs != [] {
      var n := |refs| - 1;
      LatestKeys(refs[..n]);
      assert refs[..n + 1] == refs;
      UIDsOf(refs, n);
      hide UIDs;
    }
  }

  lemma {:induction false} MergeAllStores(start: map<UID, Pod>, refs: seq<Pod>, source: string, clock: nat -> string)
    requires Keyed(start)
    ensures Stored(MergeAll(Begin(start, true), refs, source, true, clock).pods, refs)
    decreases |refs|
  {
    MergedKeys(start, refs, source, clock);
    if refs != [] {
      var n := |refs| - 1;
      MergeAllStores(start, refs[..n], source, clock);
      MergedKeys(start, refs[..n], source, clock);
      LatestKeys(refs[..n]);
      StoresOne(MergeAll(Begin(start, true), refs[..n], source, true, clock), refs[n], source, clock(n));
      hide UIDs, Same, MergeOne;
    }
  }

  lemma StoresOne(m: Merging, ref: Pod, source: string, at: string)
    ensures var pods := MergeOne(m, ref, source, true, at).pods;
            ref.uid in pods && Same(pods[ref.uid], ref) && pods == m.pods[ref.uid := pods[ref.uid]]
  {
    var pod := FromSource(ref, source);
    SourceIsLocal(ref, source);
    SeenIsLocal(pod, at);
    if ref.uid in m.before { CheckMakesSame(m.before[ref.uid], pod); }
    hide CheckAndUpdatePod, PodsDifferSemantically;
  }

  ghost predicate AllSame(start: map<UID, Pod>, refs: seq<Pod>)
    requires forall i :: 0 <= i < |refs| ==> refs[i].uid in start
  {
    forall i :: 0 <= i < |refs| ==> Same(start[refs[i].uid], refs[i])
  }

  lemma AllSameSnoc(start: map<UID, Pod>, refs: seq<Pod>)
    requires refs != [] && forall i :: 0 <= i < |refs| ==> refs[i].uid in start
    ensures AllSame(start, refs) <==>
              AllSame(start, refs[..|refs| - 1]) && Same(start[refs[|refs| - 1].uid], refs[|refs| - 1])
  {
    var front := refs[..|refs| - 1];
    assert forall i :: 0 <= i < |front| ==> front[i] == refs[i];
    hide Same;
    if AllSame(start, front) && Same(start[refs[|refs| - 1].uid], refs[|refs| - 1]) {
      forall i | 0 <= i < |refs| ensures Same(start[refs[i].uid], refs[i]) {
        if i < |front| { assert Same(start[front[i].uid], front[i]); }
      }
    }
  }

  /** On a stored snapshot the first pods report nothing exactly if they agree with what is stored. */
  lemma {:induction false} NothingIff(start: map<UID, Pod>, refs: seq<Pod>, source: string, clock: nat -> string)
    requires Keyed(start) && forall i :: 0 <= i < |refs| ==> refs[i].uid in start
    ensures var m := MergeAll(Begin(start, true), refs, source, true, clock);
            (m.changes == NO_CHANGES <==> AllSame(start, refs)) &&
            m.changes.removes == [] && m.before.Keys == start.Keys && Keyed(m.before) &&
            (m.changes == NO_CHANGES ==> m.before == start)
    decreases |refs|
  {
    if refs != [] {
      var n := |refs| - 1;
      NothingIff(start, refs[..n], source, clock);
      AllSameSnoc(start, refs);
      hide AllSame, Same;
      var m := MergeAll(Begin(start, true), refs[..n], source, true, clock);
      NothingOne(m, refs[n], source, clock(n));
      hide MergeOne;
    }
  }

  lemma NothingOne(m: Merging, ref: Pod, source: string, at: string)
    requires ref.uid in m.before && Keyed(m.before) && m.changes.removes == []
    ensures var m' := MergeOne(m, ref, source, true, at);
            (m'.changes == NO_CHANGES <==> m.changes == NO_CHANGES && Same(m.before[ref.uid], ref)) &&
            m'.changes.removes == [] && m'.before.Keys == m.before.Keys && Keyed(m'.before) &&
            (m'.changes == NO_CHANGES ==> m'.before == m.before)
  {
    var pod := FromSource(ref, source);
    SourceIsLocal(ref, source);
    CheckMakesSame(m.before[ref.uid], pod);
    CheckKeepsUID(m.before[ref.uid], pod);
    assert Same(m.before[ref.uid], pod) <==> Same(m.before[ref.uid], ref);
    hide CheckAndUpdatePod, PodsDifferSemantically, Same;
    var (existing, need) := CheckAndUpdatePod(m.before[ref.uid], pod);
    RefreshNothing(m.changes, existing);
    if need == Nothing { assert m.before[ref.uid := existing] == m.before; }
  }

  lemma RefreshNothing(c: Changes, pod: Pod)
    ensures RefreshAll(c, pod) == NO_CHANGES <==> c == NO_CHANGES
  {
  }

  /** Repeating a snapshot reports nothing, if and only if its pods of one UID do not contradict each other. */
  lemma RepeatedSnapshot(s: Storage, i: Input, again: Input)
    requires Sound(s) && Valid(s, i) && Valid(After(s, i), again)
    requires i.change.op == SET && again.source == i.source && again.change == i.change
    ensures ChangesOf(After(s, i), again) == NO_CHANGES <==> Consistent(Considered(i))
  {
    var refs := Considered(i);
    var start := MergeInput(s, i).pods;
    AfterSound(s, i);
    assert PodsOf(After(s, i).pods, i.source) == start;
    assert Keyed(PodsOf(s.pods, i.source)) && Keyed(start) by {
      assert Keyed(PodsOf(After(s, i).pods, i.source));
    }
    MergeAllStores(PodsOf(s.pods, i.source), refs, i.source, i.clock);
    assert Stored(start, refs);
    assert forall k :: 0 <= k < |refs| ==> refs[k] in refs && refs[k].uid in UIDs(refs);
    NothingIff(start, refs, i.source, again.clock);
    RemovesNone(After(s, i), again);
    ConsistentIff(start, refs);
    hide MergeAll, Stored, Same, Consistent, UIDs;
  }

  lemma RemovesNone(s: Storage, i: Input)
    requires Sound(s) && Valid(s, i) && i.change.op == SET
    requires PodsOf(s.pods, i.source).Keys == UIDs(Considered(i))
    ensures ChangesOf(s, i).removes == []
  {
    SetRemoves(s, i);
    BeforeKeys(s, i);
    MergedKeys(PodsOf(s.pods, i.source), Considered(i), i.source, i.clock);
    FirstUID(ChangesOf(s, i).removes);
  }

  lemma FirstUID(pods: seq<Pod>)
    ensures pods != [] ==> pods[0].uid in UIDs(pods)
  {
    if pods != [] { assert pods[0] in pods; }
  }

  lemma ConsistentIff(start: map<UID, Pod>, refs: seq<Pod>)
    requires Stored(start, refs) && forall i :: 0 <= i < |refs| ==> refs[i].uid in start
    ensures Consistent(refs) <==> AllSame(start, refs)
  {
    LatestKeys(refs);
    if Consistent(refs) {
      forall i | 0 <= i < |refs| ensures Same(start[refs[i].uid], refs[i]) {
        var k := LastMention(refs, i);
        assert Same(start[refs[i].uid], refs[k]);
        assert i < k ==> Same(refs[i], refs[k]);
      }
    }
  }

  lemma {:induction false} LastMention(refs: seq<Pod>, i: nat) returns (k: nat)
    requires i < |refs|
    ensures i <= k < |refs| && refs[k].uid == refs[i].uid
    ensures refs[i].uid in Latest(refs) && Latest(refs)[refs[i].uid] == refs[k]
    decreases |refs|
  {
    var n := |refs| - 1;
    if refs[n].uid == refs[i].uid {
      k := n;
    } else {
      k := LastMention(refs[..n], i);
    }
  }

  // ---------- the time a pod was first seen ----------

  predicate Marked(pod: Pod, source: string) {
    CONFIG_FIRST_SEEN_ANNOTATION_KEY in pod.annotations &&
    CONFIG_SOURCE_ANNOTATION_KEY in pod.annotations && pod.annotations[CONFIG_SOURCE_ANNOTATION_KEY] == source
  }

  lemma CheckKeepsMark(existing: Pod, ref: Pod, source: string)
    requires Marked(existing, source)
    ensures var pod := CheckAndUpdatePod(existing, ref).0; Marked(pod, source) && FirstSeen(pod) == FirstSeen(existing)
  {
    var local := Local(existing.annotations);
    assert CONFIG_FIRST_SEEN_ANNOTATION_KEY in local && CONFIG_SOURCE_ANNOTATION_KEY in local;
  }

  lemma NewIsMarked(ref: Pod, source: string, at: string)
    ensures Marked(Seen(FromSource(ref, source), at), source) && FirstSeen(Seen(FromSource(ref, source), at)) == at
  {
    var seen, from := CONFIG_FIRST_SEEN_ANNOTATION_KEY, CONFIG_SOURCE_ANNOTATION_KEY;
    assert seen[|seen| - 2] != from[|from| - 2];
  }

  ghost predicate AllMarked(pods: map<UID, Pod>, source: string) {
    forall u :: u in pods ==> Marked(pods[u], source)
  }

  ghost predicate KeepsFirstSeen(start: map<UID, Pod>, pods: map<UID, Pod>) {
    forall u :: u in start && u in pods ==> FirstSeen(pods[u]) == FirstSeen(start[u])
  }

  lemma {:induction false} MergeAllMarks(
      start: map<UID, Pod>, refs: seq<Pod>, source: string, rebuild: bool, clock: nat -> string)
    requires Keyed(start) && AllMarked(start, source)
    ensures Marks(start, MergeAll(Begin(start, rebuild), refs, source, rebuild, clock), source)
    decreases |refs|
  {
    if refs != [] {
      var n := |refs| - 1;
      MergeAllMarks(start, refs[..n], source, rebuild, clock);
      MarksOne(start, MergeAll(Begin(start, rebuild), refs[..n], source, rebuild, clock), refs[n], source, rebuild,
               clock(n));
      hide MergeOne, Marks;
    }
  }

  ghost predicate Marks(start: map<UID, Pod>, m: Merging, source: string) {
    AllMarked(m.before, source) && AllMarked(m.pods, source) && start.Keys <= m.before.Keys &&
    KeepsFirstSeen(start, m.before) && KeepsFirstSeen(start, m.pods)
  }

  lemma MarksOne(start: map<UID, Pod>, m: Merging, ref: Pod, source: string, rebuild: bool, at: string)
    requires Marks(start, m, source)
    ensures Marks(start, MergeOne(m, ref, source, rebuild, at), source)
  {
    if ref.uid in m.before {
      CheckKeepsMark(m.before[ref.uid], FromSource(ref, source), source);
    } else {
      NewIsMarked(ref, source, at);
    }
    hide CheckAndUpdatePod, Marked, FirstSeen, Note, RefreshAll;
  }

  ghost predicate Annotated(s: Storage) {
    forall source :: AllMarked(PodsOf(s.pods, source), source)
  }

  /** A merge keeps the time each stored pod was first seen, for as long as the pod stays stored. */
  lemma MergeKeepsFirstSeen(s: Storage, i: Input)
    requires Sound(s) && Annotated(s) && Valid(s, i)
    ensures Annotated(After(s, i))
    ensures forall source :: KeepsFirstSeen(PodsOf(s.pods, source), PodsOf(After(s, i).pods, source))
  {
    var start := PodsOf(s.pods, i.source);
    assert Keyed(start) && AllMarked(start, i.source);
    hide Marked, FirstSeen;
    if i.change.op == REMOVE {
      RemoveAllIs(start, [], i.change.pods);
    } else {
      MergeAllMarks(start, Considered(i), i.source, i.change.op == SET, i.clock);
    }
    forall source ensures AllMarked(PodsOf(After(s, i).pods, source), source) &&
                          KeepsFirstSeen(PodsOf(s.pods, source), PodsOf(After(s, i).pods, source))
    {
      assert AllMarked(PodsOf(s.pods, source), source);
      assert source != i.source ==> PodsOf(After(s, i).pods, source) == PodsOf(s.pods, source);
    }
  }

  /** The pod is stored in every state the run goes through. */
  ghost predicate StoredThroughout(s: Storage, inputs: seq<Input>, source: string, u: UID)
    decreases |inputs|
  {
    u in PodsOf(s.pods, source) && (inputs == [] || StoredThroughout(After(s, inputs[0]), inputs[1..], source, u))
  }

  lemma {:induction false} FirstSeenKept(s: Storage, inputs: seq<Input>, source: string, u: UID)
    requires Sound(s) && Annotated(s) && ValidAll(s, inputs) && StoredThroughout(s, inputs, source, u)
    ensures u in PodsOf(AfterAll(s, inputs).pods, source)
    ensures FirstSeen(PodsOf(AfterAll(s, inputs).pods, source)[u]) == FirstSeen(PodsOf(s.pods, source)[u])
    decreases |inputs|
  {
    if inputs != [] {
      MergeKeepsFirstSeen(s, inputs[0]);
      AfterSound(s, inputs[0]);
      hide FirstSeen, Annotated, Sound, After;
      assert KeepsFirstSeen(PodsOf(s.pods, source), PodsOf(After(s, inputs[0]).pods, source));
      FirstSeenKept(After(s, inputs[0]), inputs[1..], source, u);
    }
  }

  lemma {:induction false} AllAnnotated(s: Storage, inputs: seq<Input>)
    requires Sound(s) && Annotated(s) && ValidAll(s, inputs)
    ensures Sound(AfterAll(s, inputs)) && Annotated(AfterAll(s, inputs))
    decreases |inputs|
  {
    if inputs != [] {
      MergeKeepsFirstSeen(s, inputs[0]);
      AfterSound(s, inputs[0]);
      hide Annotated, Sound, After;
      AllAnnotated(After(s, inputs[0]), inputs[1..]);
    }
  }

  /** From any state the storage can get into, the time a pod was first seen survives every run of updates in which
      the pod stays stored. */
  lemma FirstSeenSurvives(inputs: seq<Input>, more: seq<Input>, source: string, u: UID)
    requires ValidAll(EMPTY, inputs) && ValidAll(AfterAll(EMPTY, inputs), more)
    requires StoredThroughout(AfterAll(EMPTY, inputs), more, source, u)
    ensures var s := AfterAll(EMPTY, inputs);
            var before, after := PodsOf(s.pods, source), PodsOf(AfterAll(s, more).pods, source);
            u in before && u in after && Marked(after[u], source) && FirstSeen(after[u]) == FirstSeen(before[u])
  {
    AllAnnotated(EMPTY, inputs);
    var s := AfterAll(EMPTY, inputs);
    AllAnnotated(s, more);
    FirstSeenKept(s, more, source, u);
    assert AllMarked(PodsOf(AfterAll(s, more).pods, source), source);
    hide Marked, FirstSeen;
  }
}
