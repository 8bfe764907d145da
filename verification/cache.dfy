/** The pod status cache that callers can wait on: subscriptions, notifications and the times they compare. */
module StatusCache {
  import opened Wrappers
  import opened Api

  /** Statuses are opaque to the cache; a pod without an entry has the empty status of its UID. */
  datatype RuntimeStatus = EmptyOf(id: UID) | Inspected(ref: nat)

  datatype Data = Data(status: RuntimeStatus, failed: bool, modified: Time)

  datatype SubRecord = SubRecord(time: Time, ch: nat)

  /** A Go channel of capacity one. */
  datatype Chan = Chan(value: Option<Data>, closed: bool)

  datatype Fault = SendOnClosed | SendBlocks | ClosedTwice

  datatype Cache = Cache(
    pods: map<UID, Data>,
    timestamp: Option<Time>,
    subscribers: map<UID, seq<SubRecord>>,
    chans: seq<Chan>,
    faults: set<Fault>)

  const NEW_CACHE := Cache(map[], None, map[], [], {})

  function DefaultData(id: UID): Data {
    Data(EmptyOf(id), false, 0)
  }

  function GetData(c: Cache, id: UID): Data {
    if id in c.pods then c.pods[id] else DefaultData(id)
  }

  predicate GlobalNewer(c: Cache, t: Time) {
    c.timestamp.Some? && c.timestamp.value > t
  }

  function GetIfNewerThan(c: Cache, id: UID, t: Time): Option<Data> {
    if id !in c.pods then (if GlobalNewer(c, t) then Some(DefaultData(id)) else None)
    else if c.pods[id].modified > t || GlobalNewer(c, t) then Some(c.pods[id]) else None
  }

  function Records(c: Cache, id: UID): seq<SubRecord> {
    if id in c.subscribers then c.subscribers[id] else []
  }

  /** `ch <- d; close(ch)`. */
  function Answer(c: Cache, ch: nat, d: Data): Cache {
    if ch >= |c.chans| then c
    else c.(
      chans := c.chans[ch := Chan(if c.chans[ch].value.None? then Some(d) else c.chans[ch].value, true)],
      faults := c.faults + (if c.chans[ch].closed then {SendOnClosed, ClosedTwice} else {}) +
                (if c.chans[ch].value.Some? then {SendBlocks} else {}))
  }

  /** Answers the records that ask for `ts` or earlier. */
  function AnswerAll(c: Cache, list: seq<SubRecord>, ts: Time, d: Data): Cache
    decreases |list|
  {
    if list == [] then c
    else AnswerAll(if ts < list[0].time then c else Answer(c, list[0].ch, d), list[1..], ts, d)
  }

  function Kept(list: seq<SubRecord>, ts: Time): seq<SubRecord> {
    if list == [] then [] else (if ts < list[0].time then [list[0]] else []) + Kept(list[1..], ts)
  }

  function Notify(c: Cache, id: UID, ts: Time): Cache {
    if id !in c.subscribers then c
    else
      var c1 := AnswerAll(c, c.subscribers[id], ts, GetData(c, id));
      var kept := Kept(c.subscribers[id], ts);
      c1.(subscribers := if kept == [] then c.subscribers - {id} else c.subscribers[id := kept])
  }

  function SetPod(c: Cache, id: UID, d: Data): Cache {
    Notify(c.(pods := c.pods[id := d]), id, d.modified)
  }

  function DeletePod(c: Cache, id: UID): Cache {
    c.(pods := c.pods - {id})
  }

  /** The waiting UIDs are visited in the map's arbitrary order. */
  function NotifyAll(c: Cache, order: seq<UID>, ts: Time): Cache
    decreases |order|
  {
    if order == [] then c else NotifyAll(Notify(c, order[0], ts), order[1..], ts)
  }

  function UpdateTime(c: Cache, ts: Time, order: seq<UID>): Cache {
    NotifyAll(c.(timestamp := Some(ts)), order, ts)
  }

  /** The new channel is the last one. */
  function Subscribe(c: Cache, id: UID, t: Time): Cache {
    var d := GetIfNewerThan(c, id, t);
    c.(chans := c.chans + [Chan(d, false)],
       subscribers := if d.Some? then c.subscribers
                      else c.subscribers[id := Records(c, id) + [SubRecord(t, |c.chans|)]])
  }

  // ---------- the cache and those who wait ----------

  /** A call of GetNewerThan. */
  datatype Request = Request(id: UID, minTime: Time)

  /** The k-th request waits on the k-th channel. */
  datatype State = State(c: Cache, requests: seq<Request>)

  const INITIAL := State(NEW_CACHE, [])

  datatype Event =
    | Set(id: UID, d: Data)
    | Delete(id: UID)
    | Tick(ts: Time, order: seq<UID>)
    | Wait(id: UID, minTime: Time)

  ghost predicate Enumerates(order: seq<UID>, uids: set<UID>) {
    (forall u :: u in order <==> u in uids) &&
    (forall i, j :: 0 <= i < j < |order| ==> order[i] != order[j])
  }

  ghost predicate Enabled(s: State, e: Event) {
    e.Tick? ==> Enumerates(e.order, s.c.subscribers.Keys)
  }

  function Step(s: State, e: Event): State {
    match e
    case Set(id, d) => s.(c := SetPod(s.c, id, d))
    case Delete(id) => s.(c := DeletePod(s.c, id))
    case Tick(ts, order) => s.(c := UpdateTime(s.c, ts, order))
    case Wait(id, t) => State(Subscribe(s.c, id, t), s.requests + [Request(id, t)])
  }

  ghost predicate Run(s: State, es: seq<Event>)
    decreases |es|
  {
    es == [] || (Enabled(s, es[0]) && Run(Step(s, es[0]), es[1..]))
  }

  function Exec(s: State, es: seq<Event>): State
    decreases |es|
  {
    if es == [] then s else Exec(Step(s, es[0]), es[1..])
  }

  // ---------- the invariant ----------

  predicate Parked(s: State, k: nat) {
    k < |s.requests| && SubRecord(s.requests[k].minTime, k) in Records(s.c, s.requests[k].id)
  }

  ghost predicate Distinct(list: seq<SubRecord>) {
    forall i, j :: 0 <= i < j < |list| ==> list[i] != list[j]
  }

  /** The record is that of a request for `id`. */
  predicate Genuine(requests: seq<Request>, id: UID, r: SubRecord) {
    r.ch < |requests| && requests[r.ch] == Request(id, r.time)
  }

  ghost predicate RecordsOk(requests: seq<Request>, id: UID, list: seq<SubRecord>) {
    Distinct(list) && forall r :: r in list ==> Genuine(requests, id, r)
  }

  /** Exactly the unanswered requests are parked, each once, with its channel empty and open. */
  ghost predicate Wired(s: State) {
    |s.c.chans| == |s.requests| && s.c.faults == {} &&
    (forall id :: RecordsOk(s.requests, id, Records(s.c, id))) &&
    (forall id :: id in s.c.subscribers ==> s.c.subscribers[id] != []) &&
    (forall k: nat :: k < |s.requests| ==> ChanOk(s.c.chans[k], Parked(s, k)))
  }

  predicate ChanOk(chan: Chan, parked: bool) {
    if parked then chan == Chan(None, false) else chan.value.Some?
  }

  /** Nobody waits for something the cache has. */
  ghost predicate NoneReady(s: State) {
    forall k: nat :: Parked(s, k) ==> GetIfNewerThan(s.c, s.requests[k].id, s.requests[k].minTime) == None
  }

  ghost predicate Inv(s: State) {
    Wired(s) && NoneReady(s)
  }

  // ---------- notifying ----------

  lemma KeptIs(list: seq<SubRecord>, ts: Time)
    requires Distinct(list)
    ensures Distinct(Kept(list, ts))
    ensures forall r :: r in Kept(list, ts) <==> r in list && ts < r.time
  {
    if list != [] {
      var rest := list[1..];
      KeptIs(rest, ts);
      assert forall r :: r in list <==> r == list[0] || r in rest;
    }
  }

  lemma {:induction false} AnswerAllIs(
      c: Cache, list: seq<SubRecord>, ts: Time, d: Data, requests: seq<Request>, id: UID)
    requires RecordsOk(requests, id, list) && |c.chans| == |requests|
    requires forall r :: r in list ==> c.chans[r.ch] == Chan(None, false)
    ensures var c' := AnswerAll(c, list, ts, d);
            c' == c.(chans := c'.chans) && |c'.chans| == |c.chans| &&
            forall k: nat :: k < |c.chans| ==>
              c'.chans[k] == if SubRecord(requests[k].minTime, k) in list && ts >= requests[k].minTime
                             then Chan(Some(d), true) else c.chans[k]
    decreases |list|
  {
    if list != [] {
      var r := list[0];
      var c1 := if ts < r.time then c else Answer(c, r.ch, d);
      assert Genuine(requests, id, r);
      assert forall q :: q in list[1..] ==> q in list && q.ch != r.ch by {
        forall q | q in list[1..] ensures q in list && q.ch != r.ch {
          assert Genuine(requests, id, q);
        }
      }
      AnswerAllIs(c1, list[1..], ts, d, requests, id);
      assert forall q :: q in list <==> q == r || q in list[1..];
    }
  }

  /** Notifying answers exactly the requests for `id` that ask for `ts` or earlier. */
  lemma NotifyIs(s: State, id: UID, ts: Time)
    requires Wired(s)
    ensures var s' := s.(c := Notify(s.c, id, ts));
            Wired(s') && s'.c.pods == s.c.pods && s'.c.timestamp == s.c.timestamp &&
            (forall other :: other != id ==> Records(s'.c, other) == Records(s.c, other)) &&
            forall k: nat :: k < |s.requests| ==>
              var released := Parked(s, k) && s.requests[k].id == id && ts >= s.requests[k].minTime;
              (Parked(s', k) <==> Parked(s, k) && !released) &&
              s'.c.chans[k] == if released then Chan(Some(GetData(s.c, id)), true) else s.c.chans[k]
  {
    if id in s.c.subscribers {
      var list := s.c.subscribers[id];
      assert RecordsOk(s.requests, id, Records(s.c, id));
      forall r | r in list ensures s.c.chans[r.ch] == Chan(None, false) {
        assert Genuine(s.requests, id, r) && Parked(s, r.ch);
      }
      KeptIs(list, ts);
      AnswerAllIs(s.c, list, ts, GetData(s.c, id), s.requests, id);
      var s' := s.(c := Notify(s.c, id, ts));
      assert Records(s'.c, id) == Kept(list, ts);
      forall other ensures RecordsOk(s.requests, other, Records(s'.c, other)) {
        assert RecordsOk(s.requests, other, Records(s.c, other));
      }
    }
  }

  lemma {:induction false} NotifyAllIs(s: State, order: seq<UID>, ts: Time)
    requires Wired(s)
    ensures var s' := s.(c := NotifyAll(s.c, order, ts));
            Wired(s') && s'.c.pods == s.c.pods && s'.c.timestamp == s.c.timestamp &&
            forall k: nat :: k < |s.requests| ==>
              var released := Parked(s, k) && s.requests[k].id in order && ts >= s.requests[k].minTime;
              (Parked(s', k) <==> Parked(s, k) && !released) &&
              s'.c.chans[k] == if released then Chan(Some(GetData(s.c, s.requests[k].id)), true) else s.c.chans[k]
    decreases |order|
  {
    if order != [] {
      var s1 := s.(c := Notify(s.c, order[0], ts));
      NotifyIs(s, order[0], ts);
      NotifyAllIs(s1, order[1..], ts);
      hide Wired, Parked;
      assert forall u :: u in order <==> u == order[0] || u in order[1..];
    }
  }

  // ---------- steps ----------

  /** The event makes the answer to the request new enough. */
  predicate Wakes(e: Event, r: Request) {
    (e.Set? && e.id == r.id && e.d.modified >= r.minTime) || (e.Tick? && e.ts >= r.minTime)
  }

  /** What the event stores and says about time, before anybody is notified. */
  function Stored(c: Cache, e: Event): Cache {
    match e
    case Set(id, d) => c.(pods := c.pods[id := d])
    case Delete(id) => c.(pods := c.pods - {id})
    case Tick(ts, _) => c.(timestamp := Some(ts))
    case Wait(_, _) => c
  }

  /** The event answers exactly the waiting requests it wakes, with what is stored then; it parks its own
      request, if it has one, exactly when the cache has nothing new enough. */
  lemma StepIs(s: State, e: Event)
    requires Wired(s) && Enabled(s, e)
    ensures var s' := Step(s, e);
            Wired(s') && s'.c.pods == Stored(s.c, e).pods && s'.c.timestamp == Stored(s.c, e).timestamp &&
            |s'.requests| == |s.requests| + (if e.Wait? then 1 else 0) && s'.requests[..|s.requests|] == s.requests &&
            (forall k: nat :: k < |s.requests| ==>
               var released := Parked(s, k) && Wakes(e, s.requests[k]);
               (Parked(s', k) <==> Parked(s, k) && !released) &&
               s'.c.chans[k] == if released then Chan(Some(GetData(s'.c, s.requests[k].id)), true) else s.c.chans[k]) &&
            (e.Wait? ==>
               var k := |s.requests|;
               s'.requests[k] == Request(e.id, e.minTime) &&
               s'.c.chans[k] == Chan(GetIfNewerThan(s.c, e.id, e.minTime), false) &&
               (Parked(s', k) <==> GetIfNewerThan(s.c, e.id, e.minTime) == None))
  {
    match e
    case Set(id, d) =>
      var s1 := s.(c := Stored(s.c, e));
      SameRecords(s, s1);
      NotifyIs(s1, id, d.modified);
    case Delete(id) => SameRecords(s, Step(s, e));
    case Tick(ts, order) =>
      var s1 := s.(c := Stored(s.c, e));
      SameRecords(s, s1);
      NotifyAllIs(s1, order, ts);
      ParkedIsKnown(s, e);
    case Wait(id, t) => WaitIs(s, id, t);
  }

  lemma SameRecords(s: State, s': State)
    requires Wired(s) && s' == s.(c := s'.c) && s'.c == s.c.(pods := s'.c.pods, timestamp := s'.c.timestamp)
    ensures Wired(s') && forall k: nat :: Parked(s', k) <==> Parked(s, k)
  {
    forall id ensures RecordsOk(s'.requests, id, Records(s'.c, id)) {
      assert RecordsOk(s.requests, id, Records(s.c, id));
    }
    assert forall k: nat :: Parked(s', k) <==> Parked(s, k);
  }

  lemma ParkedIsKnown(s: State, e: Event)
    requires Enabled(s, e) && e.Tick?
    ensures forall k: nat :: Parked(s, k) ==> s.requests[k].id in e.order
  {
  }

  lemma WaitIs(s: State, id: UID, t: Time)
    requires Wired(s)
    ensures var s', n := Step(s, Wait(id, t)), |s.requests|;
            Wired(s') && (forall k: nat :: k < n ==> (Parked(s', k) <==> Parked(s, k))) &&
            (Parked(s', n) <==> GetIfNewerThan(s.c, id, t) == None)
  {
    var s', n := Step(s, Wait(id, t)), |s.requests|;
    assert RecordsOk(s.requests, id, Records(s.c, id));
    forall r | r in Records(s.c, id) ensures r.ch < n { assert Genuine(s.requests, id, r); }
    forall other ensures RecordsOk(s'.requests, other, Records(s'.c, other)) {
      assert RecordsOk(s.requests, other, Records(s.c, other));
      forall r | r in Records(s'.c, other) ensures Genuine(s'.requests, other, r) {
        assert r in Records(s.c, other) ==> Genuine(s.requests, other, r);
      }
    }
    forall k: nat | k < n ensures Parked(s', k) <==> Parked(s, k) {
      assert s'.requests[k] == s.requests[k];
    }
    forall r | r in Records(s.c, id) ensures r != SubRecord(t, n) {}
  }

  lemma StepInv(s: State, e: Event)
    requires Inv(s) && Enabled(s, e)
    ensures Inv(Step(s, e))
  {
    StepIs(s, e);
    var s' := Step(s, e);
    forall k: nat | Parked(s', k) ensures GetIfNewerThan(s'.c, s'.requests[k].id, s'.requests[k].minTime) == None {
      if k < |s.requests| {
        assert s'.requests[..|s.requests|][k] == s.requests[k];
        assert Parked(s, k) && !Wakes(e, s.requests[k]);
      }
    }
    hide Step, Wired;
  }

  lemma {:induction false} RunInv(s: State, es: seq<Event>)
    requires Inv(s) && Run(s, es)
    ensures Inv(Exec(s, es))
    decreases |es|
  {
    if es != [] {
      StepInv(s, es[0]);
      RunInv(Step(s, es[0]), es[1..]);
    }
  }

  lemma InitialInv()
    ensures Inv(INITIAL)
  {
  }

  // ---------- what the cache holds ----------

  /** The data of the last Set for the pod, unless it has been deleted since. */
  function LastSet(es: seq<Event>, id: UID): Option<Data>
    decreases |es|
  {
    if es == [] then None
    else
      var n := |es| - 1;
      match es[n]
      case Set(u, d) => if u == id then Some(d) else LastSet(es[..n], id)
      case Delete(u) => if u == id then None else LastSet(es[..n], id)
      case _ => LastSet(es[..n], id)
  }

  lemma {:induction false} RunSplit(s: State, es: seq<Event>)
    requires Run(s, es) && es != []
    ensures var n := |es| - 1;
            Run(s, es[..n]) && Enabled(Exec(s, es[..n]), es[n]) && Exec(s, es) == Step(Exec(s, es[..n]), es[n])
    decreases |es|
  {
    var n := |es| - 1;
    if n == 0 {
      assert es[..0] == [] && es[1..] == [];
    } else {
      assert es[1..][..n - 1] == es[..n][1..];
      RunSplit(Step(s, es[0]), es[1..]);
    }
  }

  function Entry(c: Cache, id: UID): Option<Data> {
    if id in c.pods then Some(c.pods[id]) else None
  }

  lemma EntryStored(c: Cache, c': Cache, e: Event, id: UID)
    requires c'.pods == Stored(c, e).pods
    ensures Entry(c', id) ==
              match e
              case Set(u, d) => if u == id then Some(d) else Entry(c, id)
              case Delete(u) => if u == id then None else Entry(c, id)
              case _ => Entry(c, id)
  {
  }

  lemma {:induction false} EntryIsLastSet(es: seq<Event>, id: UID)
    requires Run(INITIAL, es)
    ensures Entry(Exec(INITIAL, es).c, id) == LastSet(es, id)
    decreases |es|
  {
    if es != [] {
      var n := |es| - 1;
      RunSplit(INITIAL, es);
      EntryIsLastSet(es[..n], id);
      InitialInv();
      RunInv(INITIAL, es[..n]);
      StepIs(Exec(INITIAL, es[..n]), es[n]);
      hide Step, Exec, Run, Wired, Stored, Entry;
      EntryStored(Exec(INITIAL, es[..n]).c, Exec(INITIAL, es).c, es[n], id);
    }
  }

  /** In every reachable state Get returns what was last set for the pod and not deleted since, or the empty
      status: notifying and waiting change nothing that is stored. */
  lemma GetIsLastSet(es: seq<Event>, id: UID)
    requires Run(INITIAL, es)
    ensures GetData(Exec(INITIAL, es).c, id) ==
              match LastSet(es, id) case Some(d) => d case None => DefaultData(id)
  {
    EntryIsLastSet(es, id);
  }

  // ---------- no lost wakeup ----------

  /** In every reachable state a request is unanswered exactly if it is parked, and then the cache has nothing
      new enough for it; no channel was sent to twice or while full, and none was closed twice. */
  lemma NobodyWaitsInVain(es: seq<Event>, k: nat)
    requires Run(INITIAL, es) && k < |Exec(INITIAL, es).requests|
    ensures var s := Exec(INITIAL, es);
            s.c.faults == {} && k < |s.c.chans| &&
            (s.c.chans[k].value.None? <==> Parked(s, k)) &&
            (Parked(s, k) ==> GetIfNewerThan(s.c, s.requests[k].id, s.requests[k].minTime) == None)
  {
    InitialInv();
    RunInv(INITIAL, es);
    assert ChanOk(Exec(INITIAL, es).c.chans[k], Parked(Exec(INITIAL, es), k));
  }

  /** The entry or the whole cache is at least as new as asked for. */
  predicate Fresh(c: Cache, r: Request) {
    (r.id in c.pods && c.pods[r.id].modified >= r.minTime) || (c.timestamp.Some? && c.timestamp.value >= r.minTime)
  }

  /** An answer is given once and stays; it is what the cache holds at that moment, and new enough. */
  lemma AnswersAreFresh(es: seq<Event>, e: Event, k: nat)
    requires Run(INITIAL, es) && Enabled(Exec(INITIAL, es), e) && k < |Step(Exec(INITIAL, es), e).requests|
    ensures var s, s' := Exec(INITIAL, es), Step(Exec(INITIAL, es), e);
            k < |s'.c.chans| &&
            if k < |s.c.chans| && s.c.chans[k].value.Some? then s'.c.chans[k] == s.c.chans[k]
            else s'.c.chans[k].value.Some? ==>
                   s'.c.chans[k].value == Some(GetData(s'.c, s'.requests[k].id)) && Fresh(s'.c, s'.requests[k])
  {
    var s := Exec(INITIAL, es);
    InitialInv();
    RunInv(INITIAL, es);
    StepIs(s, e);
    if k < |s.requests| {
      assert Step(s, e).requests[..|s.requests|][k] == s.requests[k];
      assert ChanOk(s.c.chans[k], Parked(s, k));
    }
    hide Exec, Run, Step;
  }

  /** A parked request goes on waiting exactly as long as no event wakes it: the first Set of its UID or
      UpdateTime that is at or after the time it asks for releases it. */
  lemma {:induction false} WaitsIff(s: State, es: seq<Event>, k: nat)
    requires Inv(s) && Run(s, es) && Parked(s, k)
    ensures Parked(Exec(s, es), k) <==> forall i :: 0 <= i < |es| ==> !Wakes(es[i], s.requests[k])
    decreases |es|
  {
    if es != [] {
      var s' := Step(s, es[0]);
      StepIs(s, es[0]);
      StepInv(s, es[0]);
      assert s'.requests[..|s.requests|][k] == s.requests[k];
      assert forall i :: 0 < i < |es| ==> es[i] == es[1..][i - 1];
      if Wakes(es[0], s.requests[k]) {
        StaysAnswered(s', es[1..], k);
      } else {
        WaitsIff(s', es[1..], k);
        assert (forall i :: 0 <= i < |es| ==> !Wakes(es[i], s.requests[k])) <==>
               (forall i :: 0 <= i < |es[1..]| ==> !Wakes(es[1..][i], s.requests[k])) by {
          forall i | 0 <= i < |es| && forall j :: 0 <= j < |es[1..]| ==> !Wakes(es[1..][j], s.requests[k])
            ensures !Wakes(es[i], s.requests[k])
          {
            if i > 0 { assert es[i] == es[1..][i - 1]; }
          }
        }
      }
    }
  }

  lemma {:induction false} StaysAnswered(s: State, es: seq<Event>, k: nat)
    requires Inv(s) && Run(s, es) && k < |s.requests| && !Parked(s, k)
    ensures !Parked(Exec(s, es), k)
    decreases |es|
  {
    if es != [] {
      StepIs(s, es[0]);
      StepInv(s, es[0]);
      StaysAnswered(Step(s, es[0]), es[1..], k);
    }
  }
}

/** The cache as the object whose methods update it while they hold its lock. */
module StatusCacheObject {
  import opened Wrappers
  import opened Api
  import opened StatusCache

  class PodCache {
    var pods: map<UID, Data>
    var timestamp: Option<Time>
    var subscribers: map<UID, seq<SubRecord>>
    /** The channels made so far; records refer to them by position. */
    var chans: seq<Chan>
    /** What went wrong in the Go runtime; the protocol keeps it empty. */
    var faults: set<Fault>

    function View(): Cache
      reads this
    {
      Cache(pods, timestamp, subscribers, chans, faults)
    }

    constructor ()
      ensures View() == NEW_CACHE
    {
      pods, timestamp, subscribers, chans, faults := map[], None, map[], [], {};
    }

    method Get(id: UID) returns (status: RuntimeStatus, failed: bool)
      ensures status == (if id in pods then pods[id].status else EmptyOf(id)) &&
              failed == (id in pods && pods[id].failed)
    {
      var d := if id in pods then pods[id] else DefaultData(id);
      return d.status, d.failed;
    }

    /** The data of the pod, if its entry or the whole cache is newer than the time. */
    method IfNewerThan(id: UID, minTime: Time) returns (d: Option<Data>)
      ensures d == GetIfNewerThan(View(), id, minTime)
      ensures d.Some? <==> (id in pods && pods[id].modified > minTime) || (timestamp.Some? && timestamp.value > minTime)
    {
      var globalTimestampIsNewer := timestamp.Some? && timestamp.value > minTime;
      if id !in pods && globalTimestampIsNewer { return Some(DefaultData(id)); }
      if id in pods && (pods[id].modified > minTime || globalTimestampIsNewer) { return Some(pods[id]); }
      return None;
    }

    /** Sends the data and closes the channel. */
    method SendAndClose(ch: nat, d: Data)
      modifies this`chans, this`faults
      ensures View() == Answer(old(View()), ch, d)
    {
      if ch < |chans| {
        if chans[ch].closed { faults := faults + {SendOnClosed, ClosedTwice}; }
        if chans[ch].value.Some? { faults := faults + {SendBlocks}; }
        chans := chans[ch := Chan(if chans[ch].value.None? then Some(d) else chans[ch].value, true)];
      }
    }

    method NotifyPod(id: UID, ts: Time)
      modifies this`chans, this`faults, this`subscribers
      ensures View() == Notify(old(View()), id, ts)
    {
      if id !in subscribers { return; }
      var list := subscribers[id];
      var d := if id in pods then pods[id] else DefaultData(id);
      var newList := [];
      for i := 0 to |list|
        invariant subscribers == old(subscribers) && View() == old(View()).(chans := chans, faults := faults)
        invariant AnswerAll(View(), list[i..], ts, d) == AnswerAll(old(View()), list, ts, d)
        invariant newList + Kept(list[i..], ts) == Kept(list, ts)
      {
        assert list[i..][1..] == list[i + 1..];
        if ts < list[i].time {
          newList := newList + [list[i]];
        } else {
          SendAndClose(list[i].ch, d);
        }
      }
      assert list[|list|..] == [];
      assert newList == Kept(list, ts) && View() == AnswerAll(old(View()), list, ts, d);
      hide AnswerAll, Kept;
      if |newList| == 0 {
        subscribers := subscribers - {id};
      } else {
        subscribers := subscribers[id := newList];
      }
    }

    method Set(id: UID, status: RuntimeStatus, failed: bool, ts: Time)
      modifies this
      ensures View() == SetPod(old(View()), id, Data(status, failed, ts))
    {
      pods := pods[id := Data(status, failed, ts)];
      NotifyPod(id, ts);
    }

    method Delete(id: UID)
      modifies this`pods
      ensures View() == DeletePod(old(View()), id)
    {
      pods := pods - {id};
    }

    method Waiting() returns (order: seq<UID>)
      ensures Enumerates(order, subscribers.Keys)
    {
      var left := subscribers.Keys;
      order := [];
      while left != {}
        invariant left <= subscribers.Keys && Enumerates(order, subscribers.Keys - left)
        decreases left
      {
        var id :| id in left;
        left := left - {id};
        order := order + [id];
      }
    }

    method UpdateTime(ts: Time) returns (order: seq<UID>)
      modifies this
      ensures Enumerates(order, old(subscribers).Keys)
      ensures View() == StatusCache.UpdateTime(old(View()), ts, order)
    {
      order := Waiting();
      timestamp := Some(ts);
      ghost var ticked := View();
      for i := 0 to |order|
        invariant NotifyAll(View(), order[i..], ts) == NotifyAll(ticked, order, ts)
      {
        assert order[i..][1..] == order[i + 1..];
        NotifyPod(order[i], ts);
      }
    }

    /** Makes a channel that holds the data if it is new enough, and is parked otherwise. */
    method Subscribe(id: UID, minTime: Time) returns (ch: nat)
      modifies this`chans, this`subscribers
      ensures View() == StatusCache.Subscribe(old(View()), id, minTime) && ch == |old(chans)|
    {
      ch := |chans|;
      var d := IfNewerThan(id, minTime);
      chans := chans + [Chan(d, false)];
      if d.None? {
        var list := if id in subscribers then subscribers[id] else [];
        subscribers := subscribers[id := list + [SubRecord(minTime, ch)]];
      }
    }
  }
}
