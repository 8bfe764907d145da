/** The two stores that keep referenced objects, and the manager that registers pods with either. */
module ObjectStores {
  import opened Wrappers
  import opened Api
  import opened ReferenceCounts

  // ---------- the store whose objects expire ----------

  class StoreItem {
    var refCount: int
    /** The cached object, if there is one that is still valid. */
    var data: Option<nat>

    constructor ()
      ensures refCount == 0 && data == None
    {
      refCount, data := 0, None;
    }
  }

  class ObjectStore {
    var items: map<ObjectKey, StoreItem>

    ghost predicate Valid()
      reads this, items.Values
    {
      (forall k, l :: k in items && l in items && k != l ==> items[k] != items[l]) &&
      (forall k :: k in items ==> items[k].refCount > 0)
    }

    ghost function Counts(): Counts
      reads this, items.Values
    {
      map k | k in items :: items[k].refCount
    }

    constructor ()
      ensures Valid() && Counts() == map[] && items == map[]
    {
      items := map[];
    }

    /** Counts one more reference; the object is fetched anew by the next Get. */
    method AddReference(namespace: string, name: string)
      requires Valid()
      modifies this, items.Values
      ensures Valid() && Counts() == AddRef(old(Counts()), KeyOf(namespace, name))
      ensures forall k :: k in old(items) ==> k in items && items[k] == old(items[k])
      ensures fresh(items.Values - old(items.Values))
      ensures KeyOf(namespace, name) in items && items[KeyOf(namespace, name)].data == None
    {
      var key := KeyOf(namespace, name);
      if key !in items {
        var item := new StoreItem();
        items := items[key := item];
      }
      var item := items[key];
      item.refCount := item.refCount + 1;
      item.data := None;
    }

    /** Counts one reference less; the last one takes the item along. */
    method DeleteReference(namespace: string, name: string)
      requires Valid()
      modifies this, items.Values
      ensures Valid() && Counts() == DeleteRef(old(Counts()), KeyOf(namespace, name))
      ensures items.Keys <= old(items.Keys) && forall k :: k in items ==> items[k] == old(items[k])
    {
      var key := KeyOf(namespace, name);
      if key in items {
        var item := items[key];
        item.refCount := item.refCount - 1;
        if item.refCount == 0 { items := items - {key}; }
      }
    }
  }

  // ---------- the store that watches its objects ----------

  class CacheItem {
    var refCount: int
    /** The reflector's stop channel has been closed. */
    var stopped: bool
    var immutable: bool

    constructor ()
      ensures refCount == 0 && !stopped && !immutable
    {
      refCount, stopped, immutable := 0, false, false;
    }

    /** Closes the stop channel, unless that has been done. */
    method Stop() returns (didStop: bool)
      modifies this`stopped
      ensures didStop == !old(stopped) && stopped
    {
      if stopped { return false; }
      stopped := true;
      didStop := true;
    }

    /** A stopped reflector of an object that can change is started again, with a new stop channel. */
    method RestartIfNeeded()
      modifies this`stopped
      ensures stopped == (old(stopped) && immutable)
    {
      if immutable || !stopped { return; }
      stopped := false;
    }
  }

  class ObjectCache {
    var items: map<ObjectKey, CacheItem>

    ghost predicate Valid()
      reads this, items.Values
    {
      (forall k, l :: k in items && l in items && k != l ==> items[k] != items[l]) &&
      (forall k :: k in items ==> items[k].refCount > 0)
    }

    ghost function Counts(): Counts
      reads this, items.Values
    {
      map k | k in items :: items[k].refCount
    }

    constructor ()
      ensures Valid() && Counts() == map[] && items == map[]
    {
      items := map[];
    }

    /** Counts one more reference; the first one starts a reflector. */
    method AddReference(namespace: string, name: string)
      requires Valid()
      modifies this, items.Values
      ensures Valid() && Counts() == AddRef(old(Counts()), KeyOf(namespace, name))
      ensures forall k :: k in old(items) ==>
              k in items && items[k] == old(items[k]) && items[k].stopped == old(items[k].stopped)
      ensures fresh(items.Values - old(items.Values))
      ensures forall k :: k in items && k !in old(items) ==> !items[k].stopped
    {
      var key := KeyOf(namespace, name);
      if key !in items {
        var item := new CacheItem();
        items := items[key := item];
      }
      var item := items[key];
      item.refCount := item.refCount + 1;
    }

    /** Counts one reference less; the last one stops the reflector and takes the item along. */
    method DeleteReference(namespace: string, name: string)
      requires Valid()
      modifies this, items.Values
      ensures Valid() && Counts() == DeleteRef(old(Counts()), KeyOf(namespace, name))
      ensures items.Keys <= old(items.Keys)
      ensures forall k :: k in items ==> items[k] == old(items[k]) && items[k].stopped == old(items[k].stopped)
      ensures forall k :: k in old(items) && k !in items ==> old(items[k]).stopped
    {
      var key := KeyOf(namespace, name);
      if key in items {
        var item := items[key];
        item.refCount := item.refCount - 1;
        if item.refCount == 0 {
          var didStop := item.Stop();
          items := items - {key};
        }
      }
    }
  }

  // ---------- either store ----------

  type Items = map<ObjectKey, object>

  /** Every item of `a` is in `b`, under its key. */
  ghost predicate KeepsAll(a: Items, b: Items) {
    forall k :: k in a ==> k in b && b[k] == a[k]
  }

  /** What is kept under a key before and after is the same item. */
  ghost predicate SameItems(a: Items, b: Items) {
    forall k :: k in a && k in b ==> b[k] == a[k]
  }

  datatype Store = TtlStore(ttl: ObjectStore) | WatchStore(watch: ObjectCache)
  {
    ghost function Repr(): set<object>
      reads if TtlStore? then {ttl as object} else {watch as object}
    {
      match this
      case TtlStore(ttl) => {ttl as object} + set i: object | i in ttl.items.Values
      case WatchStore(watch) => {watch as object} + set i: object | i in watch.items.Values
    }

    ghost predicate Valid()
      reads if TtlStore? then {ttl as object} else {watch as object}, Repr()
    {
      match this
      case TtlStore(ttl) => ttl.Valid()
      case WatchStore(watch) => watch.Valid()
    }

    ghost function Counts(): Counts
      reads if TtlStore? then {ttl as object} else {watch as object}, Repr()
    {
      match this
      case TtlStore(ttl) => ttl.Counts()
      case WatchStore(watch) => watch.Counts()
    }

    /** Which object is kept where. */
    ghost function Items(): Items
      reads if TtlStore? then {ttl as object} else {watch as object}
    {
      match this
      case TtlStore(ttl) => map k | k in ttl.items :: ttl.items[k] as object
      case WatchStore(watch) => map k | k in watch.items :: watch.items[k] as object
    }

    method AddReference(namespace: string, name: string)
      requires Valid()
      modifies Repr()
      ensures Valid() && Counts() == AddRef(old(Counts()), KeyOf(namespace, name)) && fresh(Repr() - old(Repr()))
      ensures KeepsAll(old(Items()), Items())
    {
      match this
      case TtlStore(ttl) => ttl.AddReference(namespace, name);
      case WatchStore(watch) => watch.AddReference(namespace, name);
    }

    method DeleteReference(namespace: string, name: string)
      requires Valid()
      modifies Repr()
      ensures Valid() && Counts() == DeleteRef(old(Counts()), KeyOf(namespace, name)) && Repr() <= old(Repr())
      ensures KeepsAll(Items(), old(Items()))
    {
      match this
      case TtlStore(ttl) => ttl.DeleteReference(namespace, name);
      case WatchStore(watch) => watch.DeleteReference(namespace, name);
    }
  }

  // ---------- the manager ----------

  class CacheBasedManager {
    const store: Store
    /** The names of the objects a pod references. */
    const referenced: Pod -> set<string>
    var registeredPods: Registered

    ghost predicate Valid()
      reads this, store.Repr()
    {
      this !in store.Repr() && store.Valid() && Conserved(store.Counts(), registeredPods, referenced)
    }

    constructor (store: Store, referenced: Pod -> set<string>)
      requires store.Valid() && store.Counts() == map[]
      ensures Valid() && registeredPods == map[] && this.store == store && this.referenced == referenced
    {
      this.store, this.referenced, registeredPods := store, referenced, map[];
      new;
      assert forall key :: Mentioning(registeredPods, referenced, key) == {};
    }

    /** The names of a set in the arbitrary order in which Go ranges over it. */
    method InSomeOrder(names: set<string>) returns (order: seq<string>)
      ensures Enumerates(order, names)
    {
      var left := names;
      order := [];
      while left != {}
        invariant left <= names && Enumerates(order, names - left)
        decreases left
      {
        var n :| n in left;
        left := left - {n};
        order := order + [n];
      }
    }

    method AddAll(namespace: string, names: seq<string>)
      requires store.Valid() && this !in store.Repr()
      modifies store.Repr()
      ensures store.Valid() && this !in store.Repr() && fresh(store.Repr() - old(store.Repr()))
      ensures store.Counts() == AddRefs(old(store.Counts()), namespace, names)
      ensures KeepsAll(old(store.Items()), store.Items())
    {
      for i := 0 to |names|
        invariant store.Valid() && this !in store.Repr() && fresh(store.Repr() - old(store.Repr()))
        invariant AddRefs(store.Counts(), namespace, names[i..]) == AddRefs(old(store.Counts()), namespace, names)
        invariant KeepsAll(old(store.Items()), store.Items())
      {
        assert names[i..][1..] == names[i + 1..];
        store.AddReference(namespace, names[i]);
      }
    }

    method DeleteAll(namespace: string, names: seq<string>)
      requires store.Valid() && this !in store.Repr()
      modifies store.Repr()
      ensures store.Valid() && store.Repr() <= old(store.Repr())
      ensures store.Counts() == DeleteRefs(old(store.Counts()), namespace, names)
      ensures KeepsAll(store.Items(), old(store.Items()))
    {
      for i := 0 to |names|
        invariant store.Valid() && store.Repr() <= old(store.Repr())
        invariant DeleteRefs(store.Counts(), namespace, names[i..]) == DeleteRefs(old(store.Counts()), namespace, names)
        invariant KeepsAll(store.Items(), old(store.Items()))
      {
        assert names[i..][1..] == names[i + 1..];
        store.DeleteReference(namespace, names[i]);
      }
    }

    /** Adds one version's references before it deletes the other's, so that what both mention keeps its item. */
    method Exchange(namespace: string, names: seq<string>, prevNamespace: string, previous: seq<string>)
      requires store.Valid() && this !in store.Repr()
      modifies store.Repr()
      ensures store.Valid() && this !in store.Repr() && fresh(store.Repr() - old(store.Repr()))
      ensures store.Counts() == DeleteRefs(AddRefs(old(store.Counts()), namespace, names), prevNamespace, previous)
      ensures SameItems(old(store.Items()), store.Items())
    {
      AddAll(namespace, names);
      DeleteAll(prevNamespace, previous);
    }

    /** The references to add for the pod and those to delete for its previous version, which leave the counts right. */
    method ReferencesOf(pod: Pod) returns (names: seq<string>, prevNamespace: string, previous: seq<string>)
      requires Valid()
      ensures Conserved(DeleteRefs(AddRefs(store.Counts(), pod.namespace, names), prevNamespace, previous),
                        registeredPods[PodKey(pod) := pod], referenced)
    {
      hide Conserved, Enumerates, AddRefs;
      var key := PodKey(pod);
      names := InSomeOrder(referenced(pod));
      prevNamespace, previous := pod.namespace, [];
      if key in registeredPods {
        prevNamespace := registeredPods[key].namespace;
        previous := InSomeOrder(referenced(registeredPods[key]));
      }
      RegisterConserves(store.Counts(), registeredPods, referenced, pod, names, previous);
    }

    /** Registers the pod in place of its previous version. The counts are those of the pods registered then, and
        an object that is kept before and after keeps its item. */
    method RegisterPod(pod: Pod)
      requires Valid()
      modifies this, store.Repr()
      ensures Valid() && registeredPods == old(registeredPods)[PodKey(pod) := pod] &&
              fresh(store.Repr() - old(store.Repr()))
      ensures SameItems(old(store.Items()), store.Items())
    {
      var names, prevNamespace, previous := ReferencesOf(pod);
      hide Conserved, AddRefs, DeleteRefs, SameItems;
      Exchange(pod.namespace, names, prevNamespace, previous);
      SetRegistered(registeredPods[PodKey(pod) := pod]);
    }

    method UnregisterPod(pod: Pod)
      requires Valid()
      modifies this, store.Repr()
      ensures Valid() && registeredPods == old(registeredPods) - {PodKey(pod)}
      ensures KeepsAll(store.Items(), old(store.Items()))
    {
      var key := PodKey(pod);
      if key in registeredPods {
        var namespace, previous := ReferencesLeft(key);
        hide Conserved, DeleteRefs, KeepsAll;
        DeleteAll(namespace, previous);
        SetRegistered(registeredPods - {key});
      }
    }

    /** The references of a registered pod, which leave the counts right when they are deleted with it. */
    method ReferencesLeft(key: ObjectKey) returns (namespace: string, previous: seq<string>)
      requires Valid() && key in registeredPods
      ensures Conserved(DeleteRefs(store.Counts(), namespace, previous), registeredPods - {key}, referenced)
    {
      hide Conserved, Enumerates, DeleteRefs;
      namespace := registeredPods[key].namespace;
      previous := InSomeOrder(referenced(registeredPods[key]));
      UnregisterConserves(store.Counts(), registeredPods, referenced, key, previous);
    }

    method SetRegistered(registered: Registered)
      requires this !in store.Repr()
      modifies this`registeredPods
      ensures registeredPods == registered
      ensures store.Repr() == old(store.Repr()) && store.Items() == old(store.Items())
      ensures store.Counts() == old(store.Counts()) && store.Valid() == old(store.Valid())
    {
      registeredPods := registered;
    }
  }
}
