/**
 * NonLockingKeyGeneratingCache: an object store of boxed values plus the
 * fresh-key supply. A hit returns the stored data under the key supplied;
 * a miss runs the handler with no synchronisation and adds its result under
 * a new key. Nothing is ever written at the supplied key.
 *
 * The functions over State say what each operation does; the class
 * NonLockingKeyGeneratingCache updates its fields step by step as the C#
 * code does and is proved to agree with them.
 */
module NonLocking {

  import opened Wrappers
  import opened Keys
  import opened Api
  import ObjectStore

  /** DataBox<T>: the data, tagged with the runtime type it was added as. */
  datatype Box<V> = Box(tag: TypeTag, data: V)

  /** The object store's entries and the fresh-key supply's counter. */
  datatype State<V> = State(store: map<Key, Box<V>>, next: nat)

  datatype Added<V> = Added(after: State<V>, key: Key)

  /** The outcome of Get: the new state, the entry returned and how many times the miss handler ran. */
  datatype GetStep<V> = GetStep(after: State<V>, entry: CacheEntry<V>, handlerCalls: nat)

  /** Every stored key was generated, before the supply reached its counter: only Add writes to the store. */
  ghost predicate ValidState<V>(s: State<V>) {
    forall k :: k in s.store ==> k.Generated? && k.serial < s.next
  }

  /** The test at lines 63-64: nothing stored, or a box of another type. */
  predicate IsMiss<V>(cacheItem: Option<Box<V>>, tag: TypeTag): (r: bool)
    ensures cacheItem.None? ==> r
    ensures cacheItem.Some? ==> (r <==> cacheItem.value.tag != tag)
  {
    cacheItem.None? || cacheItem.value.tag != tag
  }

  /** Add: the data is boxed under a new key that was not in the store; nothing else changes. */
  function AddSpec<V>(s: State<V>, tag: TypeTag, data: V): (r: Added<V>)
    requires ValidState(s)
    ensures ValidState(r.after)
    ensures AddContract(r.key, s.next, r.after.next)
    ensures r.key !in s.store
    ensures r.after.store == s.store[r.key := Box(tag, data)]
  {
    var (key, next') := GenerateNewKey(s.next);
    Added(State(ObjectStore.Add(s.store, key, Box(tag, data)), next'), key)
  }

  /**
   * Get: blank keys are replaced by a new key, which then misses. A hit
   * changes nothing and returns the stored data under the supplied key; a
   * miss adds the handler's result under a new key, and that key is the one
   * returned. Either way the key returned now holds the data returned.
   */
  function GetSpec<V>(s: State<V>, key: Option<Key>, tag: TypeTag, handler: V): (r: GetStep<V>)
    requires ValidState(s)
    ensures ValidState(r.after) && s.next <= r.after.next
    ensures !IsNullOrWhiteSpace(Some(r.entry.key)) && r.entry.key.Generated?
    ensures r.entry.key in r.after.store && r.after.store[r.entry.key] == Box(tag, r.entry.data)
    ensures r.handlerCalls <= 1
    ensures r.handlerCalls != 0 ==> MissContract(r.entry, r.handlerCalls, handler, s.next, r.after.next)
                                    && r.after.store == s.store[r.entry.key := Box(tag, handler)]
    ensures r.handlerCalls == 0 ==> r.after == s
  {
    var minted := GenerateNewKey(s.next);
    var k := if IsNullOrWhiteSpace(key) then minted.0 else key.value;
    var s1 := if IsNullOrWhiteSpace(key) then s.(next := minted.1) else s;
    var cacheItem := ObjectStore.Get(s1.store, k);
    if IsMiss(cacheItem, tag) then
      var added := AddSpec(s1, tag, handler);
      GetStep(added.after, CacheEntry(added.key, handler), 1)
    else
      GetStep(s1, CacheEntry(k, cacheItem.value.data), 0)
  }

  /**
   * Remove: the key leaves the store and nothing else changes. A null key
   * makes ObjectCache.Remove throw, the catch swallows it, and nothing changes.
   */
  function RemoveSpec<V>(s: State<V>, key: Option<Key>): (r: State<V>)
    ensures key.Some? ==> r.store == s.store - {key.value}
    ensures key.None? ==> r == s
    ensures r.next == s.next
  {
    match key
    case None => s
    case Some(k) => s.(store := ObjectStore.Remove(s.store, k))
  }

  class NonLockingKeyGeneratingCache<V> {

    var store: map<Key, Box<V>>
    var next: nat

    function Abstract(): State<V>
      reads this
    {
      State(store, next)
    }

    ghost predicate Valid()
      reads this
    {
      ValidState(Abstract())
    }

    /** A cache over a new, empty object store. */
    constructor ()
      ensures Valid() && Abstract() == State(map[], 0)
    {
      store := map[];
      next := 0;
    }

    method GenerateNewKey() returns (key: Key)
      modifies this
      ensures (key, next) == Keys.GenerateNewKey(old(next)) && store == old(store)
    {
      key := Generated(next);
      next := next + 1;
    }

    method Add(tag: TypeTag, data: V) returns (key: Key)
      requires Valid()
      modifies this
      ensures Valid()
      ensures AddSpec(old(Abstract()), tag, data) == Added(Abstract(), key)
    {
      key := GenerateNewKey();
      var dataBox := Box(tag, data);
      store := ObjectStore.Add(store, key, dataBox);
    }

    method Get(key: Option<Key>, tag: TypeTag, handler: V) returns (entry: CacheEntry<V>, handlerCalls: nat)
      requires Valid()
      modifies this
      ensures Valid()
      ensures GetSpec(old(Abstract()), key, tag, handler) == GetStep(Abstract(), entry, handlerCalls)
    {
      var k: Key;
      if IsNullOrWhiteSpace(key) {
        k := GenerateNewKey();
      } else {
        k := key.value;
      }
      var cacheItem := ObjectStore.Get(store, k);
      handlerCalls := 0;
      if IsMiss(cacheItem, tag) {
        var dataFromSource := handler;
        handlerCalls := handlerCalls + 1;
        k := Add(tag, dataFromSource);
        cacheItem := Some(Box(tag, dataFromSource));
      }
      var dataBox := cacheItem.value;
      entry := CacheEntry(k, dataBox.data);
    }

    method Remove(key: Option<Key>)
      modifies this
      ensures Abstract() == RemoveSpec(old(Abstract()), key)
    {
      if key.Some? {
        store := ObjectStore.Remove(store, key.value);
      }
    }
  }

  /** A null, empty or blank key always takes the miss path. */
  lemma BlankKeyMisses<V>(s: State<V>, key: Option<Key>, tag: TypeTag, handler: V)
    requires ValidState(s) && IsNullOrWhiteSpace(key)
    ensures var r := GetSpec(s, key, tag, handler);
      MissContract(r.entry, r.handlerCalls, handler, s.next, r.after.next)
  {
    var k := Generated(s.next);
    assert k !in s.store;
  }

  /** A hit on a box of the requested type returns the supplied key and the stored data, and changes nothing. */
  lemma GetHit<V>(s: State<V>, k: Key, tag: TypeTag, data: V, handler: V)
    requires ValidState(s) && !IsNullOrWhiteSpace(Some(k))
    requires k in s.store && s.store[k] == Box(tag, data)
    ensures GetSpec(s, Some(k), tag, handler) == GetStep(s, CacheEntry(k, data), 0)
  {
  }

  /**
   * A miss on a key that is absent or holds another type runs the handler
   * once, returns its result under a key different from the supplied one,
   * and leaves whatever was at the supplied key alone.
   */
  lemma GetMiss<V>(s: State<V>, k: Key, tag: TypeTag, handler: V)
    requires ValidState(s) && CallerKey(Some(k), s.next)
    requires IsMiss(ObjectStore.Get(s.store, k), tag)
    ensures var r := GetSpec(s, Some(k), tag, handler);
      MissContract(r.entry, r.handlerCalls, handler, s.next, r.after.next)
      && r.entry.key != k
      && (k in r.after.store <==> k in s.store)
      && (k in s.store ==> r.after.store[k] == s.store[k])
  {
    var r := GetSpec(s, Some(k), tag, handler);
    if !IsNullOrWhiteSpace(Some(k)) {
      assert r.handlerCalls == 1;
    } else {
      BlankKeyMisses(s, Some(k), tag, handler);
    }
    FreshKeyIsNew(r.entry.key, Some(k), s.next, r.after.next);
  }

  /** Get(Add(d), h) returns d under the added key and does not run h. */
  lemma AddThenGet<V>(s: State<V>, tag: TypeTag, data: V, handler: V)
    requires ValidState(s)
    ensures var a := AddSpec(s, tag, data);
      GetSpec(a.after, Some(a.key), tag, handler) == GetStep(a.after, CacheEntry(a.key, data), 0)
  {
    var a := AddSpec(s, tag, data);
    GetHit(a.after, a.key, tag, data, handler);
  }
}
