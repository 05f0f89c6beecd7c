/**
 * LockingKeyGeneratingCache: the stampede-safe cache, run sequentially.
 *
 * State: an object store of boxes, each either the data itself or a
 * redirect to the key the data moved to; the lock registry, reduced to the
 * set of keys that have a lock object; and the fresh-key supply.
 *
 * A miss runs the handler, adds its result under a new key, writes a
 * redirect at the key that missed (only if that key is absent: the store
 * never replaces an entry) and drops that key's lock. A Get that finds a
 * redirect of its type follows it. Redirect targets are always keys minted
 * after the key that points at them, so chains of redirects only climb and
 * Get terminates.
 *
 * The functions over State say what each operation does; the class
 * LockingKeyGeneratingCache updates its fields step by step as the C# code
 * does and is proved to agree with them.
 */
module Locking {

  import opened Wrappers
  import opened Keys
  import opened Api
  import ObjectStore

  /** DataBox<T>: either the data, or a redirect to the key now holding it; tagged with T. */
  datatype Box<V> = Direct(tag: TypeTag, data: V) | Redirect(tag: TypeTag, target: Key)

  /** The object store, the keys in the lock registry, and the fresh-key supply's counter. */
  datatype State<V> = State(store: map<Key, Box<V>>, locks: set<Key>, next: nat)

  datatype Added<V> = Added(after: State<V>, key: Key)

  /** The outcome of Get: the new state, the entry returned and how many times the miss handler ran. */
  datatype GetStep<V> = GetStep(after: State<V>, entry: CacheEntry<V>, handlerCalls: nat)

  /** A redirect from k to target points at an issued key minted after k. */
  predicate RedirectForward(k: Key, target: Key, next: nat) {
    target.Generated? && target.serial < next && (k.Generated? ==> k.serial < target.serial)
  }

  /**
   * Every key in the store or the registry already exists for the supply,
   * data is stored only under generated keys, and every redirect points
   * forward.
   */
  ghost predicate ValidState<V>(s: State<V>) {
    && (forall k :: k in s.store ==> Known(k, s.next))
    && (forall k :: k in s.locks ==> Known(k, s.next))
    && (forall k :: k in s.store && s.store[k].Direct? ==> k.Generated?)
    && (forall k :: k in s.store && s.store[k].Redirect? ==> RedirectForward(k, s.store[k].target, s.next))
  }

  /** Termination measure of Get: following a redirect moves to a later key. */
  function Rank(key: Option<Key>, next: nat): nat {
    if key.Some? && key.value.Generated? && key.value.serial < next
    then next - key.value.serial
    else next + 1
  }

  /** The test at lines 106-107 and 151-152: nothing stored, or a box of another type. */
  predicate IsMiss<V>(cacheItem: Option<Box<V>>, tag: TypeTag): (r: bool)
    ensures cacheItem.None? ==> r
    ensures cacheItem.Some? ==> (r <==> cacheItem.value.tag != tag)
  {
    cacheItem.None? || cacheItem.value.tag != tag
  }

  /**
   * Add: the data is stored directly under a key that was neither in the
   * store nor in the registry, and the key gets a lock. Nothing else changes.
   */
  function AddSpec<V>(s: State<V>, tag: TypeTag, data: V): (r: Added<V>)
    requires ValidState(s)
    ensures ValidState(r.after)
    ensures AddContract(r.key, s.next, r.after.next)
    ensures r.key !in s.store && r.key !in s.locks
    ensures r.after.store == s.store[r.key := Direct(tag, data)]
    ensures r.after.locks == s.locks + {r.key}
  {
    var (key, next') := GenerateNewKey(s.next);
    var store' := ObjectStore.Add(s.store, key, Direct(tag, data));
    Added(State(store', s.locks + {key}, next'), key)
  }

  /**
   * Get, as the code runs it on one thread. A blank key is replaced by a new
   * one. On a miss the key is first given a lock (lines 131-141), the
   * handler's result is added under a new key, a redirect to that key is
   * inserted at the original key and the original key's lock is dropped. A
   * redirect of the requested type is followed. Whatever happens, the key
   * returned now holds the data returned, and only a miss changes the state.
   */
  function GetSpec<V>(s: State<V>, key: Option<Key>, tag: TypeTag, handler: V): (r: GetStep<V>)
    requires ValidState(s) && CallerKey(key, s.next)
    ensures ValidState(r.after) && s.next <= r.after.next
    ensures !IsNullOrWhiteSpace(Some(r.entry.key)) && r.entry.key.Generated?
    ensures r.entry.key in r.after.store && r.after.store[r.entry.key] == Direct(tag, r.entry.data)
    ensures r.handlerCalls <= 1
    ensures r.handlerCalls != 0 ==> MissContract(r.entry, r.handlerCalls, handler, s.next, r.after.next)
    ensures r.handlerCalls == 0 ==> r.after == s
    ensures forall j :: j in r.after.store && j !in s.store ==> j.Generated? || Some(j) == key
    decreases Rank(key, s.next)
  {
    var minted := GenerateNewKey(s.next);
    var originalKey := if IsNullOrWhiteSpace(key) then minted.0 else key.value;
    var s1 := if IsNullOrWhiteSpace(key) then s.(next := minted.1) else s;
    var cacheItem := ObjectStore.Get(s1.store, originalKey);
    if IsMiss(cacheItem, tag) then
      var s2 := s1.(locks := s1.locks + {originalKey});
      var added := AddSpec(s2, tag, handler);
      var s3 := added.after;
      var store' := ObjectStore.Add(s3.store, originalKey, Redirect(tag, added.key));
      GetStep(s3.(store := store', locks := s3.locks - {originalKey}), CacheEntry(added.key, handler), 1)
    else
      match cacheItem.value
      case Direct(_, data) => GetStep(s1, CacheEntry(originalKey, data), 0)
      case Redirect(_, target) => GetSpec(s1, Some(target), tag, handler)
  }

  /**
   * Remove: the key leaves both the store and the registry; nothing else
   * changes. A null key makes ObjectCache.Remove throw before the registry
   * is touched; the catch swallows it and nothing changes.
   */
  function RemoveSpec<V>(s: State<V>, key: Option<Key>): (r: State<V>)
    ensures key.Some? ==> r.store == s.store - {key.value} && r.locks == s.locks - {key.value}
    ensures key.None? ==> r == s
    ensures r.next == s.next
    ensures ValidState(s) ==> ValidState(r)
  {
    match key
    case None => s
    case Some(k) => s.(store := ObjectStore.Remove(s.store, k), locks := s.locks - {k})
  }

  /** The object store dropping an entry on its own (memory pressure, expiry); the registry is not told. */
  function EvictSpec<V>(s: State<V>, k: Key): (r: State<V>)
    ensures r.store == s.store - {k} && r.locks == s.locks && r.next == s.next
    ensures ValidState(s) ==> ValidState(r)
  {
    s.(store := ObjectStore.Remove(s.store, k))
  }

  class LockingKeyGeneratingCache<V> {

    var store: map<Key, Box<V>>
    var locks: set<Key>
    var next: nat

    function Abstract(): State<V>
      reads this
    {
      State(store, locks, next)
    }

    ghost predicate Valid()
      reads this
    {
      ValidState(Abstract())
    }

    /** A cache over a new, empty object store, with an empty lock registry. */
    constructor ()
      ensures Valid() && Abstract() == State(map[], {}, 0)
    {
      store := map[];
      locks := {};
      next := 0;
    }

    method GenerateNewKey() returns (key: Key)
      requires Valid()
      modifies this
      ensures Valid()
      ensures (key, next) == Keys.GenerateNewKey(old(next))
      ensures store == old(store) && locks == old(locks)
    {
      key := Generated(next);
      next := next + 1;
    }

    method Add(tag: TypeTag, data: V) returns (key: Key)
      requires Valid()
      modifies this
      ensures Valid()
      ensures AddSpec(old(Abstract()), tag, data) == Added(Abstract(), key)
    {
      key := GenerateNewKey();
      var dataBox := Direct(tag, data);
      store := ObjectStore.Add(store, key, dataBox);
      locks := locks + {key};
    }

    method Get(key: Option<Key>, tag: TypeTag, handler: V) returns (entry: CacheEntry<V>, handlerCalls: nat)
      requires Valid() && CallerKey(key, next)
      modifies this
      ensures Valid()
      ensures GetSpec(old(Abstract()), key, tag, handler) == GetStep(Abstract(), entry, handlerCalls)
      decreases Rank(key, next)
    {
      var originalKey: Key;
      if IsNullOrWhiteSpace(key) {
        originalKey := GenerateNewKey();
      } else {
        originalKey := key.value;
      }
      var newKey := originalKey;
      var cacheItem := ObjectStore.Get(store, originalKey);
      handlerCalls := 0;
      if IsMiss(cacheItem, tag) {
        // no lock object for this key yet: create one
        if originalKey !in locks {
          locks := locks + {originalKey};
        }
        // the double check, under the key's lock
        cacheItem := ObjectStore.Get(store, originalKey);
        if IsMiss(cacheItem, tag) {
          var dataFromSource := handler;
          handlerCalls := handlerCalls + 1;
          newKey := Add(tag, dataFromSource);
          cacheItem := Some(Direct(tag, dataFromSource));
          var redirect := Redirect(tag, newKey);
          store := ObjectStore.Add(store, originalKey, redirect);
          locks := locks - {originalKey};
        }
      }
      var dataBox := cacheItem.value;
      if dataBox.Redirect? {
        entry, handlerCalls := Get(Some(dataBox.target), tag, handler);
        return;
      }
      entry := CacheEntry(newKey, dataBox.data);
    }

    method Remove(key: Option<Key>)
      modifies this
      ensures Abstract() == RemoveSpec(old(Abstract()), key)
    {
      if key.Some? {
        store := ObjectStore.Remove(store, key.value);
        locks := locks - {key.value};
      }
    }

    /** The object store evicting k of its own accord. */
    method Evict(k: Key)
      modifies this
      ensures Abstract() == EvictSpec(old(Abstract()), k)
    {
      store := ObjectStore.Remove(store, k);
    }
  }
}
