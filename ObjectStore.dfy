/**
 * The part of System.Runtime.Caching.ObjectCache the caches use, on an
 * abstract map from key to stored box. Eviction and memory limits are not
 * modelled; Evict stands for the store dropping an entry on its own.
 */
module ObjectStore {

  import opened Wrappers
  import opened Keys

  /** ObjectCache.Get: the stored box, or null when the key is absent. */
  function Get<B>(store: map<Key, B>, k: Key): (r: Option<B>)
    ensures r.Some? <==> k in store
    ensures r.Some? ==> r.value == store[k]
  {
    if k in store then Some(store[k]) else None
  }

  /**
   * ObjectCache.Add(CacheItem, policy): inserts only when the key is
   * absent; an existing entry is kept as it is.
   */
  function Add<B>(store: map<Key, B>, k: Key, box: B): (r: map<Key, B>)
    ensures r.Keys == store.Keys + {k}
    ensures r[k] == if k in store then store[k] else box
    ensures forall j :: j in store && j != k ==> r[j] == store[j]
  {
    if k in store then store else store[k := box]
  }

  /** ObjectCache.Remove: the key is gone, nothing else changes. */
  function Remove<B>(store: map<Key, B>, k: Key): (r: map<Key, B>)
    ensures r.Keys == store.Keys - {k}
    ensures forall j :: j in r ==> r[j] == store[j]
  {
    store - {k}
  }
}
