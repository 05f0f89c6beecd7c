/**
 * NotImplementedKeyGeneratingCache: the same passthrough as
 * DefaultKeyGeneratingCache, member for member, so each operation is the
 * Default one.
 */
module NotImplementedCache {

  import opened Wrappers
  import opened Keys
  import opened Api
  import DefaultCache

  /** Add keeps nothing; it only returns a new key. */
  function Add<T>(data: T, next: nat): (r: (Key, nat))
    ensures AddContract(r.0, next, r.1)
  {
    DefaultCache.Add(data, next)
  }

  /** Get always runs the handler and returns its result under a new key. */
  function Get<T>(key: Option<Key>, handler: T, next: nat): (r: DefaultCache.Fetched<T>)
    ensures MissContract(r.entry, r.handlerCalls, handler, next, r.next)
    ensures CallerKey(key, next) ==> key != Some(r.entry.key)
  {
    DefaultCache.Get(key, handler, next)
  }

  /** Remove does nothing and never fails. */
  function Remove(key: Option<Key>, next: nat): (r: nat)
    ensures r == next
  {
    DefaultCache.Remove(key, next)
  }
}
