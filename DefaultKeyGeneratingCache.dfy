/**
 * DefaultKeyGeneratingCache: follows the API but caches nothing. Every Get
 * runs the miss handler and hands out a new key. The only state is the
 * fresh-key supply, threaded through as its counter `next`.
 */
module DefaultCache {

  import opened Wrappers
  import opened Keys
  import opened Api

  /** The result of Get: the entry, how many times the miss handler ran, and the supply's new counter. */
  datatype Fetched<T> = Fetched(entry: CacheEntry<T>, handlerCalls: nat, next: nat)

  /** Add keeps nothing; it only returns a new key (and the supply's counter after it). */
  function Add<T>(data: T, next: nat): (r: (Key, nat))
    ensures AddContract(r.0, next, r.1)
  {
    GenerateNewKey(next)
  }

  /**
   * Get ignores the key, runs the handler and "adds" its result, so the
   * handler's result comes back under a new key, whatever key was given.
   */
  function Get<T>(key: Option<Key>, handler: T, next: nat): (r: Fetched<T>)
    ensures MissContract(r.entry, r.handlerCalls, handler, next, r.next)
    ensures CallerKey(key, next) ==> key != Some(r.entry.key)
  {
    var dataFromSource := handler;
    var (newKey, next') := Add(dataFromSource, next);
    Fetched(CacheEntry(newKey, dataFromSource), 1, next')
  }

  /** Remove does nothing, for every key including null; the supply is untouched. */
  function Remove(key: Option<Key>, next: nat): (r: nat)
    ensures r == next
  {
    next
  }

  /**
   * A null, empty or blank key gives the same outcome as any other key:
   * the passthrough never looks at it.
   */
  lemma GetIgnoresKey<T>(key1: Option<Key>, key2: Option<Key>, handler: T, next: nat)
    ensures Get(key1, handler, next) == Get(key2, handler, next)
  {
  }
}
