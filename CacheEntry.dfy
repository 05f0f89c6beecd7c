/**
 * The public API shared by every cache: the CacheEntry record that Get
 * returns, the type tags standing for the generic parameter T, and the
 * promises of the IKeyGeneratingCache interface written as predicates that
 * each variant's contracts use.
 */
module Api {

  import opened Wrappers
  import opened Keys

  /** CacheEntry<T>: the key to use next time, and the data retrieved. */
  datatype CacheEntry<T> = CacheEntry(key: Key, data: T)

  /** The runtime type T of a call Add<T> or Get<T>, by name. */
  type TypeTag = string

  /**
   * What Add promises: the returned key is non-blank, and it did not exist
   * when the supply's counter stood at `before`.
   */
  predicate AddContract(k: Key, before: nat, after: nat) {
    !IsNullOrWhiteSpace(Some(k)) && !Known(k, before) && Known(k, after)
  }

  /**
   * What a Get that misses promises: the miss handler ran exactly once, its result is
   * the data returned, and the key returned is a freshly added one.
   */
  ghost predicate MissContract<T>(entry: CacheEntry<T>, handlerCalls: nat, handler: T, before: nat, after: nat) {
    handlerCalls == 1 && entry.data == handler && AddContract(entry.key, before, after)
  }

  /** A fresh key differs from any key the caller could have supplied. */
  lemma FreshKeyIsNew(k: Key, key: Option<Key>, before: nat, after: nat)
    requires AddContract(k, before, after) && CallerKey(key, before)
    ensures key != Some(k)
  {
  }
}
