/**
 * What LockingKeyGeneratingCache promises, proved about the functions of
 * module Locking: hits, misses, blank keys, following redirects, Add then
 * Get, and why chains of redirects never come back to where they started.
 */
module LockingProperties {

  import opened Wrappers
  import opened Keys
  import opened Api
  import ObjectStore
  import opened Locking

  /**
   * A null, empty or blank key is the same as asking for a key the supply
   * has just minted and nobody has used: it always misses.
   */
  lemma BlankKeyIsUnknownKey<V>(s: State<V>, key: Option<Key>, tag: TypeTag, handler: V)
    requires ValidState(s) && IsNullOrWhiteSpace(key)
    ensures var placeholder := Generated(s.next);
      && placeholder !in s.store
      && GetSpec(s, key, tag, handler) == GetSpec(s.(next := s.next + 1), Some(placeholder), tag, handler)
    ensures var r := GetSpec(s, key, tag, handler);
      MissContract(r.entry, r.handlerCalls, handler, s.next, r.after.next)
  {
    var placeholder := Generated(s.next);
    assert placeholder !in s.store;
  }

  /** A hit on a direct box of the requested type: same key, stored data, no handler, no change. */
  lemma GetHit<V>(s: State<V>, k: Key, tag: TypeTag, data: V, handler: V)
    requires ValidState(s) && CallerKey(Some(k), s.next) && !IsNullOrWhiteSpace(Some(k))
    requires k in s.store && s.store[k] == Direct(tag, data)
    ensures GetSpec(s, Some(k), tag, handler) == GetStep(s, CacheEntry(k, data), 0)
  {
  }

  /** A redirect of the requested type is followed to its target, with nothing changed on the way. */
  lemma GetFollowsRedirect<V>(s: State<V>, k: Key, tag: TypeTag, target: Key, handler: V)
    requires ValidState(s) && CallerKey(Some(k), s.next) && !IsNullOrWhiteSpace(Some(k))
    requires k in s.store && s.store[k] == Redirect(tag, target)
    ensures CallerKey(Some(target), s.next)
    ensures GetSpec(s, Some(k), tag, handler) == GetSpec(s, Some(target), tag, handler)
  {
  }

  /**
   * A miss on a non-blank key that is absent or holds a box of another
   * type: the handler runs once, its result is stored directly under a
   * fresh key, which is returned and registered; a redirect to it is written
   * at the supplied key only if that key was absent; the supplied key loses
   * its lock; no other entry of the store or the registry changes.
   */
  lemma GetMiss<V>(s: State<V>, k: Key, tag: TypeTag, handler: V)
    requires ValidState(s) && CallerKey(Some(k), s.next) && !IsNullOrWhiteSpace(Some(k))
    requires IsMiss(ObjectStore.Get(s.store, k), tag)
    ensures var r := GetSpec(s, Some(k), tag, handler);
      var k' := r.entry.key;
      && MissContract(r.entry, r.handlerCalls, handler, s.next, r.after.next)
      && k' != k && k' !in s.store && k' !in s.locks
      && r.after.store[k'] == Direct(tag, handler)
      && (k !in s.store ==> r.after.store[k] == Redirect(tag, k'))
      && (k in s.store ==> r.after.store[k] == s.store[k])
      && r.after.store.Keys == s.store.Keys + {k, k'}
      && (forall j :: j in s.store && j != k ==> r.after.store[j] == s.store[j])
      && r.after.locks == (s.locks - {k}) + {k'}
  {
    var r := GetSpec(s, Some(k), tag, handler);
    assert r.handlerCalls == 1;
    FreshKeyIsNew(r.entry.key, Some(k), s.next, r.after.next);
  }

  /**
   * After a miss on an absent key k, asking for k again (with any handler)
   * follows the redirect: the same fresh key and the same data come back,
   * the handler does not run and nothing changes, so every later Get on k
   * gives the same answer.
   */
  lemma RedirectServesLaterGets<V>(s: State<V>, k: Key, tag: TypeTag, handler: V, handler2: V)
    requires ValidState(s) && CallerKey(Some(k), s.next) && !IsNullOrWhiteSpace(Some(k))
    requires k !in s.store
    ensures var r := GetSpec(s, Some(k), tag, handler);
      CallerKey(Some(k), r.after.next)
      && GetSpec(r.after, Some(k), tag, handler2) == GetStep(r.after, r.entry, 0)
  {
    var r := GetSpec(s, Some(k), tag, handler);
    GetMiss(s, k, tag, handler);
    var s' := r.after;
    var k' := r.entry.key;
    GetFollowsRedirect(s', k, tag, k', handler2);
    GetHit(s', k', tag, handler, handler2);
  }

  /** Get(Add(d), h) returns d under the added key without running h. */
  lemma AddThenGet<V>(s: State<V>, tag: TypeTag, data: V, handler: V)
    requires ValidState(s)
    ensures var a := AddSpec(s, tag, data);
      GetSpec(a.after, Some(a.key), tag, handler) == GetStep(a.after, CacheEntry(a.key, data), 0)
  {
    var a := AddSpec(s, tag, data);
    GetHit(a.after, a.key, tag, data, handler);
  }

  /** Remove on any key, known or not, leaves every other key's store entry and lock alone. */
  lemma RemoveKeepsOthers<V>(s: State<V>, key: Option<Key>, j: Key)
    requires key != Some(j)
    ensures var r := RemoveSpec(s, key);
      (j in r.store <==> j in s.store) && (j in s.store ==> r.store[j] == s.store[j])
      && (j in r.locks <==> j in s.locks)
  {
  }

  /** There is a chain of n >= 1 redirects from k to t. */
  ghost predicate RedirectPath<V>(s: State<V>, k: Key, t: Key, n: nat)
    decreases n
  {
    && k in s.store && s.store[k].Redirect?
    && (if n <= 1 then n == 1 && s.store[k].target == t
        else RedirectPath(s, s.store[k].target, t, n - 1))
  }

  /** Along any chain of redirects the keys climb: the end is minted after the start. */
  lemma {:induction false} PathClimbs<V>(s: State<V>, k: Key, t: Key, n: nat)
    requires ValidState(s) && RedirectPath(s, k, t, n)
    ensures RedirectForward(k, t, s.next)
    decreases n
  {
    var mid := s.store[k].target;
    if n > 1 {
      PathClimbs(s, mid, t, n - 1);
    }
  }

  /** No chain of redirects leads from a key back to itself. */
  lemma NoRedirectCycle<V>(s: State<V>, k: Key, n: nat)
    requires ValidState(s)
    ensures !RedirectPath(s, k, k, n)
  {
    if RedirectPath(s, k, k, n) {
      PathClimbs(s, k, k, n);
    }
  }

  /**
   * Every key in the registry holds a direct box. Add, Get and Remove keep
   * this; eviction by the store does not.
   */
  ghost predicate RegistryInStore<V>(s: State<V>) {
    forall k :: k in s.locks ==> k in s.store && s.store[k].Direct?
  }

  lemma AddKeepsRegistryInStore<V>(s: State<V>, tag: TypeTag, data: V)
    requires ValidState(s) && RegistryInStore(s)
    ensures RegistryInStore(AddSpec(s, tag, data).after)
  {
  }

  lemma {:induction false} GetKeepsRegistryInStore<V>(s: State<V>, key: Option<Key>, tag: TypeTag, handler: V)
    requires ValidState(s) && CallerKey(key, s.next) && RegistryInStore(s)
    ensures RegistryInStore(GetSpec(s, key, tag, handler).after)
    decreases Rank(key, s.next)
  {
    if IsNullOrWhiteSpace(key) {
      BlankKeyIsUnknownKey(s, key, tag, handler);
      GetMiss(s.(next := s.next + 1), Generated(s.next), tag, handler);
    } else {
      var k := key.value;
      var cacheItem := ObjectStore.Get(s.store, k);
      if IsMiss(cacheItem, tag) {
        GetMiss(s, k, tag, handler);
      } else if cacheItem.value.Redirect? {
        var target := cacheItem.value.target;
        GetFollowsRedirect(s, k, tag, target, handler);
        GetKeepsRegistryInStore(s, Some(target), tag, handler);
      }
    }
  }

  lemma RemoveKeepsRegistryInStore<V>(s: State<V>, key: Option<Key>)
    requires RegistryInStore(s)
    ensures RegistryInStore(RemoveSpec(s, key))
  {
  }

  /**
   * The registry does not track every direct box: a miss for one type on a
   * key holding a direct box of another type drops that key's lock while
   * the box stays.
   */
  lemma WrongTypeMissDropsLiveLock()
    ensures var k := Generated(0);
      var s := State(map[k := Direct("Int32", 5)], {k}, 1);
      var r := GetSpec(s, Some(k), "String", 7);
      r.after.store[k] == Direct("Int32", 5) && k !in r.after.locks
  {
    var k := Generated(0);
    var s := State(map[k := Direct("Int32", 5)], {k}, 1);
    GetMiss(s, k, "String", 7);
  }

  /**
   * A key holding a direct box of another type keeps missing: the miss
   * leaves that box in place and writes no redirect, so the next Get of the
   * requested type on the key misses again and runs the handler once more.
   */
  lemma WrongTypeKeyMissesAgain<V>(s: State<V>, k: Key, other: TypeTag, data: V, tag: TypeTag, h1: V, h2: V)
    requires ValidState(s) && CallerKey(Some(k), s.next) && !IsNullOrWhiteSpace(Some(k))
    requires k in s.store && s.store[k] == Direct(other, data) && other != tag
    ensures var r1 := GetSpec(s, Some(k), tag, h1);
      CallerKey(Some(k), r1.after.next)
      && var r2 := GetSpec(r1.after, Some(k), tag, h2);
      r2.after.store[k] == Direct(other, data)
      && MissContract(r2.entry, r2.handlerCalls, h2, r1.after.next, r2.after.next)
  {
    var r1 := GetSpec(s, Some(k), tag, h1);
    GetMiss(s, k, tag, h1);
    assert r1.after.store[k] == Direct(other, data);
    GetMiss(r1.after, k, tag, h2);
  }

  /**
   * Redirects can chain: once the key a redirect points to is removed and
   * asked for again, that key holds a redirect itself, and a Get on the
   * first key follows both hops without running the handler.
   */
  lemma RedirectsCanChain<V>(s: State<V>, a: Key, tag: TypeTag, h1: V, h2: V, h3: V)
    requires ValidState(s) && CallerKey(Some(a), s.next) && !IsNullOrWhiteSpace(Some(a))
    requires a !in s.store
    ensures var r1 := GetSpec(s, Some(a), tag, h1);
      var s1 := RemoveSpec(r1.after, Some(r1.entry.key));
      CallerKey(Some(r1.entry.key), s1.next)
      && var r2 := GetSpec(s1, Some(r1.entry.key), tag, h2);
      CallerKey(Some(a), r2.after.next)
      && r2.after.store[a] == Redirect(tag, r1.entry.key)
      && r2.after.store[r1.entry.key] == Redirect(tag, r2.entry.key)
      && GetSpec(r2.after, Some(a), tag, h3) == GetStep(r2.after, CacheEntry(r2.entry.key, h2), 0)
  {
    var r1 := GetSpec(s, Some(a), tag, h1);
    GetMiss(s, a, tag, h1);
    var k1 := r1.entry.key;
    var s1 := RemoveSpec(r1.after, Some(k1));
    var r2 := GetSpec(s1, Some(k1), tag, h2);
    GetMiss(s1, k1, tag, h2);
    var k2 := r2.entry.key;
    GetFollowsRedirect(r2.after, a, tag, k1, h3);
    GetFollowsRedirect(r2.after, k1, tag, k2, h3);
    GetHit(r2.after, k2, tag, h2, h3);
  }
}
