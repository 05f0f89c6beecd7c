/**
 * NonLockingKeyGeneratingCache is LockingKeyGeneratingCache without
 * redirects and without the lock registry. Projecting a locking state onto
 * its direct boxes gives a non-locking state, and Add, Get and Remove
 * commute with that projection: both caches return the same entries, run
 * the handler in the same cases, and leave projected states equal. The one
 * exception is a Get on a key holding a redirect of the requested type,
 * which only the locking cache follows.
 */
module Refinement {

  import opened Wrappers
  import opened Keys
  import opened Api
  import ObjectStore
  import Locking
  import LockingProperties
  import NonLocking

  /** The direct boxes of a locking state, as a non-locking state with the same key supply. */
  function Project<V>(s: Locking.State<V>): (r: NonLocking.State<V>)
    ensures Locking.ValidState(s) ==> NonLocking.ValidState(r)
    ensures forall k :: k in r.store <==> k in s.store && s.store[k].Direct?
  {
    var store := map k | k in s.store && s.store[k].Direct? :: NonLocking.Box(s.store[k].tag, s.store[k].data);
    NonLocking.State(store, s.next)
  }

  /** The supplied key holds a redirect of the requested type, which only the locking cache follows. */
  predicate HoldsRedirect<V>(s: Locking.State<V>, key: Option<Key>, tag: TypeTag) {
    && !IsNullOrWhiteSpace(key)
    && key.value in s.store
    && s.store[key.value].Redirect?
    && s.store[key.value].tag == tag
  }

  lemma AddRefines<V>(s: Locking.State<V>, tag: TypeTag, data: V)
    requires Locking.ValidState(s)
    ensures var a := Locking.AddSpec(s, tag, data);
      NonLocking.AddSpec(Project(s), tag, data) == NonLocking.Added(Project(a.after), a.key)
  {
    var a := Locking.AddSpec(s, tag, data);
    var n := NonLocking.AddSpec(Project(s), tag, data);
    assert n.after.store == Project(a.after).store;
  }

  /**
   * What a locking miss does to the store, seen through the projection: one
   * direct box added at the fresh key k', since a redirect written at the
   * supplied key k is not projected and whatever else was at k stays.
   */
  lemma ProjectAfterMiss<V>(before: Locking.State<V>, after: Locking.State<V>, k: Key, k': Key, tag: TypeTag, handler: V)
    requires k' !in before.store && k' != k
    requires after.store.Keys == before.store.Keys + {k, k'}
    requires after.store[k'] == Locking.Direct(tag, handler)
    requires k in before.store ==> after.store[k] == before.store[k]
    requires k !in before.store ==> after.store[k].Redirect?
    requires forall j :: j in before.store && j != k ==> after.store[j] == before.store[j]
    ensures Project(after).store == Project(before).store[k' := NonLocking.Box(tag, handler)]
  {
  }

  /** A miss on a non-blank key in the locking cache is a miss in the non-locking one, with the same outcome. */
  lemma MissRefines<V>(s: Locking.State<V>, k: Key, tag: TypeTag, handler: V)
    requires Locking.ValidState(s) && CallerKey(Some(k), s.next) && !IsNullOrWhiteSpace(Some(k))
    requires Locking.IsMiss(ObjectStore.Get(s.store, k), tag)
    ensures var l := Locking.GetSpec(s, Some(k), tag, handler);
      var n := NonLocking.GetSpec(Project(s), Some(k), tag, handler);
      n.entry == l.entry && n.handlerCalls == l.handlerCalls && n.after == Project(l.after)
  {
    var l := Locking.GetSpec(s, Some(k), tag, handler);
    LockingProperties.GetMiss(s, k, tag, handler);
    ProjectAfterMiss(s, l.after, k, l.entry.key, tag, handler);
    var p := Project(s);
    assert NonLocking.IsMiss(ObjectStore.Get(p.store, k), tag);
    var n := NonLocking.GetSpec(p, Some(k), tag, handler);
    assert n.handlerCalls == 1;
  }

  lemma GetRefines<V>(s: Locking.State<V>, key: Option<Key>, tag: TypeTag, handler: V)
    requires Locking.ValidState(s) && CallerKey(key, s.next)
    requires !HoldsRedirect(s, key, tag)
    ensures var l := Locking.GetSpec(s, key, tag, handler);
      var n := NonLocking.GetSpec(Project(s), key, tag, handler);
      n.entry == l.entry && n.handlerCalls == l.handlerCalls && n.after == Project(l.after)
  {
    if IsNullOrWhiteSpace(key) {
      var placeholder := Generated(s.next);
      var s1 := s.(next := s.next + 1);
      LockingProperties.BlankKeyIsUnknownKey(s, key, tag, handler);
      NonLocking.BlankKeyMisses(Project(s), key, tag, handler);
      MissRefines(s1, placeholder, tag, handler);
      assert Project(s1) == Project(s).(next := s.next + 1);
    } else if Locking.IsMiss(ObjectStore.Get(s.store, key.value), tag) {
      MissRefines(s, key.value, tag, handler);
    }
  }

  lemma RemoveRefines<V>(s: Locking.State<V>, key: Option<Key>)
    ensures Project(Locking.RemoveSpec(s, key)) == NonLocking.RemoveSpec(Project(s), key)
  {
    assert Project(Locking.RemoveSpec(s, key)).store == NonLocking.RemoveSpec(Project(s), key).store;
  }
}
