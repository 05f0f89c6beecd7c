# KeyGeneratingCaches in Dafny

A model of the key-rotating caches of KeyGeneratingCaches. Each cache stores
data under keys it generates itself. `Add` returns a new key. `Get` takes a
key and a miss handler. On a hit it returns the stored data under the key
supplied. On a miss it runs the handler, adds the result under a brand-new
key and returns that key. `Remove` is a best-effort hint that never fails.

The four implementations, one module each:

- `Locking` (LockingKeyGeneratingCache): the stampede-safe cache, run on one
  thread. State is an object store of boxes, a lock registry and a fresh-key
  supply. A box is either the data or a redirect. On a miss the handler's
  result is added under a new key, a redirect to that key is inserted at the
  key that missed, and that key's lock is dropped. A `Get` that finds a
  redirect of its type follows it. `LockingProperties` proves the
  properties: hits, misses, blank keys, redirects serving later `Get`s,
  `Add` then `Get`, `Remove`, acyclic redirect chains, and the lock
  registry's relation to the store.
- `NonLocking` (NonLockingKeyGeneratingCache): the same fast path, with no
  redirects and no registry. `Refinement` proves it equals `Locking` with
  redirects and registry projected away. The one exception is a key that
  holds a redirect of the requested type.
- `DefaultCache` and `NotImplementedCache`: stateless passthroughs. `Get`
  always runs the handler and returns a new key.
- `Api`: `CacheEntry`, plus the interface's promises (`AddContract`,
  `MissContract`) that every variant's contracts are stated in. `Keys`
  holds keys, `String.IsNullOrWhiteSpace` and the fresh-key supply.
  `ObjectStore` holds the three `ObjectCache` operations the caches use.
  `ObjectCache.Add` inserts only when the key is absent.
- `ApiTester`: the nine conformance checks of `ApiTester.PassesAllApiTests`,
  run in order on a new instance of each of the four caches. Each one is
  proved to pass.

Stateful caches come in two layers. The functions over a `State` datatype
(`AddSpec`, `GetSpec`, `RemoveSpec`) say what each operation does. The
class (`LockingKeyGeneratingCache`, `NonLockingKeyGeneratingCache`) updates
its fields step by step as the C# code does. Each method is proved equal to
its function.

Keys are `Generated(serial)` (the serial-th GUID from the cache's supply) or
`Given(text)` (a string a caller made up). A null key is `None`. Keeping the
two kinds apart encodes the assumption the code makes of `Guid.NewGuid`: a
made-up string never equals a generated GUID.

Three behaviours of the code are easy to miss when reading it, and the model
states each one:

- A hit does not rotate the key. `Get` returns the supplied key (lines
  98 and 200 of LockingKeyGeneratingCache.cs). Only `Add` and a miss produce
  a new key, as the interface's documentation says (IKeyGeneratingCache.cs,
  lines 5-9).
- The redirect write uses `ObjectCache.Add`, which never replaces an entry.
  So a key that holds a box of another type keeps that box, but still loses
  its lock. The registry therefore does not cover every direct box
  (`WrongTypeMissDropsLiveLock`). No redirect is written there either, so
  every later `Get` of the requested type on that key misses again and runs
  the handler again (`WrongTypeKeyMissesAgain`). The reuse of a redirect that
  `RedirectServesLaterGets` proves holds only for keys that were absent.
- Redirects can point at keys that themselves hold redirects. This happens
  once a redirect target is removed and asked for again
  (`RedirectsCanChain`). Chains never cycle (`NoRedirectCycle`).

## Model

| member | source | states |
|---|---|---|
| Keys.IsNullOrWhiteSpace | KeyGeneratingCaches/Implementations/NonLockingKeyGeneratingCache.cs:53 | String.IsNullOrWhiteSpace over the Char.IsWhiteSpace code points: a null key and the empty key are blank; a generated GUID key never is |
| Keys.IsWhiteSpace | KeyGeneratingCaches/Implementations/LockingKeyGeneratingCache.cs:92 | Char.IsWhiteSpace: space, tab, line feed and carriage return are whitespace; the digits, letters and hyphen a GUID string is made of are not |
| Keys.GenerateNewKey | KeyGeneratingCaches/Implementations/LockingKeyGeneratingCache.cs:223-226 | a new key is non-blank, did not exist before the call and differs from every key that did |
| Api.FreshKeyIsNew | KeyGeneratingCaches.Api.Verification/ApiTester.cs:88-97 | a freshly added key differs from any key a caller could have supplied |
| ObjectStore.Get | KeyGeneratingCaches/Implementations/LockingKeyGeneratingCache.cs:101 | the lookup finds a box exactly when the key is stored, and returns the stored box |
| ObjectStore.Add | KeyGeneratingCaches/Implementations/LockingKeyGeneratingCache.cs:176 | insert-if-absent: the key is present afterwards, an existing entry is kept, no other entry changes |
| ObjectStore.Remove | KeyGeneratingCaches/Implementations/LockingKeyGeneratingCache.cs:212 | the key is gone and no other entry changes |
| DefaultCache.Add | KeyGeneratingCaches/Implementations/DefaultKeyGeneratingCache.cs:21-26 | returns a fresh non-blank key; nothing is retained |
| DefaultCache.Get | KeyGeneratingCaches/Implementations/DefaultKeyGeneratingCache.cs:28-43 | runs the handler exactly once on every call, returns its result as the data under a fresh non-blank key that differs from the supplied key |
| DefaultCache.Remove | KeyGeneratingCaches/Implementations/DefaultKeyGeneratingCache.cs:45-48 | a no-op for every key, null included |
| DefaultCache.GetIgnoresKey | KeyGeneratingCaches/Implementations/DefaultKeyGeneratingCache.cs:28-43 | null, empty and any other keys give the same outcome |
| NotImplementedCache.Add | KeyGeneratingCaches/Implementations/NotImplementedKeyGeneratingCache.cs:12-17 | returns a fresh non-blank key; nothing is retained |
| NotImplementedCache.Get | KeyGeneratingCaches/Implementations/NotImplementedKeyGeneratingCache.cs:19-34 | runs the handler exactly once on every call, returns its result under a fresh key different from the supplied key |
| NotImplementedCache.Remove | KeyGeneratingCaches/Implementations/NotImplementedKeyGeneratingCache.cs:36-39 | a no-op that never fails |
| NonLocking.IsMiss | KeyGeneratingCaches/Implementations/NonLockingKeyGeneratingCache.cs:63-64 | the `is DataBox<T>` test as a tag test: a miss is an absent key, or a box whose tag is not the requested type |
| NonLocking.AddSpec | KeyGeneratingCaches/Implementations/NonLockingKeyGeneratingCache.cs:35-48 | the key is fresh, non-blank and was not in the store; the store gains exactly that boxed entry |
| NonLocking.GetSpec | KeyGeneratingCaches/Implementations/NonLockingKeyGeneratingCache.cs:50-85 | the returned key is a generated, non-blank key that now holds the returned data; the handler runs at most once; a miss runs it exactly once, returns its result under a fresh key and only adds that entry; a hit changes nothing |
| NonLocking.RemoveSpec | KeyGeneratingCaches/Implementations/NonLockingKeyGeneratingCache.cs:87-99 | removes exactly the key from the store; a null key changes nothing |
| NonLocking.NonLockingKeyGeneratingCache.constructor | KeyGeneratingCaches/Implementations/NonLockingKeyGeneratingCache.cs:23-26 | an empty store and a fresh supply |
| NonLocking.NonLockingKeyGeneratingCache.GenerateNewKey | KeyGeneratingCaches/Implementations/NonLockingKeyGeneratingCache.cs:103-106 | takes the next key from the supply and leaves the store alone |
| NonLocking.NonLockingKeyGeneratingCache.Add | KeyGeneratingCaches/Implementations/NonLockingKeyGeneratingCache.cs:35-48 | the new state and key are those of AddSpec, and the invariant is kept |
| NonLocking.NonLockingKeyGeneratingCache.Get | KeyGeneratingCaches/Implementations/NonLockingKeyGeneratingCache.cs:50-85 | the new state, entry and handler call count are those of GetSpec, and the invariant is kept |
| NonLocking.NonLockingKeyGeneratingCache.Remove | KeyGeneratingCaches/Implementations/NonLockingKeyGeneratingCache.cs:87-99 | the new state is that of RemoveSpec |
| NonLocking.BlankKeyMisses | KeyGeneratingCaches/Implementations/NonLockingKeyGeneratingCache.cs:52-56 | a null, empty or whitespace key always misses: the handler runs once and its result comes back under a fresh key |
| NonLocking.GetHit | KeyGeneratingCaches/Implementations/NonLockingKeyGeneratingCache.cs:59-84 | a box of the requested type is returned with the supplied key, without the handler and without any change |
| NonLocking.GetMiss | KeyGeneratingCaches/Implementations/NonLockingKeyGeneratingCache.cs:63-77 | an absent or other-typed key: the handler runs exactly once, its result is returned under a fresh key different from the supplied one, and the entry at the supplied key is untouched |
| NonLocking.AddThenGet | KeyGeneratingCaches/Implementations/NonLockingKeyGeneratingCache.cs:35-84 | Get(Add(d), h) returns d under the added key and does not run h |
| Locking.IsMiss | KeyGeneratingCaches/Implementations/LockingKeyGeneratingCache.cs:106-107 | the `is DataBox<T>` test as a tag test: a miss is an absent key, or a box (direct or redirect) whose tag is not the requested type |
| Locking.AddSpec | KeyGeneratingCaches/Implementations/LockingKeyGeneratingCache.cs:64-85 | the key is fresh and non-blank, and was in neither store nor registry; the store gains exactly a direct box under it, the registry exactly that key |
| Locking.GetSpec | KeyGeneratingCaches/Implementations/LockingKeyGeneratingCache.cs:87-201 | terminates; keeps the invariant; the returned key is a generated key that now holds the returned data directly; the handler runs at most once; only a miss changes the state, and it runs the handler exactly once and returns its result under a fresh key; new store keys are generated keys or the supplied key |
| Locking.RemoveSpec | KeyGeneratingCaches/Implementations/LockingKeyGeneratingCache.cs:203-219 | removes exactly the key from store and registry and keeps the invariant; a null key changes nothing |
| Locking.EvictSpec | KeyGeneratingCaches/Implementations/LockingKeyGeneratingCache.cs:17-18 | the store drops one entry on its own; registry and supply unchanged; the invariant is kept |
| Locking.LockingKeyGeneratingCache.constructor | KeyGeneratingCaches/Implementations/LockingKeyGeneratingCache.cs:47-50 | an empty store, an empty registry and a fresh supply |
| Locking.LockingKeyGeneratingCache.GenerateNewKey | KeyGeneratingCaches/Implementations/LockingKeyGeneratingCache.cs:223-226 | takes the next key from the supply; store and registry unchanged |
| Locking.LockingKeyGeneratingCache.Add | KeyGeneratingCaches/Implementations/LockingKeyGeneratingCache.cs:64-85 | the new state and key are those of AddSpec, and the invariant is kept |
| Locking.LockingKeyGeneratingCache.Get | KeyGeneratingCaches/Implementations/LockingKeyGeneratingCache.cs:87-201 | the new state, entry and handler call count are those of GetSpec, and the invariant is kept |
| Locking.LockingKeyGeneratingCache.Remove | KeyGeneratingCaches/Implementations/LockingKeyGeneratingCache.cs:203-219 | the new state is that of RemoveSpec |
| Locking.LockingKeyGeneratingCache.Evict | KeyGeneratingCaches/Implementations/LockingKeyGeneratingCache.cs:17-18 | the new state is that of EvictSpec |
| LockingProperties.BlankKeyIsUnknownKey | KeyGeneratingCaches/Implementations/LockingKeyGeneratingCache.cs:89-95 | a null, empty or whitespace key behaves exactly like a just-minted, unstored key, so it always misses and runs the handler |
| LockingProperties.GetHit | KeyGeneratingCaches/Implementations/LockingKeyGeneratingCache.cs:98-107 | a direct box of the requested type is returned with the supplied key, without the handler and without any change |
| LockingProperties.GetFollowsRedirect | KeyGeneratingCaches/Implementations/LockingKeyGeneratingCache.cs:193-198 | a redirect of the requested type gives exactly the result of a Get on its target |
| LockingProperties.GetMiss | KeyGeneratingCaches/Implementations/LockingKeyGeneratingCache.cs:145-186 | an absent or other-typed key: the handler runs once; its result is stored under a fresh key, which is returned and registered; a redirect to it is written at the supplied key only if that key was absent; the supplied key loses its lock; no other entry changes |
| LockingProperties.RedirectServesLaterGets | KeyGeneratingCaches/Implementations/LockingKeyGeneratingCache.cs:168-198 | after a miss on an absent key, a later Get on that key returns the same key and data, without the handler and without any change |
| LockingProperties.AddThenGet | KeyGeneratingCaches/Implementations/LockingKeyGeneratingCache.cs:64-107 | Get(Add(d), h) returns d under the added key and does not run h |
| LockingProperties.RemoveKeepsOthers | KeyGeneratingCaches/Implementations/LockingKeyGeneratingCache.cs:203-219 | Remove leaves every other key's store entry and registry membership untouched |
| LockingProperties.PathClimbs | KeyGeneratingCaches/Implementations/LockingKeyGeneratingCache.cs:171-176 | along any chain of redirects the end key was minted after the start key |
| LockingProperties.NoRedirectCycle | KeyGeneratingCaches/Implementations/LockingKeyGeneratingCache.cs:194-198 | no chain of redirects leads from a key back to itself |
| LockingProperties.AddKeepsRegistryInStore | KeyGeneratingCaches/Implementations/LockingKeyGeneratingCache.cs:74-78 | Add keeps "every registered key holds a direct box" |
| LockingProperties.GetKeepsRegistryInStore | KeyGeneratingCaches/Implementations/LockingKeyGeneratingCache.cs:131-185 | Get keeps "every registered key holds a direct box" |
| LockingProperties.RemoveKeepsRegistryInStore | KeyGeneratingCaches/Implementations/LockingKeyGeneratingCache.cs:212-214 | Remove keeps "every registered key holds a direct box" |
| LockingProperties.WrongTypeMissDropsLiveLock | KeyGeneratingCaches/Implementations/LockingKeyGeneratingCache.cs:176-185 | a miss on a key holding a direct box of another type keeps that box but drops the key's lock |
| LockingProperties.WrongTypeKeyMissesAgain | KeyGeneratingCaches/Implementations/LockingKeyGeneratingCache.cs:151-185 | a key holding another type's direct box keeps it after a miss, so the next Get of the requested type on it misses again and runs the handler once more |
| LockingProperties.RedirectsCanChain | KeyGeneratingCaches/Implementations/LockingKeyGeneratingCache.cs:171-197 | after a redirect's target is removed and missed on, the target holds a redirect too, and a Get on the first key follows both hops to the newest data without the handler |
| Refinement.AddRefines | KeyGeneratingCaches/Implementations/NonLockingKeyGeneratingCache.cs:35-48 | the non-locking Add on the projected state gives the same key and the projection of the locking Add's state |
| Refinement.MissRefines | KeyGeneratingCaches/Implementations/NonLockingKeyGeneratingCache.cs:63-77 | a locking miss and the non-locking miss on the projected state give the same entry, the same handler run and projected-equal states |
| Refinement.GetRefines | KeyGeneratingCaches/Implementations/NonLockingKeyGeneratingCache.cs:50-85 | unless the key holds a redirect of the requested type, both caches' Get give the same entry, the same handler run and projected-equal states |
| Refinement.RemoveRefines | KeyGeneratingCaches/Implementations/NonLockingKeyGeneratingCache.cs:87-99 | Remove commutes with the projection |
| ApiTester.LockingGetUnknown | KeyGeneratingCaches.Api.Verification/ApiTester.cs:50-61 | Get on a made-up key the locking cache never stored runs the handler once and returns its result under a new non-blank key |
| ApiTester.LockingGet | KeyGeneratingCaches.Api.Verification/ApiTester.cs:63-86 | Get on the locking cache returns a non-blank key whatever key is supplied |
| ApiTester.LockingFirstChecks | KeyGeneratingCaches.Api.Verification/ApiTester.cs:26-30 | the first five checks pass on a valid locking cache holding no made-up keys |
| ApiTester.LockingPassesAllApiTests | KeyGeneratingCaches.Api.Verification/ApiTester.cs:24-35 | every conformance check passes on a new locking cache |
| ApiTester.NonLockingPassesAllApiTests | KeyGeneratingCaches.Api.Verification/ApiTester.cs:24-35 | every conformance check passes on a new non-locking cache |
| ApiTester.DefaultPassesAllApiTests | KeyGeneratingCaches.Api.Verification/ApiTester.cs:24-35 | all nine checks, in order, pass on DefaultKeyGeneratingCache, whatever the state of the key supply |
| ApiTester.NotImplementedPassesAllApiTests | KeyGeneratingCaches.Api.Verification/ApiTester.cs:24-35 | all nine checks, in order, pass on NotImplementedKeyGeneratingCache, whatever the state of the key supply |

## Left out

- Concurrency: `lock (_fallbackLock)`, `lock (lockObject)`, `Thread.MemoryBarrier` and the thread safety of `ConcurrentDictionary` are not modelled. The model runs one call at a time. So the re-check under the lock always sees what the first lookup saw, and the "another thread already resolved it" branch never fires. The claim that the handler runs once under N concurrent misses is not captured.
- Lock objects are reduced to registry membership. The registry and the fallback lock are `static` in the code, so all instances share them. Here each instance owns its registry.
- `MemoryCache` internals (eviction policy, memory limits, `CacheItemPolicy`) are abstracted to a map with insert-if-absent. `Evict` stands for the store dropping an entry on its own.
- The constructors that take an existing `ObjectCache` are not modelled. Only a cache over a new, empty store is.
- `Guid.NewGuid` is replaced by a counter. The global uniqueness of GUIDs is assumed through the `Generated`/`Given` split, not proved.
- Locking.GetSpec: requires that a generated key passed to `Get` was already issued by the supply. A redirect is written at the supplied key, and a guessed future GUID would clash with a later `Add`. The code assumes such a guess cannot happen. The same requires sits on `Locking.LockingKeyGeneratingCache.Get`.
- Runtime generics: `is DataBox<T>` and `as DataBox<T>` become an explicit type tag on each box. All payloads share one type parameter `V`.
- The miss handler is a supplied value plus a count of the times `Get` ran it. Its side effects are not modelled. Its failures, which propagate out of `Get`, are not modelled either.
- Exceptions in `Remove`: the only failure the model keeps is a null key. `ObjectCache.Remove` throws on it, the catch swallows the exception, and nothing changes.
- The NUnit fixtures, including the memory-profiling test, are not part of this model.
