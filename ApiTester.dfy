/**
 * The conformance checks of ApiTester.PassesAllApiTests, run in order on a
 * new instance of each cache. Each check's made-up key stands for a fresh
 * Guid.NewGuid() string that never went through the cache; the FileStyleUriParser
 * objects the checks store are stood for by ints.
 */
module ApiTester {

  import opened Wrappers
  import opened Keys
  import opened Api
  import Locking
  import LockingProperties
  import NonLocking
  import DefaultCache
  import NotImplementedCache

  const Parser: TypeTag := "FileStyleUriParser"

  /** The made-up keys present in a locking store are among `used`. */
  ghost predicate GivenKeysWithin<V>(s: Locking.State<V>, used: set<string>) {
    forall k :: k in s.store && k.Given? ==> k.text in used
  }

  /** Get on a made-up key the locking cache has never stored: a miss, whose redirect adds that key. */
  method LockingGetUnknown(cache: Locking.LockingKeyGeneratingCache<int>, key: Key, data: int, ghost used: set<string>)
    returns (entry: CacheEntry<int>, handlerCalls: nat)
    requires cache.Valid() && GivenKeysWithin(cache.Abstract(), used)
    requires key.Given? && key.text !in used && !IsNullOrWhiteSpace(Some(key))
    modifies cache
    ensures cache.Valid() && GivenKeysWithin(cache.Abstract(), used + {key.text})
    ensures handlerCalls == 1 && entry.data == data && entry.key != key && !IsNullOrWhiteSpace(Some(entry.key))
  {
    LockingProperties.GetMiss(cache.Abstract(), key, Parser, data);
    entry, handlerCalls := cache.Get(Some(key), Parser, data);
  }

  /** Any other Get leaves in the store only made-up keys that were there or were supplied. */
  method LockingGet(cache: Locking.LockingKeyGeneratingCache<int>, key: Option<Key>, data: int, ghost used: set<string>)
    returns (entry: CacheEntry<int>)
    requires cache.Valid() && GivenKeysWithin(cache.Abstract(), used) && CallerKey(key, cache.next)
    modifies cache
    ensures cache.Valid() && !IsNullOrWhiteSpace(Some(entry.key))
    ensures GivenKeysWithin(cache.Abstract(), if key.Some? && key.value.Given? then used + {key.value.text} else used)
  {
    var handlerCalls: nat;
    entry, handlerCalls := cache.Get(key, Parser, data);
  }

  /** The first five checks, on a locking cache holding no made-up keys. */
  method LockingFirstChecks(cache: Locking.LockingKeyGeneratingCache<int>) returns (ok: bool, ghost used: set<string>)
    requires cache.Valid() && GivenKeysWithin(cache.Abstract(), {})
    modifies cache
    ensures ok && cache.Valid() && GivenKeysWithin(cache.Abstract(), used)
    ensures used == {"missing-1", "missing-2", "missing-3"}
  {
    // AValidCacheKeyIsReturnedOnAdd
    var resultOfAdd := cache.Add(Parser, 0);
    var validKeyOnAdd := !IsNullOrWhiteSpace(Some(resultOfAdd));

    // TheCacheMissHandlerIsExecutedForANonExistentKey
    var missing1 := Given("missing-1");
    assert !IsWhiteSpace(missing1.text[0]);
    var _, handlerCalls := LockingGetUnknown(cache, missing1, 1, {});
    var handlerExecuted := handlerCalls > 0;

    // AValidCacheKeyIsReturnedFromGetForANonExistentKey
    var cacheMissResult := LockingGet(cache, Some(Given("missing-2")), 2, {"missing-1"});
    var validKeyOnMiss := !IsNullOrWhiteSpace(Some(cacheMissResult.key));

    // AValidCacheKeyIsReturnedFromGetForAGenuineKey
    used := {"missing-1", "missing-2"};
    var genuineKey := cache.Add(Parser, 3);
    var cachedData := LockingGet(cache, Some(genuineKey), 4, used);
    var validKeyOnHit := !IsNullOrWhiteSpace(Some(cachedData.key));

    // ANewCacheKeyIsReturnedForACacheMiss
    var missing3 := Given("missing-3");
    assert !IsWhiteSpace(missing3.text[0]);
    var newKeyResult, _ := LockingGetUnknown(cache, missing3, 5, used);
    var newKeyOnMiss := newKeyResult.key != missing3;
    used := used + {"missing-3"};

    ok := validKeyOnAdd && handlerExecuted && validKeyOnMiss && validKeyOnHit && newKeyOnMiss;
  }

  method LockingPassesAllApiTests() returns (ok: bool)
    ensures ok
  {
    var cache := new Locking.LockingKeyGeneratingCache<int>();
    assert GivenKeysWithin(cache.Abstract(), {});
    var firstChecksPass, used := LockingFirstChecks(cache);

    // RemoveDoesNotThrowAnyExceptions: Remove is total
    cache.Remove(Some(Given("made-up")));

    // TheExpectedDataIsReturnedFromGetForANonExistentKey
    var missing4 := Given("missing-4");
    assert !IsWhiteSpace(missing4.text[0]);
    var expectedData := 6;
    var getResult, _ := LockingGetUnknown(cache, missing4, expectedData, used);
    var expectedDataReturned := getResult.data == expectedData;
    used := used + {"missing-4"};

    // NullKeySuppliedToGetDoesNotResultInExceptions, EmptyKeySuppliedToGetDoesNotResultInExceptions:
    // Get is total on null and empty keys
    var _ := LockingGet(cache, None, 7, used);
    var _ := LockingGet(cache, Some(Given("")), 8, used);

    ok := firstChecksPass && expectedDataReturned;
  }

  method NonLockingPassesAllApiTests() returns (ok: bool)
    ensures ok
  {
    var cache := new NonLocking.NonLockingKeyGeneratingCache<int>();

    // AValidCacheKeyIsReturnedOnAdd
    var resultOfAdd := cache.Add(Parser, 0);
    var validKeyOnAdd := !IsNullOrWhiteSpace(Some(resultOfAdd));

    // TheCacheMissHandlerIsExecutedForANonExistentKey
    var missing1 := Given("missing-1");
    NonLocking.GetMiss(cache.Abstract(), missing1, Parser, 1);
    var _, handlerCalls := cache.Get(Some(missing1), Parser, 1);
    var handlerExecuted := handlerCalls > 0;

    // AValidCacheKeyIsReturnedFromGetForANonExistentKey
    var cacheMissResult, _ := cache.Get(Some(Given("missing-2")), Parser, 2);
    var validKeyOnMiss := !IsNullOrWhiteSpace(Some(cacheMissResult.key));

    // AValidCacheKeyIsReturnedFromGetForAGenuineKey
    var genuineKey := cache.Add(Parser, 3);
    var cachedData, _ := cache.Get(Some(genuineKey), Parser, 4);
    var validKeyOnHit := !IsNullOrWhiteSpace(Some(cachedData.key));

    // ANewCacheKeyIsReturnedForACacheMiss
    var missing3 := Given("missing-3");
    var newKeyResult, _ := cache.Get(Some(missing3), Parser, 5);
    var newKeyOnMiss := newKeyResult.key != missing3;

    // RemoveDoesNotThrowAnyExceptions: Remove is total
    cache.Remove(Some(Given("made-up")));

    // TheExpectedDataIsReturnedFromGetForANonExistentKey
    var missing4 := Given("missing-4");
    var expectedData := 6;
    NonLocking.GetMiss(cache.Abstract(), missing4, Parser, expectedData);
    var getResult, _ := cache.Get(Some(missing4), Parser, expectedData);
    var expectedDataReturned := getResult.data == expectedData;

    // Null and empty keys: Get is total on them
    var _, _ := cache.Get(None, Parser, 7);
    var _, _ := cache.Get(Some(Given("")), Parser, 8);

    ok := validKeyOnAdd && handlerExecuted && validKeyOnMiss && validKeyOnHit
          && newKeyOnMiss && expectedDataReturned;
  }

  /** The nine checks in order on DefaultKeyGeneratingCache, whatever the state of its key supply. */
  method DefaultPassesAllApiTests(next: nat) returns (ok: bool)
    ensures ok
  {
    // AValidCacheKeyIsReturnedOnAdd
    var (resultOfAdd, n1) := DefaultCache.Add(0, next);
    var validKeyOnAdd := !IsNullOrWhiteSpace(Some(resultOfAdd));

    // TheCacheMissHandlerIsExecutedForANonExistentKey
    var r1 := DefaultCache.Get(Some(Given("missing-1")), 1, n1);
    var handlerExecuted := r1.handlerCalls > 0;

    // AValidCacheKeyIsReturnedFromGetForANonExistentKey
    var cacheMissResult := DefaultCache.Get(Some(Given("missing-2")), 2, r1.next);
    var validKeyOnMiss := !IsNullOrWhiteSpace(Some(cacheMissResult.entry.key));

    // AValidCacheKeyIsReturnedFromGetForAGenuineKey
    var (genuineKey, n2) := DefaultCache.Add(3, cacheMissResult.next);
    var cachedData := DefaultCache.Get(Some(genuineKey), 4, n2);
    var validKeyOnHit := !IsNullOrWhiteSpace(Some(cachedData.entry.key));

    // ANewCacheKeyIsReturnedForACacheMiss
    var missing3 := Given("missing-3");
    var newKeyResult := DefaultCache.Get(Some(missing3), 5, cachedData.next);
    var newKeyOnMiss := newKeyResult.entry.key != missing3;

    // RemoveDoesNotThrowAnyExceptions: Remove is total
    var n3 := DefaultCache.Remove(Some(Given("made-up")), newKeyResult.next);

    // TheExpectedDataIsReturnedFromGetForANonExistentKey
    var expectedData := 6;
    var getResult := DefaultCache.Get(Some(Given("missing-4")), expectedData, n3);
    var expectedDataReturned := getResult.entry.data == expectedData;

    // NullKeySuppliedToGetDoesNotResultInExceptions, EmptyKeySuppliedToGetDoesNotResultInExceptions:
    // Get is total on null and empty keys
    var nullKeyResult := DefaultCache.Get(None, 7, getResult.next);
    var _ := DefaultCache.Get(Some(Given("")), 8, nullKeyResult.next);

    ok := validKeyOnAdd && handlerExecuted && validKeyOnMiss && validKeyOnHit
          && newKeyOnMiss && expectedDataReturned;
  }

  /** The nine checks in order on NotImplementedKeyGeneratingCache, whatever the state of its key supply. */
  method NotImplementedPassesAllApiTests(next: nat) returns (ok: bool)
    ensures ok
  {
    // AValidCacheKeyIsReturnedOnAdd
    var (resultOfAdd, n1) := NotImplementedCache.Add(0, next);
    var validKeyOnAdd := !IsNullOrWhiteSpace(Some(resultOfAdd));

    // TheCacheMissHandlerIsExecutedForANonExistentKey
    var r1 := NotImplementedCache.Get(Some(Given("missing-1")), 1, n1);
    var handlerExecuted := r1.handlerCalls > 0;

    // AValidCacheKeyIsReturnedFromGetForANonExistentKey
    var cacheMissResult := NotImplementedCache.Get(Some(Given("missing-2")), 2, r1.next);
    var validKeyOnMiss := !IsNullOrWhiteSpace(Some(cacheMissResult.entry.key));

    // AValidCacheKeyIsReturnedFromGetForAGenuineKey
    var (genuineKey, n2) := NotImplementedCache.Add(3, cacheMissResult.next);
    var cachedData := NotImplementedCache.Get(Some(genuineKey), 4, n2);
    var validKeyOnHit := !IsNullOrWhiteSpace(Some(cachedData.entry.key));

    // ANewCacheKeyIsReturnedForACacheMiss
    var missing3 := Given("missing-3");
    var newKeyResult := NotImplementedCache.Get(Some(missing3), 5, cachedData.next);
    var newKeyOnMiss := newKeyResult.entry.key != missing3;

    // RemoveDoesNotThrowAnyExceptions: Remove is total
    var n3 := NotImplementedCache.Remove(Some(Given("made-up")), newKeyResult.next);

    // TheExpectedDataIsReturnedFromGetForANonExistentKey
    var expectedData := 6;
    var getResult := NotImplementedCache.Get(Some(Given("missing-4")), expectedData, n3);
    var expectedDataReturned := getResult.entry.data == expectedData;

    // NullKeySuppliedToGetDoesNotResultInExceptions, EmptyKeySuppliedToGetDoesNotResultInExceptions:
    // Get is total on null and empty keys
    var nullKeyResult := NotImplementedCache.Get(None, 7, getResult.next);
    var _ := NotImplementedCache.Get(Some(Given("")), 8, nullKeyResult.next);

    ok := validKeyOnAdd && handlerExecuted && validKeyOnMiss && validKeyOnHit
          && newKeyOnMiss && expectedDataReturned;
  }
}
