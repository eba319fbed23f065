/**
 * The state every provider client shares (`BaseApi`): its name, its cache
 * duration, its last error, and the cache helpers through which it keys its
 * entries and keeps a request-error flag that switches the provider off for
 * a fixed window.
 */
module Apis {
  import opened PhpStrings
  import opened PhpValues
  import opened Movies
  import opened CacheStore

  /** `MovieInfoComponent::CACHE_KEY`: the prefix of every cache key. */
  const CacheKeyPrefix: string := "movieinfo-component-"

  /** The default `cacheDuration` of a provider client, in seconds. */
  const DefaultApiCacheDuration: int := 600

  /** The fixed lifetime, in seconds, of a provider's request-error flag. */
  const ErrorWindow: int := 600

  /** `BaseApi::DELIMETER`: the separator for splitting and joining list values. */
  const Delimiter: char := ','

  /** `getCacheKey($key)`: the prefix, the provider name, then `-key` when a key is given. */
  function CacheKey(name: string, key: Option<string>): string
  {
    CacheKeyPrefix + name + (if key.Some? then "-" + key.value else "")
  }

  /** The key of a provider's request-error flag: `getCacheKey('error:' . name)`. */
  function ErrorKey(name: string): string
  {
    CacheKey(name, Some("error:" + name))
  }

  /**
   * Keys of one provider never clash: the key without a suffix differs from
   * every suffixed key, and different suffixes give different keys.
   */
  lemma CacheKeyInjective(name: string, k1: Option<string>, k2: Option<string>)
    ensures CacheKey(name, k1) == CacheKey(name, k2) ==> k1 == k2
  {
    var p := CacheKeyPrefix + name;
    if CacheKey(name, k1) == CacheKey(name, k2) {
      if k1.Some? && k2.Some? {
        var s := CacheKey(name, k1);
        assert s == p + ("-" + k1.value);
        assert s[|p| + 1..] == k1.value;
        assert CacheKey(name, k2)[|p| + 1..] == k2.value;
      } else {
        assert |CacheKey(name, k1)| != |CacheKey(name, k2)| || (k1.None? && k2.None?);
      }
    }
  }

  /** Each provider has its own request-error flag: different names, different keys. */
  lemma ErrorKeyPerProvider(n1: string, n2: string)
    ensures ErrorKey(n1) == ErrorKey(n2) ==> n1 == n2
  {
    if ErrorKey(n1) == ErrorKey(n2) {
      var k := |CacheKeyPrefix|;
      assert |ErrorKey(n1)| == 2 * |n1| + k + 7;
      assert |ErrorKey(n2)| == 2 * |n2| + k + 7;
      assert ErrorKey(n1)[k..k + |n1|] == n1;
      assert ErrorKey(n2)[k..k + |n2|] == n2;
    }
  }

  /** The start of every suffixed key of provider `name`: the prefix, the name and `-`. */
  function OwnKeyPrefix(name: string): (r: string)
    ensures forall x :: r <= CacheKey(name, Some(x))
  {
    var r := CacheKeyPrefix + name + "-";
    assert forall x :: CacheKey(name, Some(x)) == r + x;
    r
  }

  /**
   * Provider names are lower-cased PHP class names and hold no `-`, so no
   * suffixed key of one provider starts like a key of another.
   */
  lemma ForeignKeys(name: string, other: string, x: string)
    requires '-' !in name && '-' !in other && name != other
    ensures !(OwnKeyPrefix(name) <= CacheKey(other, Some(x)))
  {
    var k := |CacheKeyPrefix|;
    var p := OwnKeyPrefix(name);
    var key := CacheKey(other, Some(x));
    assert p == CacheKeyPrefix + name + "-";
    assert key == CacheKeyPrefix + other + "-" + x;
    assert key[k..k + |other|] == other && p[k..k + |name|] == name;
    if p <= key {
      if |other| > |name| {
        assert p[k + |name|] == '-';
      }
    }
  }

  /** The cache state after `setRequestErrors()` of the provider `name`. */
  function Flagged(s: Snapshot, name: string, ownDuration: int): Snapshot
  {
    Stored(s, ErrorKey(name), Flag(true), ErrorWindow, ownDuration)
  }

  /** `hasRequestErrors()` of the provider `name` in cache state `s`. */
  predicate Suppressed(s: Snapshot, name: string, ownDuration: int)
  {
    Served(s, ErrorKey(name), ErrorWindow, ownDuration).Some?
  }

  /** A provider client. */
  class BaseApi {
    /** `_name`: the lower-cased class name. */
    const name: string
    var cacheDuration: int
    var error: Option<string>
    /** The application cache; null when the application has none. */
    const cache: Cache?

    /** `__construct($cacheDuration)`; the argument None stands for null. */
    constructor(className: string, cacheDuration: Option<int>, cache: Cache?)
      ensures name == Lower(className)
      ensures this.cacheDuration == if cacheDuration.Some? then cacheDuration.value else DefaultApiCacheDuration
      ensures error == None && this.cache == cache
    {
      name := Lower(className);
      this.cacheDuration := if cacheDuration.Some? then cacheDuration.value else DefaultApiCacheDuration;
      error := None;
      this.cache := cache;
    }

    /** `hasRequestErrors()`: the provider's error flag is cached and live. */
    function HasRequestErrors(): (r: bool)
      reads this, cache
      ensures r == Suppressed(Snap(cache), name, cacheDuration)
      ensures r <==> cache != null && ErrorKey(name) in cache.entries
                     && Live(cache.entries[ErrorKey(name)], cache.now)
                     && !IsEmpty(cache.entries[ErrorKey(name)].value)
    {
      FromCache(cache, ErrorKey(name), ErrorWindow, cacheDuration).Some?
    }

    /** `setRequestErrors()`: caches the flag `true` for the fixed window. */
    method SetRequestErrors()
      modifies cache
      ensures Snap(cache) == Flagged(old(Snap(cache)), name, cacheDuration)
      ensures cache != null ==>
                cache.entries == old(cache.entries)[ErrorKey(name) := Entry(Flag(true), Some(old(cache.now) + ErrorWindow))]
      ensures cache != null ==> HasRequestErrors()
    {
      StoreToCache(cache, ErrorKey(name), Flag(true), ErrorWindow, cacheDuration);
    }
  }

  /**
   * A flag set in cache state `s` is live for the next `ErrorWindow`
   * seconds, whatever the client's own cache duration.
   */
  lemma FlagLastsWindow(s: Snapshot, name: string, ownDuration: int, dt: nat)
    requires s.State? && dt < ErrorWindow
    ensures Suppressed(Later(Flagged(s, name, ownDuration), dt), name, ownDuration)
  {
    assert Later(Flagged(s, name, ownDuration), dt).entries[ErrorKey(name)] == Entry(Flag(true), Some(s.now + ErrorWindow));
  }

  /**
   * The request-error flag is a circuit breaker with a fixed window: set at
   * some time, it reports the provider as failing for exactly the next
   * `ErrorWindow` seconds, whatever cache duration the client was given.
   */
  method ErrorFlagWindow(className: string, duration: Option<int>, start: int, elapsed: nat)
    returns (failing: bool)
    ensures failing <==> elapsed < ErrorWindow
  {
    var cache := new Cache(start);
    var api := new BaseApi(className, duration, cache);
    api.SetRequestErrors();
    cache.Advance(elapsed);
    failing := api.HasRequestErrors();
  }
}
