/**
 * The application cache (`Yii::app()->cache`) as the components use it: a
 * key/value store whose entries expire, read through an abstract clock, and
 * the get/store/delete rules the components wrap around it.
 */
module CacheStore {
  import opened PhpValues
  import opened Movies

  /** What the components put in the cache. */
  datatype Payload =
    | Flag(b: bool)                             // a provider's request-error flag
    | Text(s: string)                           // a single string
    | Records(byId: map<string, Movie>)         // the store's id => record dictionaries
    | RecordList(items: seq<Movie>)             // a provider's list of results
    | Decoded(j: Json)                          // a decoded provider response

  /** PHP `empty()` on a payload. */
  predicate IsEmpty(p: Payload)
  {
    match p
    case Flag(b) => !b
    case Text(s) => s == "" || s == "0"
    case Records(byId) => byId == map[]
    case RecordList(items) => items == []
    case Decoded(j) => !Truthy(j)
  }

  /** A cached value with its expiry time; None never expires. */
  datatype Entry = Entry(value: Payload, expires: Option<int>)

  /** An entry is still served at time `now` until its expiry time. */
  predicate Live(e: Entry, now: int)
  {
    e.expires.None? || now < e.expires.value
  }

  /**
   * The expiry of an entry written at `now` for `duration` seconds. A
   * duration that is not positive stores the entry without expiry.
   */
  function Expiry(now: int, duration: int): Option<int>
  {
    if duration > 0 then Some(now + duration) else None
  }

  /** The cache backend: its entries and the clock it judges expiry by. */
  class Cache {
    var entries: map<string, Entry>
    var now: int

    constructor(now: int)
      ensures entries == map[] && this.now == now
    {
      entries := map[];
      this.now := now;
    }

    /** `get($key)`: the stored value while it is live; None stands for `false`. */
    function Get(key: string): (r: Option<Payload>)
      reads this
      ensures r.Some? <==> key in entries && Live(entries[key], now)
      ensures r.Some? ==> r.value == entries[key].value
    {
      if key in entries && Live(entries[key], now) then Some(entries[key].value) else None
    }

    /** `set($key, $value, $duration)`. */
    method Set(key: string, value: Payload, duration: int)
      modifies this
      ensures entries == old(entries)[key := Entry(value, Expiry(old(now), duration))]
      ensures now == old(now)
      ensures Get(key) == Some(value)
    {
      entries := entries[key := Entry(value, Expiry(now, duration))];
    }

    /** `delete($key)`. */
    method Delete(key: string)
      modifies this
      ensures entries == old(entries) - {key}
      ensures now == old(now)
      ensures Get(key) == None
    {
      entries := entries - {key};
    }

    /** The clock moves forward by `dt` seconds. */
    method Advance(dt: nat)
      modifies this
      ensures now == old(now) + dt
      ensures entries == old(entries)
      ensures Snap(this) == Later(old(Snap(this)), dt)
    {
      now := now + dt;
    }
  }

  /** The duration a helper uses: its argument when truthy, else the owner's duration. */
  function EffectiveDuration(duration: int, ownDuration: int): int
  {
    if duration != 0 then duration else ownDuration
  }

  /** The cache as a value: absent, or its entries and clock. */
  datatype Snapshot = NoCache | State(entries: map<string, Entry>, now: int)

  function Snap(cache: Cache?): Snapshot
    reads cache
  {
    if cache == null then NoCache else State(cache.entries, cache.now)
  }

  /** The cache state `dt` seconds later: the same entries, the clock moved on. */
  function Later(s: Snapshot, dt: nat): (r: Snapshot)
    ensures r.State? == s.State? && (s.State? ==> r.entries == s.entries && r.now == s.now + dt)
  {
    if s.State? then s.(now := s.now + dt) else s
  }

  /**
   * What `getFromCache($key, $cacheDuration)` returns from cache state `s`:
   * the cached value when the effective duration is truthy, a cache exists
   * and the live value it holds is not empty; None stands for `false`.
   */
  function Served(s: Snapshot, key: string, duration: int, ownDuration: int): (r: Option<Payload>)
    ensures r.Some? <==> EffectiveDuration(duration, ownDuration) != 0 && s.State?
                         && key in s.entries && Live(s.entries[key], s.now)
                         && !IsEmpty(s.entries[key].value)
    ensures r.Some? ==> !IsEmpty(r.value) && r.value == s.entries[key].value
  {
    if EffectiveDuration(duration, ownDuration) != 0 && s.State? && key in s.entries
       && Live(s.entries[key], s.now) && !IsEmpty(s.entries[key].value)
    then Some(s.entries[key].value)
    else None
  }

  /** The cache state after `storeToCache($key, $data, $cacheDuration)`. */
  function Stored(s: Snapshot, key: string, data: Payload, duration: int, ownDuration: int): (r: Snapshot)
    ensures r.State? == s.State? && (s.State? ==> r.now == s.now)
  {
    var effective := EffectiveDuration(duration, ownDuration);
    if s.State? && effective != 0 && !IsEmpty(data)
    then State(s.entries[key := Entry(data, Expiry(s.now, effective))], s.now)
    else s
  }

  /**
   * Storing is a round trip: right after a write, the key serves the data
   * under every truthy duration; every other key serves what it served
   * before; and a write is a no-op when the duration is falsy, the cache
   * absent or the data empty.
   */
  lemma StoredServed(s: Snapshot, key: string, data: Payload, duration: int, ownDuration: int, other: string, d: int)
    ensures s.State? && EffectiveDuration(duration, ownDuration) != 0 && !IsEmpty(data)
            && EffectiveDuration(d, ownDuration) != 0 ==>
              Served(Stored(s, key, data, duration, ownDuration), key, d, ownDuration) == Some(data)
    ensures other != key ==>
              Served(Stored(s, key, data, duration, ownDuration), other, d, ownDuration) == Served(s, other, d, ownDuration)
    ensures s.NoCache? || EffectiveDuration(duration, ownDuration) == 0 || IsEmpty(data) ==>
              Stored(s, key, data, duration, ownDuration) == s
  {
    var effective := EffectiveDuration(duration, ownDuration);
    if s.State? && effective != 0 && !IsEmpty(data) {
      assert Live(Entry(data, Expiry(s.now, effective)), s.now);
    }
  }

  /**
   * A write never takes a served value away: a key that served something
   * before a write still serves something after it, at the same time.
   */
  lemma StoredKeepsServed(s: Snapshot, key: string, data: Payload, duration: int, ownDuration: int, other: string, d: int)
    ensures Served(s, other, d, ownDuration).Some? ==> Served(Stored(s, key, data, duration, ownDuration), other, d, ownDuration).Some?
  {
    StoredServed(s, key, data, duration, ownDuration, other, d);
  }

  /**
   * Two cache states that agree everywhere except, perhaps, on the keys
   * `ks`: both absent, or both present with one clock.
   */
  predicate AgreeOutside(s: Snapshot, t: Snapshot, ks: set<string>)
  {
    || (s.NoCache? && t.NoCache?)
    || (s.State? && t.State? && s.now == t.now && s.entries - ks == t.entries - ks)
  }

  /** States that agree outside `ks` serve every other key alike. */
  lemma AgreeOutsideServed(s: Snapshot, t: Snapshot, ks: set<string>, key: string, d: int, ownDuration: int)
    requires AgreeOutside(s, t, ks) && key !in ks
    ensures Served(s, key, d, ownDuration) == Served(t, key, d, ownDuration)
  {
    if s.State? {
      assert key in s.entries <==> key in s.entries - ks;
      assert key in t.entries <==> key in t.entries - ks;
      if key in s.entries {
        assert s.entries[key] == (s.entries - ks)[key] == (t.entries - ks)[key] == t.entries[key];
      }
    }
  }

  /**
   * The same write outside `ks` keeps two agreeing states agreeing, and a
   * write inside `ks` keeps a state agreeing with what it was.
   */
  lemma AgreeOutsideStored(s: Snapshot, t: Snapshot, ks: set<string>, key: string, data: Payload, duration: int, ownDuration: int)
    requires AgreeOutside(s, t, ks)
    ensures key !in ks ==> AgreeOutside(Stored(s, key, data, duration, ownDuration), Stored(t, key, data, duration, ownDuration), ks)
    ensures key in ks ==> AgreeOutside(Stored(s, key, data, duration, ownDuration), s, ks)
  {
    var effective := EffectiveDuration(duration, ownDuration);
    if s.State? && effective != 0 && !IsEmpty(data) {
      var e := Entry(data, Expiry(s.now, effective));
      if key !in ks {
        assert s.entries[key := e] - ks == (s.entries - ks)[key := e];
        assert t.entries[key := e] - ks == (t.entries - ks)[key := e];
      } else {
        assert s.entries[key := e] - ks == s.entries - ks;
      }
    }
  }

  /** `getFromCache($key, $cacheDuration)` on the application cache. */
  function FromCache(cache: Cache?, key: string, duration: int, ownDuration: int): (r: Option<Payload>)
    reads cache
    ensures r.Some? <==> EffectiveDuration(duration, ownDuration) != 0 && cache != null
                         && key in cache.entries && Live(cache.entries[key], cache.now)
                         && !IsEmpty(cache.entries[key].value)
    ensures r.Some? ==> !IsEmpty(r.value) && r.value == cache.entries[key].value
  {
    Served(Snap(cache), key, duration, ownDuration)
  }

  /**
   * `storeToCache($key, $data, $cacheDuration)`: writes `data` for the
   * effective duration, unless that duration is falsy, there is no cache or
   * the data is empty.
   */
  method StoreToCache(cache: Cache?, key: string, data: Payload, duration: int, ownDuration: int)
    modifies cache
    ensures Snap(cache) == Stored(old(Snap(cache)), key, data, duration, ownDuration)
    ensures cache != null && EffectiveDuration(duration, ownDuration) != 0 && !IsEmpty(data) ==>
              forall d :: EffectiveDuration(d, ownDuration) != 0 ==> FromCache(cache, key, d, ownDuration) == Some(data)
  {
    var effective := EffectiveDuration(duration, ownDuration);
    if effective != 0 && cache != null && !IsEmpty(data) {
      cache.Set(key, data, effective);
    }
  }

  /** The cache state after `deleteCache($key)`. */
  function Removed(s: Snapshot, key: string): (r: Snapshot)
    ensures forall d, own :: Served(r, key, d, own) == None
    ensures forall other, d, own :: other != key ==> Served(r, other, d, own) == Served(s, other, d, own)
  {
    if s.State? then State(s.entries - {key}, s.now) else s
  }

  /** `deleteCache($key)`: removes the key when a cache exists. */
  method DeleteCache(cache: Cache?, key: string)
    modifies cache
    ensures Snap(cache) == Removed(old(Snap(cache)), key)
  {
    if cache != null {
      cache.Delete(key);
    }
  }
}
