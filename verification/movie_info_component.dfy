/**
 * The aggregate store (`MovieInfoComponent`): two dictionaries of movie
 * records keyed by IMDb id — full records from `search`, partial ones from
 * the instant searches — each mirrored into the application cache, and the
 * three searches that ask the configured providers, skip a provider whose
 * request-error flag is live, and fold every answer into a dictionary by
 * inserting it or merging it into the record already held.
 *
 * The providers' answers are parameters: a function from (provider class,
 * query) to what that provider's search returns.
 */
module MovieInfoComponents {
  import opened PhpStrings
  import opened PhpValues
  import opened Movies
  import opened MergePolicy
  import opened CacheStore
  import opened Apis
  import CurlApi
  import ImdbSuggestion

  /** The component's default `cacheDuration`, in seconds. */
  const DefaultCacheDuration: int := 86400000

  /** `API_TMDB_ORG` and `API_IMDB_SUGGESTION`: provider class names. */
  const TmdbApiClass: string := "TmdbApi"
  const ImdbSuggestionApiClass: string := "ImdbSuggestionApi"

  /** The providers each search asks when the caller names none. */
  const InstantSearchApis: seq<string> := [ImdbSuggestionApiClass]
  const InstantSearchByIdApis: seq<string> := [TmdbApiClass]
  const SearchApis: seq<string> := [TmdbApiClass]

  /** The cache keys of the two dictionaries. */
  const MoviesKey: string := CacheKeyPrefix + "movies"
  const InstantResultsKey: string := CacheKeyPrefix + "instantResults"

  /** What `clearMovies()` raises when it reads the undeclared `moviesCacheKey`. */
  const UndefinedPropertyError: string := "Property \"MovieInfoComponent.moviesCacheKey\" is not defined."

  /**
   * The component's keys never meet a provider's request-error flag: a flag
   * key has odd length (the name twice around a fixed part), the two
   * dictionary keys have even length.
   */
  lemma StoreKeysApart(name: string)
    ensures ErrorKey(name) != MoviesKey && ErrorKey(name) != InstantResultsKey
    ensures MoviesKey != InstantResultsKey
  {
    assert |CacheKeyPrefix| == 20;
    assert |ErrorKey(name)| == 2 * |name| + 27;
    assert |MoviesKey| == 26 && |InstantResultsKey| == 34;
  }

  /** PHP `empty()` on a string. */
  predicate EmptyText(s: string)
  {
    s == "" || s == "0"
  }

  /** A search argument after `trim`, or None when `empty()` rejects it. */
  function Query(s: string): (q: Option<string>)
    ensures q.Some? ==> q.value == Trim(s) && !EmptyText(q.value)
    ensures q.None? <==> EmptyText(Trim(s))
  {
    var t := Trim(s);
    if EmptyText(t) then None else Some(t)
  }

  /** The providers a search asks: the caller's list, or the defaults when it is empty. */
  function Chosen(apis: seq<string>, defaults: seq<string>): (r: seq<string>)
    ensures apis != [] ==> r == apis
    ensures apis == [] ==> r == defaults
  {
    if apis == [] then defaults else apis
  }

  /** `isset($byId[$id]) ? $byId[$id] : null`. */
  function Found(byId: map<string, Movie>, id: string): (r: Option<Movie>)
    ensures r.Some? <==> id in byId
    ensures r.Some? ==> r.value == byId[id]
  {
    if id in byId then Some(byId[id]) else None
  }

  /** `array_intersect_key($byId, array_flip($ids))`: the entries the list names. */
  function Restricted(byId: map<string, Movie>, ids: seq<string>): (r: map<string, Movie>)
    ensures forall k :: k in r <==> k in byId && k in ids
    ensures forall k :: k in r ==> r[k] == byId[k]
  {
    map k | k in byId && k in ids :: byId[k]
  }

  /**
   * `getMovies($ids)` and `getInstantResults($ids)`: a non-empty list keeps
   * the entries it names, in the dictionary's own order; an empty or
   * missing list returns the whole dictionary.
   */
  function Selection(byId: map<string, Movie>, ids: seq<string>): (r: map<string, Movie>)
    ensures ids != [] ==> r.Keys == byId.Keys * (set k | k in ids)
    ensures ids == [] ==> r == byId
    ensures forall k :: k in r ==> Found(byId, k) == Some(r[k])
  {
    if ids != [] then Restricted(byId, ids) else byId
  }

  /** The ids of a list of records, in order. */
  function Ids(ms: seq<Movie>): (r: seq<string>)
    ensures |r| == |ms|
    ensures forall i :: 0 <= i < |ms| ==> r[i] == Key(ms[i])
  {
    seq(|ms|, i requires 0 <= i < |ms| => Key(ms[i]))
  }

  /** The ids of two lists are the ids of the first, then of the second. */
  lemma IdsConcat(a: seq<Movie>, b: seq<Movie>)
    ensures Ids(a + b) == Ids(a) + Ids(b)
  {
    assert forall i :: 0 <= i < |a + b| ==> Ids(a + b)[i] == (Ids(a) + Ids(b))[i];
  }

  /** The ids of a non-empty list end with the id of its last record. */
  lemma IdsSnoc(ms: seq<Movie>)
    requires ms != []
    ensures Ids(ms) == Ids(ms[..|ms| - 1]) + [Key(ms[|ms| - 1])]
  {
    assert ms == ms[..|ms| - 1] + [ms[|ms| - 1]];
    IdsConcat(ms[..|ms| - 1], [ms[|ms| - 1]]);
  }

  /**
   * `updateMovies` / `updateInstantResults` on a dictionary: a record under
   * a new id is added, one under an id already held is merged into it.
   */
  function Absorb(byId: map<string, Movie>, movie: Movie): (r: map<string, Movie>)
    ensures r.Keys == byId.Keys + {Key(movie)}
    ensures forall k :: k in byId && k != Key(movie) ==> r[k] == byId[k]
  {
    byId[Key(movie) := Combined(byId, movie)]
  }

  /** The record an update stores: the merge into the held one, or the record itself. */
  function Combined(byId: map<string, Movie>, movie: Movie): Movie
  {
    if Key(movie) in byId then Merged(byId[Key(movie)], movie) else movie
  }

  /** Every record is stored under its own id. */
  ghost predicate Indexed(byId: map<string, Movie>)
  {
    forall k :: k in byId ==> Key(byId[k]) == k
  }

  /** Two records with the same id merge into a record with that id. */
  lemma MergedKey(m: Movie, n: Movie)
    requires Key(m) == Key(n)
    ensures Key(Merged(m, n)) == Key(m)
  {
    MergedAt(m, n, ImdbId);
  }

  /**
   * Absorbing keeps a dictionary indexed, and a record absorbed under a
   * new id is stored as it came.
   */
  lemma AbsorbIndexed(byId: map<string, Movie>, movie: Movie)
    ensures Indexed(byId) ==> Indexed(Absorb(byId, movie))
    ensures Key(movie) !in byId ==> Absorb(byId, movie)[Key(movie)] == movie
  {
    var k := Key(movie);
    if Indexed(byId) && k in byId {
      MergedKey(byId[k], movie);
    }
  }

  /** Absorbing a record that is already stored as it is changes nothing. */
  lemma AbsorbStored(byId: map<string, Movie>, movie: Movie)
    requires Key(movie) in byId && byId[Key(movie)] == movie
    ensures Absorb(byId, movie) == byId
  {
    MergeIdempotent(movie);
  }

  /** The component's state as a value: both dictionaries and the cache. */
  datatype Store = Store(movies: map<string, Movie>, instant: map<string, Movie>, cache: Snapshot)

  /** Which dictionary an update goes to. */
  datatype Target = MoviesList | InstantList

  function Held(st: Store, target: Target): map<string, Movie>
  {
    if target == MoviesList then st.movies else st.instant
  }

  /** The cache key a dictionary is kept under. */
  function StoreKey(target: Target): string
  {
    if target == MoviesList then MoviesKey else InstantResultsKey
  }

  /** What the constructor reads back for one key: the cached dictionary, or nothing. */
  function Reloaded(s: Snapshot, key: string, own: int): map<string, Movie>
  {
    var p := Served(s, key, 0, own);
    if p.Some? && p.value.Records? then p.value.byId else map[]
  }

  /** The state a component constructed on cache `s` starts in. */
  function Loaded(s: Snapshot, own: int): Store
  {
    Store(Reloaded(s, MoviesKey, own), Reloaded(s, InstantResultsKey, own), s)
  }

  /**
   * The cache mirrors the store: with a cache and caching on, a component
   * constructed afresh on this cache would hold the same two dictionaries.
   */
  predicate Persisted(st: Store, own: int)
  {
    st.cache.State? && own != 0 ==> Loaded(st.cache, own) == st
  }

  /** The state after `updateMovies` or (stored under its own key) `updateInstantResults`. */
  function Updated(st: Store, target: Target, movie: Movie, own: int): Store
  {
    var byId := Absorb(Held(st, target), movie);
    var cache := Stored(st.cache, StoreKey(target), Records(byId), 0, own);
    if target == MoviesList then st.(movies := byId, cache := cache)
    else st.(instant := byId, cache := cache)
  }

  /**
   * An update adds the record's id and leaves every other entry and the
   * other dictionary as they were.
   */
  lemma UpdatedKeys(st: Store, target: Target, movie: Movie, own: int)
    ensures forall k :: k in Held(Updated(st, target, movie, own), target) <==> k in Held(st, target) || k == Key(movie)
    ensures forall k :: k in Held(st, target) && k != Key(movie) ==>
              Held(Updated(st, target, movie, own), target)[k] == Held(st, target)[k]
    ensures target == MoviesList ==> Updated(st, target, movie, own).instant == st.instant
    ensures target == InstantList ==> Updated(st, target, movie, own).movies == st.movies
  {
  }

  /** An update never touches a provider's request-error flag. */
  lemma UpdatedFlag(st: Store, target: Target, movie: Movie, own: int, name: string)
    ensures Suppressed(Updated(st, target, movie, own).cache, name, own) == Suppressed(st.cache, name, own)
  {
    var byId := Absorb(Held(st, target), movie);
    StoreKeysApart(name);
    StoredServed(st.cache, StoreKey(target), Records(byId), 0, own, ErrorKey(name), ErrorWindow);
  }

  /**
   * An update writes the dictionary through: with a cache and caching on, a
   * fresh component reloads the updated dictionary, and an update keeps
   * the cache mirroring the store.
   */
  lemma UpdatedPersists(st: Store, target: Target, movie: Movie, own: int)
    ensures st.cache.State? && own != 0 ==>
              Reloaded(Updated(st, target, movie, own).cache, StoreKey(target), own) == Held(Updated(st, target, movie, own), target)
    ensures Persisted(st, own) ==> Persisted(Updated(st, target, movie, own), own)
  {
    var r := Updated(st, target, movie, own);
    var byId := Absorb(Held(st, target), movie);
    var other := if target == MoviesList then InstantResultsKey else MoviesKey;
    StoreKeysApart("");
    StoredServed(st.cache, StoreKey(target), Records(byId), 0, own, other, 0);
    assert Reloaded(r.cache, other, own) == Reloaded(st.cache, other, own);
    if st.cache.State? && own != 0 {
      assert Key(movie) in byId;
      assert Reloaded(r.cache, StoreKey(target), own) == byId;
    }
  }

  /**
   * `updateInstantResults` as written: it merges into the instant results
   * but writes them to the cache under the key of the movies dictionary.
   */
  function UpdatedInstantAsWritten(st: Store, movie: Movie, own: int): Store
  {
    var byId := Absorb(st.instant, movie);
    st.(instant := byId, cache := Stored(st.cache, MoviesKey, Records(byId), 0, own))
  }

  /**
   * As written, an instant-search update replaces the cached movies with
   * the instant results and never writes the instant-results key, so the
   * next component loads the instant results as its movies.
   */
  lemma InstantResultsOverwriteMovies(st: Store, movie: Movie, own: int)
    requires st.cache.State? && own != 0
    ensures Reloaded(UpdatedInstantAsWritten(st, movie, own).cache, MoviesKey, own) == UpdatedInstantAsWritten(st, movie, own).instant
    ensures Reloaded(UpdatedInstantAsWritten(st, movie, own).cache, InstantResultsKey, own) == Reloaded(st.cache, InstantResultsKey, own)
    ensures Persisted(st, own) && st.movies != Absorb(st.instant, movie) ==> !Persisted(UpdatedInstantAsWritten(st, movie, own), own)
  {
    var byId := Absorb(st.instant, movie);
    assert Key(movie) in byId;
    StoreKeysApart("");
    StoredServed(st.cache, MoviesKey, Records(byId), 0, own, InstantResultsKey, 0);
  }

  /** The state after `clearInstantResults()`, and `clearMovies()` as intended. */
  function Cleared(st: Store, target: Target): Store
  {
    var cache := Removed(st.cache, StoreKey(target));
    if target == MoviesList then st.(movies := map[], cache := cache)
    else st.(instant := map[], cache := cache)
  }

  /**
   * Clearing empties one dictionary and deletes its cache entry, so a fresh
   * component starts without it; the other dictionary and its entry stay.
   */
  lemma ClearedFacts(st: Store, target: Target, own: int)
    ensures Held(Cleared(st, target), target) == map[]
    ensures Reloaded(Cleared(st, target).cache, StoreKey(target), own) == map[]
    ensures target == MoviesList ==>
              Cleared(st, target).instant == st.instant && Reloaded(Cleared(st, target).cache, InstantResultsKey, own) == Reloaded(st.cache, InstantResultsKey, own)
    ensures target == InstantList ==>
              Cleared(st, target).movies == st.movies && Reloaded(Cleared(st, target).cache, MoviesKey, own) == Reloaded(st.cache, MoviesKey, own)
    ensures Persisted(st, own) ==> Persisted(Cleared(st, target), own)
  {
    StoreKeysApart("");
  }

  /**
   * `clearMovies()` as written: it empties the movies, then reads the
   * undeclared property `moviesCacheKey`, which raises before the cache
   * entry is deleted.
   */
  function ClearMoviesAsWritten(st: Store): (Store, string)
  {
    (st.(movies := map[]), UndefinedPropertyError)
  }

  /** As written, cleared movies come back: the next component reloads them from the cache. */
  lemma ClearedMoviesReload(st: Store, own: int)
    requires Persisted(st, own) && st.cache.State? && own != 0
    ensures Reloaded(ClearMoviesAsWritten(st).0.cache, MoviesKey, own) == st.movies
    ensures st.movies != map[] ==> !Persisted(ClearMoviesAsWritten(st).0, own)
  {
  }

  /** The instant results of a list of records, one update after another. */
  function AbsorbAll(st: Store, ms: seq<Movie>, own: int): Store
    decreases |ms|
  {
    if ms == [] then st
    else Updated(AbsorbAll(st, ms[..|ms| - 1], own), InstantList, ms[|ms| - 1], own)
  }

  lemma {:induction false} AbsorbAllKeys(st: Store, ms: seq<Movie>, own: int)
    ensures AbsorbAll(st, ms, own).movies == st.movies
    ensures forall k :: k in AbsorbAll(st, ms, own).instant <==> k in st.instant || k in Ids(ms)
    ensures forall k :: k in st.instant && k !in Ids(ms) ==> AbsorbAll(st, ms, own).instant[k] == st.instant[k]
    decreases |ms|
  {
    if ms != [] {
      var init := ms[..|ms| - 1];
      AbsorbAllKeys(st, init, own);
      UpdatedKeys(AbsorbAll(st, init, own), InstantList, ms[|ms| - 1], own);
      IdsSnoc(ms);
    }
  }

  lemma {:induction false} AbsorbAllFlag(st: Store, ms: seq<Movie>, own: int, name: string)
    ensures Suppressed(AbsorbAll(st, ms, own).cache, name, own) == Suppressed(st.cache, name, own)
    decreases |ms|
  {
    if ms != [] {
      var init := ms[..|ms| - 1];
      AbsorbAllFlag(st, init, own, name);
      UpdatedFlag(AbsorbAll(st, init, own), InstantList, ms[|ms| - 1], own, name);
    }
  }

  lemma {:induction false} AbsorbAllPersists(st: Store, ms: seq<Movie>, own: int)
    ensures Persisted(st, own) ==> Persisted(AbsorbAll(st, ms, own), own)
    decreases |ms|
  {
    if ms != [] {
      var init := ms[..|ms| - 1];
      AbsorbAllPersists(st, init, own);
      UpdatedPersists(AbsorbAll(st, init, own), InstantList, ms[|ms| - 1], own);
    }
  }

  /** The name of the suggestion client, the default instant-search provider. */
  const SuggestionName: string := Lower(ImdbSuggestionApiClass)

  /** The cache keys of the component's own two dictionaries. */
  const StoreKeys: set<string> := {MoviesKey, InstantResultsKey}

  /** The suggestion client's name holds no `-`, as no PHP class name does. */
  lemma SuggestionNameUndashed()
    ensures '-' !in SuggestionName
  {
    assert '-' !in ImdbSuggestionApiClass;
    LowerAbsent(ImdbSuggestionApiClass, '-');
  }

  /** The component's dictionary keys are at most 34 characters long. */
  lemma StoreKeysShort()
    ensures forall k :: k in StoreKeys ==> |k| <= 34
  {
    assert |MoviesKey| == 26 && |InstantResultsKey| == 34;
  }

  /** The suggestion client's key prefix is longer than that. */
  lemma SuggestionPrefixLong()
    ensures |OwnKeyPrefix(SuggestionName)| > 34
  {
    assert |SuggestionName| == |ImdbSuggestionApiClass|;
  }

  /** The suggestion client's keys lie apart from the component's: neither dictionary key starts with its key prefix. */
  lemma SuggestionKeysApart()
    ensures forall k :: k in StoreKeys ==> !(OwnKeyPrefix(SuggestionName) <= k)
    ensures !(OwnKeyPrefix(SuggestionName) <= MoviesKey) && !(OwnKeyPrefix(SuggestionName) <= InstantResultsKey)
  {
    StoreKeysShort();
    SuggestionPrefixLong();
  }

  /**
   * Where the providers' instant answers come from: the suggestion service
   * answers each URL with `fetch` and its JSON is read with `decode`; every
   * other provider class answers a query with `others`.
   */
  datatype Providers = Providers(fetch: string -> CurlApi.Transfer, decode: string -> Option<Json>,
                                 others: (string, string) -> seq<Movie>)

  /**
   * `(new $apiClass($this->cacheDuration))->instantSearch($title)` from
   * cache state `s`: the records the provider answers and the cache state
   * after it. The suggestion client is created with the component's cache
   * duration and no error, reads and writes the cache through its own
   * search; another provider's answer is given and leaves the cache alone.
   * The class is recognised as PHP resolves class names, ignoring ASCII case.
   */
  function InstantAnswer(s: Snapshot, api: string, title: string, pv: Providers, own: int): (seq<Movie>, Snapshot)
  {
    if Lower(api) == SuggestionName then
      var o := ImdbSuggestion.Suggest(s, None, SuggestionName, own, title, pv.fetch, pv.decode);
      (o.movies, o.cache)
    else (pv.others(api, title), s)
  }

  /**
   * A provider's answer depends on nothing in the component's two
   * dictionary keys: from states that agree outside them it answers the
   * same records and leaves states that still agree outside them.
   */
  lemma InstantAnswerAgrees(s: Snapshot, t: Snapshot, api: string, title: string, pv: Providers, own: int)
    requires AgreeOutside(s, t, StoreKeys)
    ensures InstantAnswer(s, api, title, pv, own).0 == InstantAnswer(t, api, title, pv, own).0
    ensures AgreeOutside(InstantAnswer(s, api, title, pv, own).1, InstantAnswer(t, api, title, pv, own).1, StoreKeys)
  {
    if Lower(api) == SuggestionName {
      SuggestionKeysApart();
      ImdbSuggestion.SuggestAgrees(s, t, StoreKeys, None, SuggestionName, own, title, pv.fetch, pv.decode);
    }
  }

  /**
   * A provider's answer leaves the component's dictionaries in the cache
   * as they were, and keeps the cache present and its clock.
   */
  lemma InstantAnswerKeepsStore(s: Snapshot, api: string, title: string, pv: Providers, own: int)
    ensures InstantAnswer(s, api, title, pv, own).1.State? == s.State?
    ensures Reloaded(InstantAnswer(s, api, title, pv, own).1, MoviesKey, own) == Reloaded(s, MoviesKey, own)
    ensures Reloaded(InstantAnswer(s, api, title, pv, own).1, InstantResultsKey, own) == Reloaded(s, InstantResultsKey, own)
  {
    if Lower(api) == SuggestionName {
      SuggestionKeysApart();
      ImdbSuggestion.SuggestKeepsClock(s, None, SuggestionName, own, title, pv.fetch, pv.decode);
      ImdbSuggestion.SuggestFrame(s, None, SuggestionName, own, title, pv.fetch, pv.decode, MoviesKey, 0);
      ImdbSuggestion.SuggestFrame(s, None, SuggestionName, own, title, pv.fetch, pv.decode, InstantResultsKey, 0);
    }
  }

  /**
   * A provider's answer sets no request-error flag but the suggestion
   * client's own, and clears none.
   */
  lemma InstantAnswerFlag(s: Snapshot, api: string, title: string, pv: Providers, own: int, name: string)
    ensures Suppressed(s, name, own) ==> Suppressed(InstantAnswer(s, api, title, pv, own).1, name, own)
    ensures '-' !in name && name != SuggestionName ==>
              Suppressed(InstantAnswer(s, api, title, pv, own).1, name, own) == Suppressed(s, name, own)
  {
    if Lower(api) == SuggestionName {
      ImdbSuggestion.SuggestFrame(s, None, SuggestionName, own, title, pv.fetch, pv.decode, ErrorKey(name), ErrorWindow);
      if '-' !in name && name != SuggestionName {
        SuggestionNameUndashed();
        ForeignKeys(SuggestionName, name, "error:" + name);
      }
    }
  }

  /**
   * The providers' instant-search loop: each provider whose error flag is
   * not live is asked, and its answers are absorbed; the ids come back in
   * order.
   */
  function InstantOver(st: Store, apis: seq<string>, title: string, pv: Providers, own: int): (Store, seq<string>)
    decreases |apis|
  {
    if apis == [] then (st, [])
    else InstantStep(InstantOver(st, apis[..|apis| - 1], title, pv, own), apis[|apis| - 1], title, pv, own)
  }

  /** One provider's turn in the instant-search loop. */
  function InstantStep(p: (Store, seq<string>), api: string, title: string, pv: Providers, own: int): (Store, seq<string>)
  {
    if Suppressed(p.0.cache, Lower(api), own) then p
    else
      var a := InstantAnswer(p.0.cache, api, title, pv, own);
      (AbsorbAll(p.0.(cache := a.1), a.0, own), p.1 + Ids(a.0))
  }

  /**
   * The providers alone, from cache state `s`: the ids the providers not
   * switched off answer, in order, and the cache as the providers leave it,
   * without the component's writes of its own dictionaries.
   */
  function Answered(s: Snapshot, apis: seq<string>, title: string, pv: Providers, own: int): (seq<string>, Snapshot)
    decreases |apis|
  {
    if apis == [] then ([], s)
    else
      var p := Answered(s, apis[..|apis| - 1], title, pv, own);
      var api := apis[|apis| - 1];
      if Suppressed(p.1, Lower(api), own) then p
      else
        var a := InstantAnswer(p.1, api, title, pv, own);
        (p.0 + Ids(a.0), a.1)
  }

  /** Absorbing records writes only the instant-results key. */
  lemma {:induction false} AbsorbAllAgrees(st: Store, ms: seq<Movie>, own: int)
    ensures AgreeOutside(AbsorbAll(st, ms, own).cache, st.cache, StoreKeys)
    decreases |ms|
  {
    if ms != [] {
      var init := ms[..|ms| - 1];
      var prev := AbsorbAll(st, init, own);
      AbsorbAllAgrees(st, init, own);
      var byId := Absorb(prev.instant, ms[|ms| - 1]);
      AgreeOutsideStored(prev.cache, prev.cache, StoreKeys, InstantResultsKey, Records(byId), 0, own);
    }
  }

  /**
   * The instant loop sets no request-error flag but the suggestion
   * client's own, and clears none: every other provider's flag is as it
   * was, and a live flag stays live.
   */
  lemma {:induction false} InstantOverFlag(st: Store, apis: seq<string>, title: string, pv: Providers, own: int, name: string)
    ensures Suppressed(st.cache, name, own) ==> Suppressed(InstantOver(st, apis, title, pv, own).0.cache, name, own)
    ensures '-' !in name && name != SuggestionName ==>
              Suppressed(InstantOver(st, apis, title, pv, own).0.cache, name, own) == Suppressed(st.cache, name, own)
    decreases |apis|
  {
    if apis != [] {
      var init := apis[..|apis| - 1];
      var api := apis[|apis| - 1];
      InstantOverFlag(st, init, title, pv, own, name);
      var prev := InstantOver(st, init, title, pv, own);
      if !Suppressed(prev.0.cache, Lower(api), own) {
        var a := InstantAnswer(prev.0.cache, api, title, pv, own);
        InstantAnswerFlag(prev.0.cache, api, title, pv, own, name);
        AbsorbAllFlag(prev.0.(cache := a.1), a.0, own, name);
      }
    }
  }

  /**
   * The loop answers exactly the ids of the providers alone, leaves the
   * cache as they leave it outside the two dictionary keys, keeps the
   * movies, and adds the answered ids to the instant results while keeping
   * every other entry.
   */
  lemma {:induction false} InstantOverIds(st: Store, apis: seq<string>, title: string, pv: Providers, own: int)
    ensures InstantOver(st, apis, title, pv, own).1 == Answered(st.cache, apis, title, pv, own).0
    ensures AgreeOutside(InstantOver(st, apis, title, pv, own).0.cache, Answered(st.cache, apis, title, pv, own).1, StoreKeys)
    ensures InstantOver(st, apis, title, pv, own).0.movies == st.movies
    ensures forall k :: k in InstantOver(st, apis, title, pv, own).0.instant <==>
              k in st.instant || k in InstantOver(st, apis, title, pv, own).1
    ensures forall k :: k in st.instant && k !in InstantOver(st, apis, title, pv, own).1 ==>
              InstantOver(st, apis, title, pv, own).0.instant[k] == st.instant[k]
    decreases |apis|
  {
    if apis != [] {
      var init := apis[..|apis| - 1];
      var api := apis[|apis| - 1];
      InstantOverIds(st, init, title, pv, own);
      var prev := InstantOver(st, init, title, pv, own);
      var pa := Answered(st.cache, init, title, pv, own);
      StoreKeysApart(Lower(api));
      AgreeOutsideServed(prev.0.cache, pa.1, StoreKeys, ErrorKey(Lower(api)), ErrorWindow, own);
      if !Suppressed(prev.0.cache, Lower(api), own) {
        var a := InstantAnswer(prev.0.cache, api, title, pv, own);
        InstantAnswerAgrees(prev.0.cache, pa.1, api, title, pv, own);
        AbsorbAllKeys(prev.0.(cache := a.1), a.0, own);
        AbsorbAllAgrees(prev.0.(cache := a.1), a.0, own);
      }
    }
  }

  lemma {:induction false} InstantOverPersists(st: Store, apis: seq<string>, title: string, pv: Providers, own: int)
    ensures Persisted(st, own) ==> Persisted(InstantOver(st, apis, title, pv, own).0, own)
    decreases |apis|
  {
    if apis != [] {
      var init := apis[..|apis| - 1];
      var api := apis[|apis| - 1];
      InstantOverPersists(st, init, title, pv, own);
      var prev := InstantOver(st, init, title, pv, own);
      if !Suppressed(prev.0.cache, Lower(api), own) {
        var a := InstantAnswer(prev.0.cache, api, title, pv, own);
        InstantAnswerKeepsStore(prev.0.cache, api, title, pv, own);
        AbsorbAllPersists(prev.0.(cache := a.1), a.0, own);
      }
    }
  }

  /**
   * `instantSearch($title, $apis)`: the state after it and the records it
   * returns — the instant results under the ids found by this search.
   */
  function InstantSearched(st: Store, title: string, apis: seq<string>, pv: Providers, own: int): (Store, map<string, Movie>)
  {
    var q := Query(title);
    if q.None? then (st, map[])
    else
      var p := InstantOver(st, Chosen(apis, InstantSearchApis), q.value, pv, own);
      (p.0, Restricted(p.0.instant, p.1))
  }

  /**
   * An instant search returns exactly the records with the ids that the
   * providers not switched off answered, as merged into the instant
   * results; it keeps every earlier instant result, leaves the movies alone
   * and keeps the cache mirroring the store. A blank title changes nothing.
   */
  lemma InstantSearchFinds(st: Store, title: string, apis: seq<string>, pv: Providers, own: int)
    ensures Query(title).None? ==> InstantSearched(st, title, apis, pv, own) == (st, map[])
    ensures Query(title).Some? ==> forall k :: k in InstantSearched(st, title, apis, pv, own).1 <==>
              k in Answered(st.cache, Chosen(apis, InstantSearchApis), Query(title).value, pv, own).0
    ensures forall k :: k in InstantSearched(st, title, apis, pv, own).1 ==>
              InstantSearched(st, title, apis, pv, own).1[k] == InstantSearched(st, title, apis, pv, own).0.instant[k]
    ensures st.instant.Keys <= InstantSearched(st, title, apis, pv, own).0.instant.Keys
    ensures InstantSearched(st, title, apis, pv, own).0.movies == st.movies
    ensures Persisted(st, own) ==> Persisted(InstantSearched(st, title, apis, pv, own).0, own)
  {
    if Query(title).Some? {
      InstantOverIds(st, Chosen(apis, InstantSearchApis), Query(title).value, pv, own);
      InstantOverPersists(st, Chosen(apis, InstantSearchApis), Query(title).value, pv, own);
    }
  }

  /**
   * With the default providers, a search whose suggestion client is
   * unreachable answers no ids and only sets the client's error flag.
   */
  lemma HostFailureFlags(st: Store, q: string, pv: Providers, own: int)
    requires st.cache.State?
    requires !Suppressed(st.cache, SuggestionName, own)
    requires Served(st.cache, CacheKey(SuggestionName, Some(ImdbSuggestion.SuggestionUrl(q))), 0, own).None?
    requires pv.fetch(ImdbSuggestion.SuggestionUrl(q)).Failed? && pv.fetch(ImdbSuggestion.SuggestionUrl(q)).statusCode == 6
    ensures InstantOver(st, InstantSearchApis, q, pv, own) == (st.(cache := Flagged(st.cache, SuggestionName, own)), [])
  {
    var o := ImdbSuggestion.Suggest(st.cache, None, SuggestionName, own, q, pv.fetch, pv.decode);
    ImdbSuggestion.HostFailureSuppresses(st.cache, None, SuggestionName, own, q, pv.fetch, pv.decode);
    ImdbSuggestion.EmptyAnswerNotCached(st.cache, None, SuggestionName, own, q, pv.fetch, pv.decode);
    assert o.movies == [] && o.cache == Flagged(st.cache, SuggestionName, own);
    assert InstantAnswer(st.cache, ImdbSuggestionApiClass, q, pv, own) == (o.movies, o.cache);
    assert InstantSearchApis[..0] == [];
    assert InstantOver(st, InstantSearchApis, q, pv, own) == InstantStep((st, []), ImdbSuggestionApiClass, q, pv, own);
  }

  /**
   * While the suggestion client's flag is live, an instant search with the
   * default providers returns nothing and changes nothing.
   */
  lemma SuppressedSearchSkips(st: Store, title: string, pv: Providers, own: int)
    requires Suppressed(st.cache, SuggestionName, own)
    ensures InstantSearched(st, title, [], pv, own) == (st, map[])
  {
    if Query(title).Some? {
      assert InstantSearchApis[..0] == [];
      assert InstantOver(st, InstantSearchApis, Query(title).value, pv, own) == (st, []);
      RestrictedToNone(st.instant);
    }
  }

  /**
   * A failed host lookup switches the suggestion client off for the
   * instant searches that follow. A search with the default providers that
   * finds the client on, its URL not cached and the host unresolvable
   * returns nothing; every instant search with the default providers in the
   * next `ErrorWindow` seconds skips the client, returns nothing and
   * changes nothing, whatever the service would answer then.
   */
  lemma HostFailureSkipsNextSearch(st: Store, title: string, pv: Providers, own: int, dt: nat, title2: string, pv2: Providers)
    requires st.cache.State? && Query(title).Some?
    requires !Suppressed(st.cache, SuggestionName, own)
    requires Served(st.cache, CacheKey(SuggestionName, Some(ImdbSuggestion.SuggestionUrl(Query(title).value))), 0, own).None?
    requires pv.fetch(ImdbSuggestion.SuggestionUrl(Query(title).value)).Failed?
    requires pv.fetch(ImdbSuggestion.SuggestionUrl(Query(title).value)).statusCode == 6
    requires dt < ErrorWindow
    ensures InstantSearched(st, title, [], pv, own).1 == map[]
    ensures var after := InstantSearched(st, title, [], pv, own).0;
            var later := after.(cache := Later(after.cache, dt));
            Suppressed(later.cache, SuggestionName, own) && InstantSearched(later, title2, [], pv2, own) == (later, map[])
  {
    HostFailureFlags(st, Query(title).value, pv, own);
    var after := st.(cache := Flagged(st.cache, SuggestionName, own));
    RestrictedToNone(after.instant);
    FlagLastsWindow(st.cache, SuggestionName, own, dt);
    SuppressedSearchSkips(after.(cache := Later(after.cache, dt)), title2, pv2, own);
  }

  /**
   * `instantSearch` as written: it returns `getInstantResults($ids)`, and an
   * empty id list selects every instant result.
   */
  function InstantSearchedAsWritten(st: Store, title: string, apis: seq<string>, pv: Providers, own: int): (Store, map<string, Movie>)
  {
    var q := Query(title);
    if q.None? then (st, map[])
    else
      var p := InstantOver(st, Chosen(apis, InstantSearchApis), q.value, pv, own);
      (p.0, Selection(p.0.instant, p.1))
  }

  /**
   * As written, a search that no provider answers returns every instant
   * result of earlier searches.
   */
  lemma NoHitsReturnEarlierResults(st: Store, title: string, apis: seq<string>, pv: Providers, own: int)
    requires Query(title).Some?
    requires Answered(st.cache, Chosen(apis, InstantSearchApis), Query(title).value, pv, own).0 == []
    ensures InstantSearchedAsWritten(st, title, apis, pv, own).1.Keys == st.instant.Keys
    ensures InstantSearched(st, title, apis, pv, own).1 == map[]
  {
    var chosen := Chosen(apis, InstantSearchApis);
    var q := Query(title).value;
    var p := InstantOver(st, chosen, q, pv, own);
    NoIdsKeepKeys(st, chosen, q, pv, own);
    RestrictedToNone(p.0.instant);
  }

  lemma RestrictedToNone(byId: map<string, Movie>)
    ensures Restricted(byId, []) == map[]
  {
    assert Restricted(byId, []).Keys == {};
  }

  lemma NoIdsKeepKeys(st: Store, apis: seq<string>, title: string, pv: Providers, own: int)
    requires Answered(st.cache, apis, title, pv, own).0 == []
    ensures InstantOver(st, apis, title, pv, own).1 == []
    ensures InstantOver(st, apis, title, pv, own).0.instant.Keys == st.instant.Keys
  {
    InstantOverIds(st, apis, title, pv, own);
  }

  /**
   * The providers' by-id loop shared by `instantSearchById` and `search`:
   * each provider whose error flag is not live and that answers has its
   * record absorbed into the target dictionary.
   */
  function Gathered(st: Store, target: Target, apis: seq<string>, id: string, answers: (string, string) -> Option<Movie>, own: int): Store
    decreases |apis|
  {
    if apis == [] then st
    else
      var prev := Gathered(st, target, apis[..|apis| - 1], id, answers, own);
      var api := apis[|apis| - 1];
      if Suppressed(prev.cache, Lower(api), own) || answers(api, id).None? then prev
      else Updated(prev, target, answers(api, id).value, own)
  }

  /** The records the providers not switched off in cache state `s` answer, in order. */
  function Answers(s: Snapshot, apis: seq<string>, id: string, answers: (string, string) -> Option<Movie>, own: int): seq<Movie>
    decreases |apis|
  {
    if apis == [] then []
    else
      var api := apis[|apis| - 1];
      Answers(s, apis[..|apis| - 1], id, answers, own)
      + (if Suppressed(s, Lower(api), own) || answers(api, id).None? then [] else [answers(api, id).value])
  }

  lemma {:induction false} GatheredFlag(st: Store, target: Target, apis: seq<string>, id: string, answers: (string, string) -> Option<Movie>, own: int, name: string)
    ensures Suppressed(Gathered(st, target, apis, id, answers, own).cache, name, own) == Suppressed(st.cache, name, own)
    decreases |apis|
  {
    if apis != [] {
      var init := apis[..|apis| - 1];
      var api := apis[|apis| - 1];
      GatheredFlag(st, target, init, id, answers, own, name);
      var prev := Gathered(st, target, init, id, answers, own);
      if !Suppressed(prev.cache, Lower(api), own) && answers(api, id).Some? {
        UpdatedFlag(prev, target, answers(api, id).value, own, name);
      }
    }
  }

  lemma {:induction false} GatheredKeys(st: Store, target: Target, apis: seq<string>, id: string, answers: (string, string) -> Option<Movie>, own: int)
    ensures forall k :: k in Held(Gathered(st, target, apis, id, answers, own), target) <==>
              k in Held(st, target) || k in Ids(Answers(st.cache, apis, id, answers, own))
    ensures target == MoviesList ==> Gathered(st, target, apis, id, answers, own).instant == st.instant
    ensures target == InstantList ==> Gathered(st, target, apis, id, answers, own).movies == st.movies
    decreases |apis|
  {
    if apis != [] {
      var init := apis[..|apis| - 1];
      var api := apis[|apis| - 1];
      GatheredKeys(st, target, init, id, answers, own);
      GatheredFlag(st, target, init, id, answers, own, Lower(api));
      var prev := Gathered(st, target, init, id, answers, own);
      var before := Answers(st.cache, init, id, answers, own);
      if !Suppressed(prev.cache, Lower(api), own) && answers(api, id).Some? {
        var movie := answers(api, id).value;
        assert Answers(st.cache, apis, id, answers, own) == before + [movie];
        UpdatedKeys(prev, target, movie, own);
        IdsConcat(before, [movie]);
        assert Ids([movie]) == [Key(movie)];
      } else {
        assert Answers(st.cache, apis, id, answers, own) == before;
      }
    }
  }

  lemma {:induction false} GatheredPersists(st: Store, target: Target, apis: seq<string>, id: string, answers: (string, string) -> Option<Movie>, own: int)
    ensures Persisted(st, own) ==> Persisted(Gathered(st, target, apis, id, answers, own), own)
    decreases |apis|
  {
    if apis != [] {
      var init := apis[..|apis| - 1];
      var api := apis[|apis| - 1];
      GatheredPersists(st, target, init, id, answers, own);
      var prev := Gathered(st, target, init, id, answers, own);
      if !Suppressed(prev.cache, Lower(api), own) && answers(api, id).Some? {
        UpdatedPersists(prev, target, answers(api, id).value, own);
      }
    }
  }

  /**
   * `instantSearchById($id, $apis)`: an id already among the instant
   * results is served as it is; one among the movies is copied over;
   * otherwise the providers are asked.
   */
  function InstantSearchedById(st: Store, id: string, apis: seq<string>, answers: (string, string) -> Option<Movie>, own: int): (Store, Option<Movie>)
  {
    var q := Query(id);
    if q.None? then (st, None)
    else
      var t := q.value;
      var s := if t in st.instant then st
               else if t in st.movies then Updated(st, InstantList, st.movies[t], own)
               else Gathered(st, InstantList, Chosen(apis, InstantSearchByIdApis), t, answers, own);
      (s, Found(s.instant, t))
  }

  /**
   * An id search serves a held instant result without asking anyone; a
   * record held among the movies is returned as it is; otherwise it finds
   * a record exactly when a provider not switched off answers one with
   * that id. The movies are never changed and the cache keeps mirroring.
   */
  lemma InstantSearchByIdFinds(st: Store, id: string, apis: seq<string>, answers: (string, string) -> Option<Movie>, own: int)
    ensures Query(id).None? ==> InstantSearchedById(st, id, apis, answers, own) == (st, None)
    ensures Query(id).Some? && Query(id).value in st.instant ==>
              InstantSearchedById(st, id, apis, answers, own) == (st, Some(st.instant[Query(id).value]))
    ensures Query(id).Some? && Query(id).value !in st.instant && Query(id).value in st.movies && Indexed(st.movies) ==>
              InstantSearchedById(st, id, apis, answers, own).1 == Some(st.movies[Query(id).value])
    ensures Query(id).Some? && Query(id).value !in st.instant && Query(id).value !in st.movies ==>
              (InstantSearchedById(st, id, apis, answers, own).1.Some? <==>
                 Query(id).value in Ids(Answers(st.cache, Chosen(apis, InstantSearchByIdApis), Query(id).value, answers, own)))
    ensures InstantSearchedById(st, id, apis, answers, own).0.movies == st.movies
    ensures Persisted(st, own) ==> Persisted(InstantSearchedById(st, id, apis, answers, own).0, own)
  {
    if Query(id).Some? {
      var t := Query(id).value;
      if t !in st.instant {
        if t in st.movies {
          UpdatedKeys(st, InstantList, st.movies[t], own);
          UpdatedPersists(st, InstantList, st.movies[t], own);
          AbsorbIndexed(st.instant, st.movies[t]);
        } else {
          GatheredKeys(st, InstantList, Chosen(apis, InstantSearchByIdApis), t, answers, own);
          GatheredPersists(st, InstantList, Chosen(apis, InstantSearchByIdApis), t, answers, own);
        }
      }
    }
  }

  /** `search($id, $apis)`: every answering provider's record is absorbed into the movies. */
  function Searched(st: Store, id: string, apis: seq<string>, answers: (string, string) -> Option<Movie>, own: int): (Store, Option<Movie>)
  {
    var q := Query(id);
    if q.None? then (st, None)
    else
      var s := Gathered(st, MoviesList, Chosen(apis, SearchApis), q.value, answers, own);
      (s, Found(s.movies, q.value))
  }

  /**
   * A search finds a record exactly when the id was held among the movies
   * or a provider not switched off answered one with that id; it keeps
   * every movie held, never touches the instant results and keeps the
   * cache mirroring the store. A blank id changes nothing.
   */
  lemma SearchFinds(st: Store, id: string, apis: seq<string>, answers: (string, string) -> Option<Movie>, own: int)
    ensures Query(id).None? ==> Searched(st, id, apis, answers, own) == (st, None)
    ensures Query(id).Some? ==>
              (Searched(st, id, apis, answers, own).1.Some? <==>
                 Query(id).value in st.movies
                 || Query(id).value in Ids(Answers(st.cache, Chosen(apis, SearchApis), Query(id).value, answers, own)))
    ensures forall k :: k in st.movies ==> k in Searched(st, id, apis, answers, own).0.movies
    ensures Searched(st, id, apis, answers, own).0.instant == st.instant
    ensures Persisted(st, own) ==> Persisted(Searched(st, id, apis, answers, own).0, own)
  {
    if Query(id).Some? {
      var t := Query(id).value;
      var chosen := Chosen(apis, SearchApis);
      GatheredKeys(st, MoviesList, chosen, t, answers, own);
      GatheredPersists(st, MoviesList, chosen, t, answers, own);
      var s := Gathered(st, MoviesList, chosen, t, answers, own);
      assert Held(s, MoviesList) == s.movies && Held(st, MoviesList) == st.movies;
      assert Searched(st, id, apis, answers, own) == (s, Found(s.movies, t));
    }
  }

  /** The component (`MovieInfoComponent`). */
  class MovieInfoComponent {
    /** `_movies`: full records by IMDb id. */
    var movies: map<string, Movie>
    /** `_instantResults`: partial records by IMDb id. */
    var instantResults: map<string, Movie>
    /** `cacheDuration`: seconds to keep entries; 0 stands for `false` (caching off). */
    var cacheDuration: int
    /** The application cache; null when the application has none. */
    const cache: Cache?

    function State(): Store
      reads this, cache
    {
      Store(movies, instantResults, Snap(cache))
    }

    /** `__construct($cacheDuration)`: loads both dictionaries from the cache when they are there. */
    constructor(cacheDuration: Option<int>, cache: Cache?)
      ensures this.cacheDuration == if cacheDuration.Some? then cacheDuration.value else DefaultCacheDuration
      ensures this.cache == cache
      ensures State() == Loaded(Snap(cache), this.cacheDuration)
      ensures Persisted(State(), this.cacheDuration)
    {
      var own := if cacheDuration.Some? then cacheDuration.value else DefaultCacheDuration;
      var m := FromCache(cache, MoviesKey, 0, own);
      var i := FromCache(cache, InstantResultsKey, 0, own);
      this.cacheDuration := own;
      this.cache := cache;
      movies := if m.Some? && m.value.Records? then m.value.byId else map[];
      instantResults := if i.Some? && i.value.Records? then i.value.byId else map[];
    }

    /** `hasMovies()`. */
    function HasMovies(): (r: bool)
      reads this
      ensures r <==> exists id :: GetMovie(id).Some?
    {
      if movies == map[] then false
      else
        var id :| id in movies;
        assert GetMovie(id).Some?;
        true
    }

    /** `getMovie($id)`. */
    function GetMovie(id: string): Option<Movie>
      reads this
    {
      Found(movies, id)
    }

    /** `getMovies($ids)`. */
    function GetMovies(ids: seq<string>): (r: map<string, Movie>)
      reads this
      ensures forall k :: k in r ==> GetMovie(k) == Some(r[k])
      ensures ids != [] ==> forall k :: k in r <==> GetMovie(k).Some? && k in ids
      ensures ids == [] ==> forall k :: k in r <==> GetMovie(k).Some?
    {
      Selection(movies, ids)
    }

    /** `hasInstantResults()`. */
    function HasInstantResults(): (r: bool)
      reads this
      ensures r <==> exists id :: GetInstantResult(id).Some?
    {
      if instantResults == map[] then false
      else
        var id :| id in instantResults;
        assert GetInstantResult(id).Some?;
        true
    }

    /** `getInstantResult($id)`. */
    function GetInstantResult(id: string): Option<Movie>
      reads this
    {
      Found(instantResults, id)
    }

    /** `getInstantResults($ids)`. */
    function GetInstantResults(ids: seq<string>): (r: map<string, Movie>)
      reads this
      ensures forall k :: k in r ==> GetInstantResult(k) == Some(r[k])
      ensures ids != [] ==> forall k :: k in r <==> GetInstantResult(k).Some? && k in ids
      ensures ids == [] ==> forall k :: k in r <==> GetInstantResult(k).Some?
    {
      Selection(instantResults, ids)
    }

    /** `updateMovies($movie, $api)`: inserts or merges, writes the movies through, returns the id. */
    method UpdateMovies(movie: Movie) returns (id: string)
      modifies this, cache
      ensures State() == Updated(old(State()), MoviesList, movie, old(cacheDuration))
      ensures cacheDuration == old(cacheDuration)
      ensures id == Key(movie) && GetMovie(id).Some?
    {
      id := Key(movie);
      if id !in movies {
        movies := movies[id := movie];
      } else {
        var merged := MergeMovies(movies[id], movie);
        movies := movies[id := merged];
      }
      StoreToCache(cache, MoviesKey, Records(movies), 0, cacheDuration);
    }

    /**
     * `updateInstantResults($movie, $api)`, writing the instant results
     * through under their own key.
     */
    method UpdateInstantResults(movie: Movie) returns (id: string)
      modifies this, cache
      ensures State() == Updated(old(State()), InstantList, movie, old(cacheDuration))
      ensures cacheDuration == old(cacheDuration)
      ensures id == Key(movie) && GetInstantResult(id).Some?
    {
      id := Key(movie);
      if id !in instantResults {
        instantResults := instantResults[id := movie];
      } else {
        var merged := MergeMovies(instantResults[id], movie);
        instantResults := instantResults[id := merged];
      }
      StoreToCache(cache, InstantResultsKey, Records(instantResults), 0, cacheDuration);
    }

    /** `clearMovies()`, deleting the movies' cache entry. */
    method ClearMovies()
      modifies this, cache
      ensures State() == Cleared(old(State()), MoviesList)
      ensures cacheDuration == old(cacheDuration)
    {
      movies := map[];
      DeleteCache(cache, MoviesKey);
    }

    /** `clearInstantResults()`. */
    method ClearInstantResults()
      modifies this, cache
      ensures State() == Cleared(old(State()), InstantList)
      ensures cacheDuration == old(cacheDuration)
    {
      instantResults := map[];
      DeleteCache(cache, InstantResultsKey);
    }

    /** `setMovies($movies)`: replaces the movies without writing them to the cache. */
    method SetMovies(byId: map<string, Movie>)
      modifies this
      ensures movies == byId && instantResults == old(instantResults) && cacheDuration == old(cacheDuration)
    {
      movies := byId;
    }

    /** The inner loop of `instantSearch`: absorbs one provider's answers in order. */
    method AbsorbInstantResults(ms: seq<Movie>) returns (ids: seq<string>)
      modifies this, cache
      ensures State() == AbsorbAll(old(State()), ms, old(cacheDuration))
      ensures ids == Ids(ms)
      ensures cacheDuration == old(cacheDuration)
    {
      ghost var st0 := State();
      ids := [];
      for i := 0 to |ms|
        invariant cacheDuration == old(cacheDuration)
        invariant State() == AbsorbAll(st0, ms[..i], cacheDuration)
        invariant ids == Ids(ms[..i])
      {
        ghost var before := State();
        assert ms[..i + 1][..i] == ms[..i];
        assert AbsorbAll(st0, ms[..i + 1], cacheDuration) == Updated(before, InstantList, ms[i], cacheDuration);
        IdsSnoc(ms[..i + 1]);
        var id := UpdateInstantResults(ms[i]);
        ids := ids + [id];
      }
      assert ms[..|ms|] == ms;
    }

    /**
     * One turn of the provider loop of `instantSearch`: a fresh client of
     * the provider class with the component's cache duration is asked
     * unless its error flag is live, and its answers are absorbed.
     */
    method AskForInstantResults(apiClass: string, title: string, pv: Providers, ids: seq<string>)
      returns (ids': seq<string>)
      modifies this, cache
      ensures (State(), ids') == InstantStep((old(State()), ids), apiClass, title, pv, old(cacheDuration))
      ensures cacheDuration == old(cacheDuration)
    {
      var api := new BaseApi(apiClass, Some(cacheDuration), cache);
      var failing := api.HasRequestErrors();
      ids' := ids;
      if !failing {
        var answer;
        if Lower(apiClass) == SuggestionName {
          answer := ImdbSuggestion.InstantSearch(api, title, pv.fetch, pv.decode);
        } else {
          answer := pv.others(apiClass, title);
        }
        var more := AbsorbInstantResults(answer);
        ids' := ids + more;
      }
    }

    /** `instantSearch($title, $apis)`, returning the records this search found. */
    method InstantSearch(title: string, apis: seq<string>, pv: Providers)
      returns (found: map<string, Movie>)
      modifies this, cache
      ensures (State(), found) == InstantSearched(old(State()), title, apis, pv, old(cacheDuration))
      ensures cacheDuration == old(cacheDuration)
    {
      var q := Query(title);
      if q.None? {
        return map[];
      }
      var ids := AskAllForInstantResults(Chosen(apis, InstantSearchApis), q.value, pv);
      found := Restricted(instantResults, ids);
    }

    /** The provider loop of `instantSearch`: the ids every provider asked answers, in order. */
    method AskAllForInstantResults(apis: seq<string>, title: string, pv: Providers)
      returns (ids: seq<string>)
      modifies this, cache
      ensures (State(), ids) == InstantOver(old(State()), apis, title, pv, old(cacheDuration))
      ensures cacheDuration == old(cacheDuration)
    {
      ghost var st0 := State();
      ids := [];
      for i := 0 to |apis|
        invariant cacheDuration == old(cacheDuration)
        invariant (State(), ids) == InstantOver(st0, apis[..i], title, pv, cacheDuration)
      {
        assert apis[..i + 1][..i] == apis[..i];
        ids := AskForInstantResults(apis[i], title, pv, ids);
      }
      assert apis[..|apis|] == apis;
    }

    /**
     * The by-id loop of `instantSearchById` and `search`: asks each provider
     * whose error flag is not live and absorbs what it answers.
     */
    method Gather(target: Target, apis: seq<string>, id: string, answers: (string, string) -> Option<Movie>)
      modifies this, cache
      ensures State() == Gathered(old(State()), target, apis, id, answers, old(cacheDuration))
      ensures cacheDuration == old(cacheDuration)
    {
      ghost var st0 := State();
      for i := 0 to |apis|
        invariant cacheDuration == old(cacheDuration)
        invariant State() == Gathered(st0, target, apis[..i], id, answers, cacheDuration)
      {
        assert apis[..i + 1][..i] == apis[..i];
        var api := new BaseApi(apis[i], Some(cacheDuration), cache);
        var failing := api.HasRequestErrors();
        if !failing && answers(apis[i], id).Some? {
          var movie := answers(apis[i], id).value;
          if target == MoviesList {
            var _ := UpdateMovies(movie);
          } else {
            var _ := UpdateInstantResults(movie);
          }
        }
      }
      assert apis[..|apis|] == apis;
    }

    /** `instantSearchById($id, $apis)`. */
    method InstantSearchById(id: string, apis: seq<string>, answers: (string, string) -> Option<Movie>)
      returns (r: Option<Movie>)
      modifies this, cache
      ensures (State(), r) == InstantSearchedById(old(State()), id, apis, answers, old(cacheDuration))
      ensures cacheDuration == old(cacheDuration)
    {
      var q := Query(id);
      if q.None? {
        return None;
      }
      var t := q.value;
      if GetInstantResult(t).None? {
        var held := GetMovie(t);
        if held.Some? {
          var _ := UpdateInstantResults(held.value);
        } else {
          Gather(InstantList, Chosen(apis, InstantSearchByIdApis), t, answers);
        }
      }
      r := GetInstantResult(t);
    }

    /** `search($id, $apis)`. */
    method Search(id: string, apis: seq<string>, answers: (string, string) -> Option<Movie>)
      returns (r: Option<Movie>)
      modifies this, cache
      ensures (State(), r) == Searched(old(State()), id, apis, answers, old(cacheDuration))
      ensures cacheDuration == old(cacheDuration)
    {
      var q := Query(id);
      if q.None? {
        return None;
      }
      Gather(MoviesList, Chosen(apis, SearchApis), q.value, answers);
      r := GetMovie(q.value);
    }
  }
}
