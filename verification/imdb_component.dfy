/**
 * The older IMDb client (`ImdbComponent`): for each configured provider
 * (imdbapi.org, omdbapi.com) it selects the search parameters the provider
 * understands, builds the request URL, answers from the application cache
 * or performs the request, classifies failures into an error message, maps
 * the response onto an `ImdbMovie` record and appends it to a list.
 *
 * The transport, JSON decoding and the digest used in cache keys are
 * parameters (`Net`).
 */
module Imdb {
  import opened PhpStrings
  import opened PhpValues
  import opened CacheStore
  import opened UrlQuery
  import opened CurlApi

  /** `ImdbComponent::CACHE_KEY`. */
  const CacheKeyPrefix: string := "imdb-component-"

  /** The default `cacheDuration`, in seconds. */
  const DefaultCacheDuration: int := 600

  /** The exception message when no search parameter applies. */
  const NoParamsMessage: string := "At least one valid search param should be set"

  /** The 17 public fields of `ImdbMovie`. */
  datatype ImdbField =
    | Id | Url | Title | Aka | Rating | Votes | Genre | Plot | Language
    | Country | Image | Year | Runtime | Director | Writer | Actor | Rated

  const FieldCount: nat := 17

  /** The field declared at position `k` of `ImdbMovie` (both response mappings list them in this order). */
  function FieldAt(k: nat): ImdbField
    requires k < FieldCount
  {
    if k == 0 then Id else if k == 1 then Url else if k == 2 then Title else if k == 3 then Aka
    else if k == 4 then Rating else if k == 5 then Votes else if k == 6 then Genre else if k == 7 then Plot
    else if k == 8 then Language else if k == 9 then Country else if k == 10 then Image
    else if k == 11 then Year else if k == 12 then Runtime else if k == 13 then Director
    else if k == 14 then Writer else if k == 15 then Actor else Rated
  }

  /** The position of a field in `ImdbMovie`. */
  function Rank(f: ImdbField): (k: nat)
    ensures k < FieldCount && FieldAt(k) == f
  {
    match f
    case Id => 0 case Url => 1 case Title => 2 case Aka => 3 case Rating => 4 case Votes => 5
    case Genre => 6 case Plot => 7 case Language => 8 case Country => 9 case Image => 10
    case Year => 11 case Runtime => 12 case Director => 13 case Writer => 14 case Actor => 15
    case Rated => 16
  }

  /** Positions name distinct fields. */
  lemma FieldAtInjective(i: nat, j: nat)
    requires i < FieldCount && j < FieldCount && i != j
    ensures FieldAt(i) != FieldAt(j)
  {
  }

  /** An `ImdbMovie` record: a value for every field. */
  type ImdbMovie = map<ImdbField, Json>

  const AllFields: set<ImdbField> := set k | 0 <= k < FieldCount :: FieldAt(k)

  lemma AllFieldsListed()
    ensures forall f :: f in AllFields
  {
    forall f
      ensures f in AllFields
    {
      assert FieldAt(Rank(f)) == f;
    }
  }

  /** `new ImdbMovie()`: every field null. */
  function NewImdbMovie(): (m: ImdbMovie)
    ensures forall f :: f in m && m[f] == Null
  {
    AllFieldsListed();
    map f | f in AllFields :: Null
  }

  /** A search dimension of `search($title, $year, $id)`. */
  datatype Dimension = ById | ByTitle | ByYear

  /** The providers of the `apiOptions` table. */
  datatype Provider = ImdbApi | OmdbApi

  const ImdbApiOrg: string := "imdbapi.org"
  const OmdbApiCom: string := "omdbapi.com"

  /** `array_keys(self::$apiOptions)`: every provider, in table order. */
  const ApiNames: seq<string> := [ImdbApiOrg, OmdbApiCom]

  /** A provider's `endpoint`. */
  function Endpoint(p: Provider): string
  {
    match p
    case ImdbApi => "http://imdbapi.org/"
    case OmdbApi => "http://omdbapi.com/"
  }

  /** A provider's `searchMapping`: the parameter name of each dimension it supports (imdbapi.org has no year). */
  function SearchName(p: Provider, d: Dimension): Option<string>
  {
    match (p, d)
    case (ImdbApi, ById) => Some("id")
    case (ImdbApi, ByTitle) => Some("title")
    case (ImdbApi, ByYear) => None
    case (OmdbApi, ById) => Some("i")
    case (OmdbApi, ByTitle) => Some("t")
    case (OmdbApi, ByYear) => Some("y")
  }

  /** A provider's `responseMapping`: the response entry each field reads, None for `false`. */
  function Source(p: Provider, f: ImdbField): Option<string>
  {
    match p
    case ImdbApi => ImdbApiOrgSource(f)
    case OmdbApi => OmdbApiComSource(f)
  }

  /** The response mapping of imdbapi.org. */
  function ImdbApiOrgSource(f: ImdbField): Option<string>
  {
    match f
    case Id => Some("imdb_id") case Url => Some("imdb_url") case Title => Some("title")
    case Aka => Some("also_known_as") case Rating => Some("rating") case Votes => Some("rating_count")
    case Genre => Some("genres") case Plot => Some("plot_simple") case Language => Some("rated")
    case Country => Some("country") case Image => Some("poster") case Year => Some("year")
    case Runtime => Some("runtime") case Director => Some("directors") case Writer => Some("writers")
    case Actor => Some("actors") case Rated => Some("rated")
  }

  /** The response mapping of omdbapi.com. */
  function OmdbApiComSource(f: ImdbField): Option<string>
  {
    match f
    case Id => Some("imdbID") case Url => None case Title => Some("Title") case Aka => None
    case Rating => Some("imdbRating") case Votes => Some("imdbVotes") case Genre => Some("Genre")
    case Plot => Some("Plot") case Language => None case Country => None case Image => Some("Poster")
    case Year => Some("Year") case Runtime => Some("Runtime") case Director => Some("Director")
    case Writer => Some("Writer") case Actor => Some("Actors") case Rated => Some("Rated")
  }

  /** A provider's `responseMapping` as the ordered list `processResponse` walks. */
  function ResponseMapping(p: Provider): (mapping: seq<(ImdbField, Option<string>)>)
    ensures |mapping| == FieldCount
    ensures forall k :: 0 <= k < FieldCount ==> mapping[k] == (FieldAt(k), Source(p, FieldAt(k)))
  {
    seq(FieldCount, k requires 0 <= k < FieldCount => (FieldAt(k), Source(p, FieldAt(k))))
  }

  /** `self::$apiOptions[$name]`: None for a name the table lacks. */
  function Options(name: string): (o: Option<Provider>)
    ensures o.Some? <==> name in ApiNames
  {
    if name == ImdbApiOrg then Some(ImdbApi)
    else if name == OmdbApiCom then Some(OmdbApi)
    else None
  }

  /** The providers a search asks: the caller's list, or every provider when it is empty. */
  function Providers(apis: seq<string>): (r: seq<string>)
    ensures apis == [] ==> r == ApiNames
    ensures apis != [] ==> r == apis
  {
    if apis == [] then ApiNames else apis
  }

  /** `searchMapping[$d]` of a provider: the parameter name of a dimension, if it has one. */
  function SearchKey(o: Option<Provider>, d: Dimension): Option<string>
  {
    if o.None? then None else SearchName(o.value, d)
  }

  /** A search argument is given when it is truthy (neither null nor `empty()`). */
  predicate Given(v: Option<string>)
  {
    v.Some? && v.value != "" && v.value != "0"
  }

  /** The parameter of one dimension, when it is given and the provider maps it. */
  function ParamFor(o: Option<Provider>, d: Dimension, v: Option<string>): seq<(string, Param)>
  {
    if Given(v) && SearchKey(o, d).Some? then [(SearchKey(o, d).value, Leaf(v.value))] else []
  }

  /** The `$params` of `search` for one provider: id, then title, then year. */
  function SearchParams(o: Option<Provider>, title: Option<string>, year: Option<string>, id: Option<string>): seq<(string, Param)>
  {
    ParamFor(o, ById, id) + ParamFor(o, ByTitle, title) + ParamFor(o, ByYear, year)
  }

  /**
   * A dimension takes part in a search exactly when its argument is given
   * and the provider maps it; no parameter at all means the search throws.
   */
  lemma SearchParamsChosen(o: Option<Provider>, title: Option<string>, year: Option<string>, id: Option<string>)
    ensures SearchParams(o, title, year, id) == [] <==>
              (!Given(id) || SearchKey(o, ById).None?) && (!Given(title) || SearchKey(o, ByTitle).None?)
              && (!Given(year) || SearchKey(o, ByYear).None?)
    ensures forall p :: p in SearchParams(o, title, year, id) ==>
              (Given(id) && SearchKey(o, ById) == Some(p.0) && p.1 == Leaf(id.value))
              || (Given(title) && SearchKey(o, ByTitle) == Some(p.0) && p.1 == Leaf(title.value))
              || (Given(year) && SearchKey(o, ByYear) == Some(p.0) && p.1 == Leaf(year.value))
  {
  }

  /**
   * A year alone is no search for imdbapi.org, which maps no year, but is
   * one for omdbapi.com; an unknown provider never has parameters.
   */
  lemma YearAloneSearches(y: string)
    requires Given(Some(y))
    ensures SearchParams(Options(ImdbApiOrg), None, Some(y), None) == []
    ensures SearchParams(Options(OmdbApiCom), None, Some(y), None) == [("y", Leaf(y))]
    ensures forall name, t, yr, i :: name !in ApiNames ==> SearchParams(Options(name), t, yr, i) == []
  {
  }

  /** `buildUrl($url, $params)`: the endpoint, `?`, then the query string. */
  function BuildUrl(endpoint: string, params: seq<(string, Param)>): (url: string)
    ensures |url| == |endpoint| + 1 + |QueryOf(params, None)|
  {
    endpoint + "?" + QueryOf(params, None)
  }

  /**
   * A built URL splits back at its first `?` into the endpoint and the
   * query string, since no endpoint of the table holds a `?`.
   */
  lemma BuildUrlSplits(name: string, params: seq<(string, Param)>)
    requires Options(name).Some?
    ensures var e := Endpoint(Options(name).value);
            var url := BuildUrl(e, params);
            '?' !in e && url[..|e|] == e && url[|e|] == '?' && url[|e| + 1..] == QueryOf(params, None)
  {
    var e := Endpoint(Options(name).value);
    assert e == "http://imdbapi.org/" || e == "http://omdbapi.com/";
    var url := BuildUrl(e, params);
    assert url == e + "?" + QueryOf(params, None);
  }

  /** The cache key of a request: the prefix and the digest of the URL, or "" with caching off. */
  function RequestKey(cacheDuration: int, url: string, digest: string -> string): string
  {
    if cacheDuration != 0 then CacheKeyPrefix + digest(url) else ""
  }

  /** What a request returns, the error it leaves and the cache after it. */
  datatype Requested = Requested(response: Option<Json>, error: Option<string>, cache: Snapshot)

  /** The injected services: transport by URL, JSON decoding and the cache-key digest. */
  datatype Net = Net(transfer: string -> Transfer, decode: string -> Option<Json>, digest: string -> string)

  /**
   * `makeRequest($url)`: a live cached response is returned as it is;
   * otherwise the transfer's body is decoded and checked for an `error` or
   * `Error` field, and a good response is cached when it is not empty; a
   * failed transfer gives `false` and the error its status maps to.
   */
  function Request(s: Snapshot, cacheDuration: int, url: string, net: Net, error: Option<string>): Requested
  {
    var key := RequestKey(cacheDuration, url, net.digest);
    var hit := Served(s, key, cacheDuration, cacheDuration);
    if hit.Some? && hit.value.Decoded? then Requested(Some(hit.value.j), error, s)
    else
      match net.transfer(url)
      case Completed(body) =>
        var d := net.decode(body);
        if d.None? then Requested(None, Some(NotJsonMessage), s)
        else if !Field(d.value, "error").Null? then Requested(None, Some(StrForm(Field(d.value, "error"))), s)
        else if !Field(d.value, "Error").Null? then Requested(None, Some(StrForm(Field(d.value, "Error"))), s)
        else Requested(d, error, Stored(s, key, Decoded(d.value), cacheDuration, cacheDuration))
      case Failed(code, body) =>
        var msg := if code == 400 then Some(BadRequestMessage(net.decode(body))) else StatusMessage(code);
        Requested(None, if msg.Some? then msg else error, s)
  }

  /** A live cached response answers the request whatever the transport would do. */
  lemma RequestCached(s: Snapshot, cacheDuration: int, url: string, net: Net, error: Option<string>, j: Json)
    requires Served(s, RequestKey(cacheDuration, url, net.digest), cacheDuration, cacheDuration) == Some(Decoded(j))
    ensures Request(s, cacheDuration, url, net, error) == Requested(Some(j), error, s)
    ensures forall t :: Request(s, cacheDuration, url, net.(transfer := t), error) == Requested(Some(j), error, s)
  {
  }

  /**
   * Without a cache hit, a request fails (`false`) exactly when the
   * transfer failed, the body is not JSON, or it carries an `error` or
   * `Error` field; each failure of a completed transfer sets the error.
   */
  lemma RequestOutcome(s: Snapshot, cacheDuration: int, url: string, net: Net, error: Option<string>)
    requires !Served(s, RequestKey(cacheDuration, url, net.digest), cacheDuration, cacheDuration).Some?
    ensures var r := Request(s, cacheDuration, url, net, error);
            var t := net.transfer(url);
            (r.response.None? <==>
               t.Failed? || net.decode(t.body).None?
               || !Field(net.decode(t.body).value, "error").Null? || !Field(net.decode(t.body).value, "Error").Null?)
            && (r.response.Some? ==> r.response == net.decode(t.body) && r.error == error)
            && (t.Completed? && r.response.None? ==> r.error.Some?)
            && (t.Failed? && t.statusCode in {400, 401, 403, 404} ==> r.error.Some?)
            && (t.Failed? && t.statusCode !in {400, 401, 403, 404} ==> r.error == error)
  {
  }

  /**
   * Caching is a round trip: after a fresh request whose response is not
   * empty, with a cache and caching on, the same URL is answered from the
   * cache with that response whatever the transport does; an empty or
   * failed response leaves the cache as it was.
   */
  lemma RequestRoundTrip(s: Snapshot, cacheDuration: int, url: string, net: Net, error: Option<string>, t: string -> Transfer)
    requires !Served(s, RequestKey(cacheDuration, url, net.digest), cacheDuration, cacheDuration).Some?
    ensures var r := Request(s, cacheDuration, url, net, error);
            r.response.Some? && Truthy(r.response.value) && s.State? && cacheDuration != 0 ==>
              Request(r.cache, cacheDuration, url, net.(transfer := t), error) == Requested(r.response, error, r.cache)
    ensures var r := Request(s, cacheDuration, url, net, error);
            r.response.None? || !Truthy(r.response.value) ==> r.cache == s
  {
    var r := Request(s, cacheDuration, url, net, error);
    var key := RequestKey(cacheDuration, url, net.digest);
    if r.response.Some? {
      StoredServed(s, key, Decoded(r.response.value), cacheDuration, cacheDuration, key, cacheDuration);
    }
  }

  /** `$response[0]`: the first element of a list, the entry "0" of an object, else null. */
  function Element0(j: Json): Json
  {
    match j
    case List(items) => if items != [] then items[0] else Null
    case Object(entries) => Lookup(entries, "0")
    case _ => Null
  }

  /** The response `processResponse` maps: element 0 when only it carries a `year`. */
  function Focus(j: Json): (r: Json)
    ensures !Field(j, "year").Null? ==> r == j
    ensures Field(j, "year").Null? && !Field(Element0(j), "year").Null? ==> r == Element0(j)
    ensures Field(j, "year").Null? && Field(Element0(j), "year").Null? ==> r == j
  {
    if Field(j, "year").Null? && !Element0(j).Null? && !Field(Element0(j), "year").Null? then Element0(j) else j
  }

  /** The value one mapping entry assigns, when it assigns one. */
  function Assigned(r: Json, source: Option<string>): Option<Json>
  {
    if source.Some? && Truthy(Field(r, source.value)) then Some(Field(r, source.value)) else None
  }

  /** The record the mapping entries build from response `r`, one entry after another. */
  function Processed(r: Json, mapping: seq<(ImdbField, Option<string>)>): (m: ImdbMovie)
    ensures forall f :: f in m
    decreases |mapping|
  {
    if mapping == [] then NewImdbMovie()
    else
      var m := Processed(r, mapping[..|mapping| - 1]);
      var (f, source) := mapping[|mapping| - 1];
      var v := Assigned(r, source);
      if v.Some? then m[f := v.value] else m
  }

  /** No field appears twice in a response mapping (they are keys of a PHP array). */
  predicate DistinctFields(mapping: seq<(ImdbField, Option<string>)>)
  {
    forall i, j :: 0 <= i < j < |mapping| ==> mapping[i].0 != mapping[j].0
  }

  /**
   * A mapped field holds the response's value under its source name when
   * the source is not `false` and that value is truthy, and stays null
   * otherwise.
   */
  lemma {:induction false} ProcessedAt(r: Json, mapping: seq<(ImdbField, Option<string>)>, i: nat)
    requires DistinctFields(mapping)
    requires i < |mapping|
    ensures Processed(r, mapping)[mapping[i].0] ==
              if Assigned(r, mapping[i].1).Some? then Assigned(r, mapping[i].1).value else Null
    decreases |mapping|
  {
    var init := mapping[..|mapping| - 1];
    if i < |init| {
      assert init[i] == mapping[i];
      ProcessedAt(r, init, i);
    } else if Assigned(r, mapping[i].1).None? {
      ProcessedUnassigned(r, init, mapping[i].0);
    }
  }

  /** A field no entry assigns (unmapped, or mapped only to `false`) stays null. */
  lemma {:induction false} ProcessedUnassigned(r: Json, mapping: seq<(ImdbField, Option<string>)>, f: ImdbField)
    requires forall i :: 0 <= i < |mapping| && mapping[i].0 == f ==> mapping[i].1.None?
    ensures Processed(r, mapping)[f] == Null
    decreases |mapping|
  {
    if mapping != [] {
      var init := mapping[..|mapping| - 1];
      assert forall i :: 0 <= i < |init| ==> init[i] == mapping[i];
      ProcessedUnassigned(r, init, f);
    }
  }

  /** A provider's response mapping lists every field once. */
  lemma MappingDistinct(p: Provider)
    ensures DistinctFields(ResponseMapping(p))
  {
    var mapping := ResponseMapping(p);
    forall i, j | 0 <= i < j < |mapping|
      ensures mapping[i].0 != mapping[j].0
    {
      FieldAtInjective(i, j);
    }
  }

  /**
   * Under a provider's table, every field of the record holds the response's
   * value under the name the table gives it when that value is truthy, and
   * null when it is not or the table has `false` for the field.
   */
  lemma ProcessedTable(r: Json, p: Provider, f: ImdbField)
    ensures Processed(r, ResponseMapping(p))[f] ==
              if Assigned(r, Source(p, f)).Some? then Assigned(r, Source(p, f)).value else Null
  {
    MappingDistinct(p);
    ProcessedAt(r, ResponseMapping(p), Rank(f));
  }

  /** omdbapi.com never sets `url`, `aka`, `language` or `country`, whatever it answers. */
  lemma OmdbLeavesUnmapped(r: Json)
    ensures var m := Processed(Focus(r), ResponseMapping(OmdbApi));
            m[Url] == Null && m[Aka] == Null && m[Language] == Null && m[Country] == Null
  {
    ProcessedTable(Focus(r), OmdbApi, Url);
    ProcessedTable(Focus(r), OmdbApi, Aka);
    ProcessedTable(Focus(r), OmdbApi, Language);
    ProcessedTable(Focus(r), OmdbApi, Country);
  }

  /** imdbapi.org fills `language` from the response's `rated` entry, so the two fields always agree. */
  lemma ImdbApiOrgLanguageIsRated(r: Json)
    ensures Processed(r, ResponseMapping(ImdbApi))[Language] == Processed(r, ResponseMapping(ImdbApi))[Rated]
    ensures Processed(r, ResponseMapping(ImdbApi))[Rated] == if Truthy(Field(r, "rated")) then Field(r, "rated") else Null
  {
    assert Source(ImdbApi, Language) == Some("rated") == Source(ImdbApi, Rated);
    ProcessedTable(r, ImdbApi, Language);
    ProcessedTable(r, ImdbApi, Rated);
  }

  /** The component's state as a value. */
  datatype ImdbState = ImdbState(movies: seq<ImdbMovie>, error: Option<string>, cache: Snapshot)

  /**
   * One provider's turn in `search`: when it has parameters the request is
   * made, and a truthy response appends one record built by the provider's
   * response mapping. (A provider without parameters throws instead; see
   * `FirstBlocked`.)
   */
  function Turn(st: ImdbState, name: string, title: Option<string>, year: Option<string>, id: Option<string>, net: Net, cacheDuration: int): (r: ImdbState)
    ensures st.movies <= r.movies && |r.movies| <= |st.movies| + 1
  {
    var o := Options(name);
    var params := SearchParams(o, title, year, id);
    if params == [] then st
    else
      var rq := Request(st.cache, cacheDuration, BuildUrl(Endpoint(o.value), params), net, st.error);
      var movies := if rq.response.Some? && Truthy(rq.response.value)
                    then st.movies + [Processed(Focus(rq.response.value), ResponseMapping(o.value))]
                    else st.movies;
      ImdbState(movies, rq.error, rq.cache)
  }

  /** The turns of the first `k` providers, in order. */
  function Requests(st: ImdbState, names: seq<string>, k: nat, title: Option<string>, year: Option<string>, id: Option<string>, net: Net, cacheDuration: int): ImdbState
    requires k <= |names|
  {
    if k == 0 then st
    else Turn(Requests(st, names, k - 1, title, year, id, net, cacheDuration), names[k - 1], title, year, id, net, cacheDuration)
  }

  /** A provider has an applicable parameter: some given argument whose dimension it maps. */
  predicate HasParams(name: string, title: Option<string>, year: Option<string>, id: Option<string>)
  {
    var o := Options(name);
    (Given(id) && SearchKey(o, ById).Some?) || (Given(title) && SearchKey(o, ByTitle).Some?)
    || (Given(year) && SearchKey(o, ByYear).Some?)
  }

  /** `empty($params)` holds exactly when the provider has no applicable parameter. */
  lemma HasParamsIff(name: string, title: Option<string>, year: Option<string>, id: Option<string>)
    ensures SearchParams(Options(name), title, year, id) == [] <==> !HasParams(name, title, year, id)
  {
  }

  /** The position of the first provider without an applicable parameter, or the length when there is none. */
  function FirstBlocked(names: seq<string>, title: Option<string>, year: Option<string>, id: Option<string>): (k: nat)
    ensures k <= |names|
    ensures forall j :: 0 <= j < k ==> HasParams(names[j], title, year, id)
    ensures k < |names| ==> !HasParams(names[k], title, year, id)
    decreases |names|
  {
    if names == [] then 0
    else if !HasParams(names[0], title, year, id) then 0
    else 1 + FirstBlocked(names[1..], title, year, id)
  }

  /** Walking the providers in order: a provider with parameters is passed, the first one without is where the loop stops. */
  lemma BlockedStep(names: seq<string>, i: nat, title: Option<string>, year: Option<string>, id: Option<string>)
    requires i < |names| && i <= FirstBlocked(names, title, year, id)
    ensures HasParams(names[i], title, year, id) ==> i + 1 <= FirstBlocked(names, title, year, id)
    ensures !HasParams(names[i], title, year, id) ==> FirstBlocked(names, title, year, id) == i
  {
  }

  /**
   * `search`'s provider loop: the providers before the first one without
   * parameters are asked in order, and that one, if any, throws.
   */
  function SearchOver(st: ImdbState, names: seq<string>, title: Option<string>, year: Option<string>, id: Option<string>, net: Net, cacheDuration: int): (ImdbState, Option<string>)
  {
    var k := FirstBlocked(names, title, year, id);
    (Requests(st, names, k, title, year, id, net, cacheDuration), if k < |names| then Some(NoParamsMessage) else None)
  }

  /**
   * A search throws exactly when some provider asked has no applicable
   * parameter, and then with the message of `search`.
   */
  lemma SearchThrows(st: ImdbState, names: seq<string>, title: Option<string>, year: Option<string>, id: Option<string>, net: Net, cacheDuration: int)
    ensures var thrown := SearchOver(st, names, title, year, id, net, cacheDuration).1;
            (thrown.Some? <==> exists i :: 0 <= i < |names| && SearchParams(Options(names[i]), title, year, id) == [])
            && (thrown.Some? ==> thrown == Some(NoParamsMessage))
  {
    forall i | 0 <= i < |names| {
      HasParamsIff(names[i], title, year, id);
    }
  }

  /** A search only appends to the list, at most one record per provider asked. */
  lemma {:induction false} RequestsAppend(st: ImdbState, names: seq<string>, k: nat, title: Option<string>, year: Option<string>, id: Option<string>, net: Net, cacheDuration: int)
    requires k <= |names|
    ensures var movies := Requests(st, names, k, title, year, id, net, cacheDuration).movies;
            st.movies <= movies && |movies| <= |st.movies| + k
  {
    if k > 0 {
      RequestsAppend(st, names, k - 1, title, year, id, net, cacheDuration);
      var prev := Requests(st, names, k - 1, title, year, id, net, cacheDuration);
      var next := Turn(prev, names[k - 1], title, year, id, net, cacheDuration);
      assert Requests(st, names, k, title, year, id, net, cacheDuration) == next;
      assert prev.movies <= next.movies && |next.movies| <= |prev.movies| + 1;
    }
  }

  /** The outcome of `search`: an exception, or `getMovies()`. */
  datatype Outcome = Thrown(message: string) | Movies(list: seq<ImdbMovie>)

  /** The component (`ImdbComponent`). */
  class ImdbComponent {
    /** `_movies`: the records found, in order. */
    var movies: seq<ImdbMovie>
    /** `cacheDuration`: seconds to keep responses; 0 stands for `false`. */
    var cacheDuration: int
    /** `error`: the reason of the last failure. */
    var error: Option<string>
    /** The application cache; null when the application has none. */
    const cache: Cache?

    function State(): ImdbState
      reads this, cache
    {
      ImdbState(movies, error, Snap(cache))
    }

    /** `__construct()`. */
    constructor(cache: Cache?)
      ensures movies == [] && cacheDuration == DefaultCacheDuration && error == None && this.cache == cache
    {
      movies := [];
      cacheDuration := DefaultCacheDuration;
      error := None;
      this.cache := cache;
    }

    /** `hasMovies()`. */
    function HasMovies(): (r: bool)
      reads this
      ensures r <==> |GetMovies()| > 0
    {
      movies != []
    }

    /** `getMovies()`. */
    function GetMovies(): seq<ImdbMovie>
      reads this
    {
      movies
    }

    /** `addMovie($movie)`. */
    method AddMovie(movie: ImdbMovie)
      modifies this
      ensures movies == old(movies) + [movie]
      ensures error == old(error) && cacheDuration == old(cacheDuration)
    {
      movies := movies + [movie];
    }

    /** `clearMovies()`. */
    method ClearMovies()
      modifies this
      ensures movies == [] && !HasMovies()
      ensures error == old(error) && cacheDuration == old(cacheDuration)
    {
      movies := [];
    }

    /** `makeRequest($url)`; None stands for `false`. */
    method MakeRequest(url: string, net: Net) returns (response: Option<Json>)
      modifies this, cache
      ensures Requested(response, error, Snap(cache)) == Request(old(Snap(cache)), old(cacheDuration), url, net, old(error))
      ensures movies == old(movies) && cacheDuration == old(cacheDuration)
    {
      var key := RequestKey(cacheDuration, url, net.digest);
      if cacheDuration != 0 && cache != null {
        var hit := cache.Get(key);
        if hit.Some? && !IsEmpty(hit.value) && hit.value.Decoded? {
          return Some(hit.value.j);
        }
      }
      match net.transfer(url)
      case Completed(body) =>
        var d := net.decode(body);
        if d.None? {
          error := Some(NotJsonMessage);
          return None;
        }
        if !Field(d.value, "error").Null? {
          error := Some(StrForm(Field(d.value, "error")));
          return None;
        }
        if !Field(d.value, "Error").Null? {
          error := Some(StrForm(Field(d.value, "Error")));
          return None;
        }
        if cacheDuration != 0 && cache != null && Truthy(d.value) {
          cache.Set(key, Decoded(d.value), cacheDuration);
        }
        response := d;
      case Failed(code, body) =>
        if code == 400 {
          error := Some(BadRequestMessage(net.decode(body)));
        } else if StatusMessage(code).Some? {
          error := StatusMessage(code);
        }
        response := None;
    }

    /** `processResponse($response)` under a provider's response mapping. */
    method ProcessResponse(response: Json, mapping: seq<(ImdbField, Option<string>)>) returns (model: ImdbMovie)
      ensures model == Processed(Focus(response), mapping)
    {
      var r := Focus(response);
      model := NewImdbMovie();
      for i := 0 to |mapping|
        invariant model == Processed(r, mapping[..i])
      {
        assert mapping[..i + 1][..i] == mapping[..i];
        var (f, source) := mapping[i];
        if source.Some? && Truthy(Field(r, source.value)) {
          model := model[f := Field(r, source.value)];
        }
      }
      assert mapping[..|mapping|] == mapping;
    }

    /** One provider's turn in `search`, once the loop has found it has parameters. */
    method Ask(name: string, title: Option<string>, year: Option<string>, id: Option<string>, net: Net)
      modifies this, cache
      ensures State() == Turn(old(State()), name, title, year, id, net, old(cacheDuration))
      ensures cacheDuration == old(cacheDuration)
    {
      var o := Options(name);
      var params := SearchParams(o, title, year, id);
      if params != [] {
        var response := MakeRequest(BuildUrl(Endpoint(o.value), params), net);
        if response.Some? && Truthy(response.value) {
          var movie := ProcessResponse(response.value, ResponseMapping(o.value));
          AddMovie(movie);
        }
      }
    }

    /** `search($title, $year, $id, $api)`. */
    method Search(title: Option<string>, year: Option<string>, id: Option<string>, apis: seq<string>, net: Net)
      returns (r: Outcome)
      modifies this, cache
      ensures var after := SearchOver(old(State()), Providers(apis), title, year, id, net, old(cacheDuration));
              State() == after.0 && r == if after.1.Some? then Thrown(after.1.value) else Movies(movies)
      ensures cacheDuration == old(cacheDuration)
    {
      var names := Providers(apis);
      ghost var st0 := State();
      for i := 0 to |names|
        invariant cacheDuration == old(cacheDuration)
        invariant i <= FirstBlocked(names, title, year, id)
        invariant State() == Requests(st0, names, i, title, year, id, net, cacheDuration)
      {
        HasParamsIff(names[i], title, year, id);
        BlockedStep(names, i, title, year, id);
        if SearchParams(Options(names[i]), title, year, id) == [] {
          return Thrown(NoParamsMessage);
        }
        Ask(names[i], title, year, id, net);
      }
      r := Movies(movies);
    }

    /** `searchByTitleYear($title, $year, $api)`. */
    method SearchByTitleYear(title: Option<string>, year: Option<string>, apis: seq<string>, net: Net)
      returns (r: Outcome)
      modifies this, cache
      ensures var after := SearchOver(old(State()), Providers(apis), title, year, None, net, old(cacheDuration));
              State() == after.0 && r == if after.1.Some? then Thrown(after.1.value) else Movies(movies)
    {
      r := Search(title, year, None, apis, net);
    }

    /** `searchById($id, $api)`. */
    method SearchById(id: Option<string>, apis: seq<string>, net: Net)
      returns (r: Outcome)
      modifies this, cache
      ensures var after := SearchOver(old(State()), Providers(apis), None, None, id, net, old(cacheDuration));
              State() == after.0 && r == if after.1.Some? then Thrown(after.1.value) else Movies(movies)
    {
      r := Search(None, None, id, apis, net);
    }
  }
}
