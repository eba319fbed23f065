/**
 * The client of IMDb's search-bar suggestion service (`ImdbSuggestionApi`):
 * the request URL built from the query, the JSONP wrapper it strips, the
 * mapping of each suggestion to a movie record, and the control flow of
 * `instantSearch` (cache hit, retry with a shorter query, error flag,
 * caching of non-empty answers).
 */
module ImdbSuggestion {
  import opened PhpStrings
  import opened PhpValues
  import opened Movies
  import opened CacheStore
  import opened Apis
  import opened UrlQuery
  import opened FieldMapping
  import opened CurlApi
  import opened SeqFacts

  /** The class name, whose lower-cased form names the provider. */
  const ClassName: string := "ImdbSuggestionApi"

  /** The endpoint template. */
  const UrlTemplate: string := "http://sg.media-imdb.com/suggests/{title:first}/{title}.json"

  /** The raw field that holds the IMDb id. */
  const IdField: string := "id"

  /** `responseMapping`: IMDb id, title, year and actors. */
  const Mapping: seq<(Attr, string)> := [(ImdbId, "id"), (Title, "l"), (Year, "y"), (Actors, "s")]

  /** The request URL for a query: the template with `{title}` substituted. */
  function SuggestionUrl(query: string): string
  {
    Substituted(UrlTemplate, [("{title}", query)])
  }

  const Endpoint: string := "http://sg.media-imdb.com/suggests/"

  /** The `{title:first}` placeholder belongs to `{title}`. */
  lemma TitlePlaceholders()
    ensures FirstPlaceholder("{title}") == "{title:first}"
  {
    TrimRightPadded("{title", "}", {'}'});
    assert "{title" + "}" == "{title}";
  }

  /** The template is the endpoint, `{title:first}`, then `/{title}.json`. */
  lemma TemplateParts()
    ensures UrlTemplate == Endpoint + "{title:first}" + "/{title}.json"
  {
  }

  lemma EndpointPlain()
    ensures '{' !in Endpoint
  {
  }

  /**
   * Replacing a placeholder that occurs once, after a prefix free of its
   * first character and before a suffix too short to hold it.
   */
  lemma ReplacedOnce(a: string, pat: string, b: string, rep: string)
    requires pat != [] && pat[0] !in a
    requires |b| <= |pat| && (b != [] ==> b[0] != pat[0])
    ensures Replace(a + pat + b, pat, rep) == a + rep + b
  {
    NoOccurrenceIn(a, pat, pat + b);
    assert a + pat + b == a + (pat + b);
    ReplaceFirst(a, pat, b, rep);
    NoOccurrenceShort(b, pat);
    ReplaceAbsent(b, pat, rep);
  }

  /** Substituting `{title:first}` in the template. */
  lemma FirstSubstituted(first: string)
    ensures Replace(UrlTemplate, "{title:first}", first) == Endpoint + first + "/{title}.json"
  {
    TemplateParts();
    EndpointPlain();
    ReplacedOnce(Endpoint, "{title:first}", "/{title}.json", first);
  }

  /**
   * No occurrence of `pat` starts inside `a + first + "/"` when `a` lacks
   * its first character, `first` is at most one character and `pat` does
   * not start with `/` nor continue with one.
   */
  lemma NoOccurrenceBeforeSlash(a: string, first: string, pat: string, rest: string)
    requires |pat| >= 2 && pat[0] !in a && pat[0] != '/' && pat[1] != '/' && |first| <= 1
    ensures forall i :: 0 <= i < |a + first + "/"| ==> !OccursAt(a + first + "/" + rest, pat, i)
  {
    var c := a + first + "/";
    forall i | 0 <= i < |c|
      ensures !OccursAt(c + rest, pat, i)
    {
      var s := c + rest;
      if i + |pat| <= |s| {
        if i < |a| {
          assert s[i] == a[i];
          assert s[i..i + |pat|][0] == s[i];
        } else if i < |a| + |first| {
          assert s[i + 1] == '/';
          assert s[i..i + |pat|][1] == s[i + 1];
        } else {
          assert s[i] == '/';
          assert s[i..i + |pat|][0] == s[i];
        }
      }
    }
  }

  /** Substituting `{title}` once the first byte is in place. */
  lemma TitleSubstituted(first: string, lowered: string)
    requires |first| <= 1
    ensures Replace(Endpoint + first + "/{title}.json", "{title}", lowered)
            == Endpoint + first + "/" + lowered + ".json"
  {
    var p2 := "{title}";
    var c := Endpoint + first + "/";
    var d := ".json";
    assert Endpoint + first + "/{title}.json" == c + p2 + d;
    EndpointPlain();
    NoOccurrenceBeforeSlash(Endpoint, first, p2, p2 + d);
    assert c + p2 + d == c + (p2 + d);
    ReplaceFirst(c, p2, d, lowered);
    NoOccurrenceShort(d, p2);
    ReplaceAbsent(d, p2, lowered);
  }

  /**
   * The URL is the endpoint, the first byte of the lower-cased query,
   * a slash, the lower-cased query and `.json`, whatever the query holds.
   */
  lemma SuggestionUrlShape(query: string)
    ensures SuggestionUrl(query) == Endpoint + FirstByte(Lower(query)) + "/" + Lower(query) + ".json"
  {
    var lowered := Lower(query);
    var first := FirstByte(lowered);
    var params := [("{title}", query)];
    var step1 := Replace(UrlTemplate, FirstPlaceholder("{title}"), first);
    var step2 := Replace(step1, "{title}", lowered);
    assert params[1..] == [];
    assert SuggestionUrl(query) == Substituted(step2, []) == step2;
    TitlePlaceholders();
    FirstSubstituted(first);
    TitleSubstituted(first, lowered);
  }

  /** The characters the body is trimmed of after the JSONP wrapper is cut. */
  const WrapperChars: set<char> := {'(', ')', ';'}

  /** The suffix of `s` from its first `c` on. */
  function FromOccurrence(s: string, c: char): (r: string)
    requires c in s
    ensures r != [] && r[0] == c
    ensures |r| <= |s| && r == s[|s| - |r|..]
  {
    if s[0] == c then s
    else
      var rest := FromOccurrence(s[1..], c);
      assert rest == s[1..][|s| - 1 - |rest|..] == s[|s| - |rest|..];
      rest
  }

  /**
   * `substr($s, strpos($s, $c))`: the suffix from the first `c` on, or all
   * of `s` when there is none (`strpos` gives `false`, read as offset 0).
   */
  function FromFirst(s: string, c: char): (r: string)
    ensures c in s ==> r == FromOccurrence(s, c)
    ensures c !in s ==> r == s
  {
    if c in s then FromOccurrence(s, c) else s
  }

  /**
   * `processResponse` before decoding: a body that does not start with `[`
   * or `{` is JSONP, and everything before its first `(` is cut; then `(`,
   * `)` and `;` are trimmed from both ends.
   */
  function StripJsonp(body: string): string
  {
    var json := if body == [] || (body[0] != '[' && body[0] != '{') then FromFirst(body, '(') else body;
    TrimChars(json, WrapperChars)
  }

  /** A JSONP body `callback(json);` gives back exactly `json`. */
  lemma JsonpUnwrapped(callback: string, json: string)
    requires callback != [] && callback[0] != '[' && callback[0] != '{' && '(' !in callback
    requires json != [] && json[0] !in WrapperChars && json[|json| - 1] !in WrapperChars
    ensures StripJsonp(callback + "(" + json + ");") == json
  {
    var wrapped := "(" + json + ");";
    assert callback + "(" + json + ");" == callback + wrapped;
    FromFirstAfter(callback, wrapped, '(');
    JsonpCut(callback + wrapped, wrapped);
    WrapperTrimmed(json);
  }

  /** A body that is not plain JSON is trimmed from its first `(` on. */
  lemma JsonpCut(body: string, cut: string)
    requires body != [] && body[0] != '[' && body[0] != '{'
    requires FromFirst(body, '(') == cut
    ensures StripJsonp(body) == TrimChars(cut, WrapperChars)
  {
  }

  lemma WrapperTrimmed(json: string)
    requires json != [] && json[0] !in WrapperChars && json[|json| - 1] !in WrapperChars
    ensures TrimChars("(" + json + ");", WrapperChars) == json
  {
    assert AllIn("(", WrapperChars) && AllIn(");", WrapperChars);
    TrimCharsPadded("(", json, ");", WrapperChars);
  }

  lemma {:induction false} FromFirstAfter(prefix: string, rest: string, c: char)
    requires c !in prefix && rest != [] && rest[0] == c
    ensures c in prefix + rest && FromOccurrence(prefix + rest, c) == rest
    decreases |prefix|
  {
    assert (prefix + rest)[|prefix|] == c;
    if prefix == [] {
      assert prefix + rest == rest;
    } else {
      assert (prefix + rest)[1..] == prefix[1..] + rest;
      FromFirstAfter(prefix[1..], rest, c);
    }
  }

  /** A plain JSON array or object body is decoded as it is. */
  lemma PlainJsonKept(body: string)
    requires body != [] && (body[0] == '[' || body[0] == '{')
    requires body[|body| - 1] == ']' || body[|body| - 1] == '}'
    ensures StripJsonp(body) == body
  {
    TrimCharsPadded("", body, "", WrapperChars);
    assert "" + body + "" == body;
  }

  /** The record for one suggestion entry (`mapToMovieInfo((array)$data)`). */
  function Suggestion(name: string, item: Json): Option<Movie>
  {
    Mapped(name, IdField, Mapping, ToDict(item))
  }

  /** The list `instantSearch` builds as written: one entry per suggestion, null included. */
  function SuggestionsAsWritten(name: string, items: seq<Json>): (r: seq<Option<Movie>>)
    ensures |r| == |items|
    ensures forall i :: 0 <= i < |items| ==> r[i] == Suggestion(name, items[i])
  {
    if items == [] then [] else [Suggestion(name, items[0])] + SuggestionsAsWritten(name, items[1..])
  }

  /** The records of the suggestions that carry an id, in order. */
  function Suggestions(name: string, items: seq<Json>): seq<Movie>
  {
    if items == [] then []
    else
      var rest := Suggestions(name, items[1..]);
      match Suggestion(name, items[0])
      case Some(m) => [m] + rest
      case None => rest
  }

  /** The values of the non-null entries of a list, in order. */
  function Present<T>(xs: seq<Option<T>>): seq<T>
  {
    if xs == [] then []
    else if xs[0].Some? then [xs[0].value] + Present(xs[1..])
    else Present(xs[1..])
  }

  /** The corrected list is the list as written with its nulls removed. */
  lemma {:induction false} SuggestionsArePresent(name: string, items: seq<Json>)
    ensures Suggestions(name, items) == Present(SuggestionsAsWritten(name, items))
  {
    if items != [] {
      SuggestionsArePresent(name, items[1..]);
      var w := SuggestionsAsWritten(name, items);
      assert w[0] == Suggestion(name, items[0]);
      assert w[1..] == SuggestionsAsWritten(name, items[1..]);
    }
  }

  /** A value is among the present ones exactly when some entry holds it. */
  lemma {:induction false} PresentMembers<T>(xs: seq<Option<T>>)
    ensures forall m :: m in Present(xs) <==> exists i :: 0 <= i < |xs| && xs[i] == Some(m)
  {
    if xs != [] {
      PresentMembers(xs[1..]);
      forall m
        ensures m in Present(xs) <==> exists i :: 0 <= i < |xs| && xs[i] == Some(m)
      {
        if m in Present(xs) && xs[0] != Some(m) {
          var i :| 0 <= i < |xs[1..]| && xs[1..][i] == Some(m);
          assert xs[i + 1] == Some(m);
        }
        if exists i :: 0 <= i < |xs| && xs[i] == Some(m) {
          var i :| 0 <= i < |xs| && xs[i] == Some(m);
          if i > 0 {
            assert xs[1..][i - 1] == xs[i];
          }
        }
      }
    }
  }

  /**
   * Each returned record is the record of a suggestion with an id, and
   * every suggestion with an id is returned.
   */
  lemma SuggestionsMembers(name: string, items: seq<Json>)
    ensures forall m :: m in Suggestions(name, items) <==>
              exists i :: 0 <= i < |items| && Suggestion(name, items[i]) == Some(m)
  {
    var written := SuggestionsAsWritten(name, items);
    SuggestionsArePresent(name, items);
    PresentMembers(written);
    forall m ensures (exists i :: 0 <= i < |written| && written[i] == Some(m))
                     <==> exists i :: 0 <= i < |items| && Suggestion(name, items[i]) == Some(m)
    {
      if exists i :: 0 <= i < |items| && Suggestion(name, items[i]) == Some(m) {
        var i :| 0 <= i < |items| && Suggestion(name, items[i]) == Some(m);
        assert written[i] == Some(m);
      }
    }
  }

  /**
   * A suggestion entry without an `id` yields null in the list as written;
   * the entry `{"l": "Titanic"}` is one.
   */
  lemma IdlessSuggestionKept(name: string)
    ensures SuggestionsAsWritten(name, [Object([("l", Str("Titanic"))])]) == [None]
  {
    var item := Object([("l", Str("Titanic"))]);
    assert IdField !in ToDict(item);
  }

  /**
   * The record of a suggestion with an id: the `k`-th mapping entry,
   * `(attr, field)`, fills `attr` with the coerced raw value when that value
   * is set and not blank, and leaves it null otherwise.
   */
  lemma MappedField(name: string, d: Dict, k: nat, attr: Attr, field: string)
    requires HasId(d, IdField) && k < |Mapping| && Mapping[k] == (attr, field)
    ensures Mapped(name, IdField, Mapping, d).value[attr]
              == if Applies(field, d) then AsValue(Coerce(TypeOf(attr), d[field])) else Unset
  {
    MappingEntries();
    MappedEntry(name, IdField, Mapping, d, k, attr, field);
  }

  /** The four entries of the mapping: distinct attributes, none of them `apis`, from distinct raw fields. */
  lemma MappingEntries()
    ensures |Mapping| == 4
    ensures Mapping[0] == (ImdbId, "id") && Mapping[1] == (Title, "l") && Mapping[2] == (Year, "y") && Mapping[3] == (Actors, "s")
    ensures forall k :: 0 <= k < |Mapping| ==> Mapping[k].0 != Apis && Untargeted(Mapping, Mapping[k].0, k + 1)
    ensures forall j, k :: 0 <= j < k < |Mapping| ==> Mapping[j].0 != Mapping[k].0 && Mapping[j].1 != Mapping[k].1
  {
  }

  /** The attributes the mapping does not fill. */
  lemma UnmappedAttrs()
    ensures forall a: Attr :: a != ImdbId && a != Title && a != Year && a != Actors ==> Untargeted(Mapping, a, 0)
  {
    MappingEntries();
  }

  /** The record of a suggestion names the provider; apart from the mapped attributes nothing else is set. */
  lemma MappedUntouched(name: string, d: Dict)
    requires HasId(d, IdField)
    ensures var m := Mapped(name, IdField, Mapping, d).value;
            m[Apis] == Items([name])
            && forall a: Attr :: a != Apis && a != ImdbId && a != Title && a != Year && a != Actors ==> m[a] == Unset
  {
    UnmappedAttrs();
    MappedAttributes(name, IdField, Mapping, d, 0);
  }

  /**
   * The `foreach` over the suggestion entries: each entry is mapped and its
   * record pushed when it has one.
   */
  method CollectSuggestions(name: string, items: seq<Json>) returns (movies: seq<Movie>)
    ensures movies == Suggestions(name, items)
  {
    movies := [];
    var i := 0;
    while i < |items|
      invariant 0 <= i <= |items|
      invariant movies + Suggestions(name, items[i..]) == Suggestions(name, items)
    {
      ghost var rest := Suggestions(name, items[i + 1..]);
      SuggestionsStep(name, items, i);
      var m := MapToMovieInfo(name, IdField, Mapping, ToDict(items[i]));
      if m.Some? {
        AppendAssoc(movies, [m.value], rest);
        movies := movies + [m.value];
      }
      i := i + 1;
    }
  }

  lemma SuggestionsStep(name: string, items: seq<Json>, i: nat)
    requires i < |items|
    ensures Suggestion(name, items[i]).Some? ==>
              Suggestions(name, items[i..]) == [Suggestion(name, items[i]).value] + Suggestions(name, items[i + 1..])
    ensures Suggestion(name, items[i]).None? ==> Suggestions(name, items[i..]) == Suggestions(name, items[i + 1..])
  {
    assert items[i..][1..] == items[i + 1..];
  }

  /**
   * The records a completed response yields: its body un-wrapped and
   * decoded, then the suggestions under `d` when that field is not empty.
   */
  function Fetched(name: string, body: string, decode: string -> Option<Json>): seq<Movie>
  {
    var j := decode(StripJsonp(body));
    if j.Some? && Truthy(Field(j.value, "d")) then Suggestions(name, Values(Field(j.value, "d"))) else []
  }

  /**
   * `processResponse` and the normalisation after it: the body un-wrapped
   * and decoded, then each entry under `d` mapped when `d` is not empty.
   */
  method ProcessResponse(name: string, body: string, decode: string -> Option<Json>) returns (movies: seq<Movie>)
    ensures movies == Fetched(name, body, decode)
  {
    movies := [];
    var j := decode(StripJsonp(body));
    if j.Some? && Truthy(Field(j.value, "d")) {
      movies := CollectSuggestions(name, Values(Field(j.value, "d")));
    }
  }

  /** The answer of `instantSearch`, the cache state after it and the client's error. */
  datatype Outcome = Outcome(movies: seq<Movie>, cache: Snapshot, error: Option<string>)

  /**
   * `instantSearch($query)` from cache state `s` and error `error`, for the
   * provider `name` with cache duration `own`, when the service answers a
   * URL with `fetch(url)`: a cached list for the URL is returned as it is;
   * otherwise the service is asked, a null response to a query longer than
   * three characters is retried with its last character dropped, a `false`
   * response sets the provider's error flag, and a non-empty answer is
   * cached under the URL.
   */
  function Suggest(s: Snapshot, error: Option<string>, name: string, own: int, query: string,
                   fetch: string -> Transfer, decode: string -> Option<Json>): Outcome
    decreases |query|, 1
  {
    var key := CacheKey(name, Some(SuggestionUrl(query)));
    var hit := Served(s, key, 0, own);
    if hit.Some? && hit.value.RecordList? then Outcome(hit.value.items, s, error)
    else Remembered(Asked(s, error, name, own, query, fetch, decode), key, own)
  }

  /** A non-empty answer cached under `key` with the provider's own duration. */
  function Remembered(o: Outcome, key: string, own: int): Outcome
  {
    if o.movies != [] then o.(cache := Stored(o.cache, key, RecordList(o.movies), 0, own)) else o
  }

  /** The answer when the URL is not cached: the service is asked. */
  function Asked(s: Snapshot, error: Option<string>, name: string, own: int, query: string,
                 fetch: string -> Transfer, decode: string -> Option<Json>): Outcome
    decreases |query|, 0
  {
    var c := Classify(fetch(SuggestionUrl(query)), decode);
    var err := if c.error.Some? then c.error else error;
    if CheckResponse(c.response) then Outcome(Fetched(name, c.response.body, decode), s, err)
    else if c.response == NullResponse && |query| > 3 then
      Suggest(s, err, name, own, query[..|query| - 1], fetch, decode)
    else if IsFalse(c.response) then Outcome([], Flagged(s, name, own), err)
    else Outcome([], s, err)
  }

  /**
   * `instantSearch($query)` on the client `api`; the service's answers are
   * given by `fetch` and the JSON decoder by `decode`.
   */
  method InstantSearch(api: BaseApi, query: string, fetch: string -> Transfer, decode: string -> Option<Json>)
    returns (movies: seq<Movie>)
    modifies api, api.cache
    ensures var o := Suggest(old(Snap(api.cache)), old(api.error), api.name, api.cacheDuration, query, fetch, decode);
            movies == o.movies && Snap(api.cache) == o.cache && api.error == o.error
    ensures api.cacheDuration == old(api.cacheDuration)
    decreases |query|, 1
  {
    var url := BuildUrlFromPlaceholders(UrlTemplate, [("{title}", query)]);
    var key := CacheKey(api.name, Some(url));
    var hit := FromCache(api.cache, key, 0, api.cacheDuration);
    if hit.Some? && hit.value.RecordList? {
      return hit.value.items;
    }
    movies := Ask(api, query, url, fetch, decode);
    if movies != [] {
      StoreToCache(api.cache, key, RecordList(movies), 0, api.cacheDuration);
    }
  }

  /** The part of `instantSearch` after a cache miss: the request and what follows from its response. */
  method Ask(api: BaseApi, query: string, url: string, fetch: string -> Transfer, decode: string -> Option<Json>)
    returns (movies: seq<Movie>)
    requires url == SuggestionUrl(query)
    modifies api, api.cache
    ensures var o := Asked(old(Snap(api.cache)), old(api.error), api.name, api.cacheDuration, query, fetch, decode);
            movies == o.movies && Snap(api.cache) == o.cache && api.error == o.error
    ensures api.cacheDuration == old(api.cacheDuration)
    decreases |query|, 0
  {
    movies := [];
    var response := MakeRequest(api, fetch(url), decode);
    if CheckResponse(response) {
      movies := ProcessResponse(api.name, response.body, decode);
    } else if response == NullResponse && |query| > 3 {
      movies := InstantSearch(api, query[..|query| - 1], fetch, decode);
    } else if IsFalse(response) {
      api.SetRequestErrors();
    }
  }

  /** A search keeps the cache present and its clock where it was. */
  lemma {:induction false} SuggestKeepsClock(s: Snapshot, error: Option<string>, name: string, own: int, query: string,
                                             fetch: string -> Transfer, decode: string -> Option<Json>)
    ensures var o := Suggest(s, error, name, own, query, fetch, decode);
            o.cache.State? == s.State? && (s.State? ==> o.cache.now == s.now)
    decreases |query|, 1
  {
    var key := CacheKey(name, Some(SuggestionUrl(query)));
    var hit := Served(s, key, 0, own);
    if !(hit.Some? && hit.value.RecordList?) {
      AskedKeepsClock(s, error, name, own, query, fetch, decode);
    }
  }

  lemma {:induction false} AskedKeepsClock(s: Snapshot, error: Option<string>, name: string, own: int, query: string,
                                           fetch: string -> Transfer, decode: string -> Option<Json>)
    ensures var o := Asked(s, error, name, own, query, fetch, decode);
            o.cache.State? == s.State? && (s.State? ==> o.cache.now == s.now)
    decreases |query|, 0
  {
    var c := Classify(fetch(SuggestionUrl(query)), decode);
    var err := if c.error.Some? then c.error else error;
    var o := Asked(s, error, name, own, query, fetch, decode);
    if CheckResponse(c.response) {
      assert o.cache == s;
    } else if c.response == NullResponse && |query| > 3 {
      assert o == Suggest(s, err, name, own, query[..|query| - 1], fetch, decode);
      SuggestKeepsClock(s, err, name, own, query[..|query| - 1], fetch, decode);
    } else if IsFalse(c.response) {
      assert o.cache == Flagged(s, name, own);
    } else {
      assert o.cache == s;
    }
  }

  /**
   * A search writes only its provider's own keys: every key that does not
   * start with the provider's prefix serves what it served before, and no
   * key that served something stops serving it.
   */
  lemma {:induction false} SuggestFrame(s: Snapshot, error: Option<string>, name: string, own: int, query: string,
                                         fetch: string -> Transfer, decode: string -> Option<Json>, key: string, d: int)
    ensures var o := Suggest(s, error, name, own, query, fetch, decode);
            && (!(OwnKeyPrefix(name) <= key) ==> Served(o.cache, key, d, own) == Served(s, key, d, own))
            && (Served(s, key, d, own).Some? ==> Served(o.cache, key, d, own).Some?)
    decreases |query|, 1
  {
    var k := CacheKey(name, Some(SuggestionUrl(query)));
    var hit := Served(s, k, 0, own);
    if !(hit.Some? && hit.value.RecordList?) {
      var inner := Asked(s, error, name, own, query, fetch, decode);
      AskedFrame(s, error, name, own, query, fetch, decode, key, d);
      assert OwnKeyPrefix(name) <= k;
      StoredServed(inner.cache, k, RecordList(inner.movies), 0, own, key, d);
      StoredKeepsServed(inner.cache, k, RecordList(inner.movies), 0, own, key, d);
    }
  }

  lemma {:induction false} AskedFrame(s: Snapshot, error: Option<string>, name: string, own: int, query: string,
                                       fetch: string -> Transfer, decode: string -> Option<Json>, key: string, d: int)
    ensures var o := Asked(s, error, name, own, query, fetch, decode);
            && (!(OwnKeyPrefix(name) <= key) ==> Served(o.cache, key, d, own) == Served(s, key, d, own))
            && (Served(s, key, d, own).Some? ==> Served(o.cache, key, d, own).Some?)
    decreases |query|, 0
  {
    var c := Classify(fetch(SuggestionUrl(query)), decode);
    var err := if c.error.Some? then c.error else error;
    if CheckResponse(c.response) {
    } else if c.response == NullResponse && |query| > 3 {
      SuggestFrame(s, err, name, own, query[..|query| - 1], fetch, decode, key, d);
    } else if IsFalse(c.response) {
      assert OwnKeyPrefix(name) <= ErrorKey(name);
      StoredServed(s, ErrorKey(name), Flag(true), ErrorWindow, own, key, d);
      StoredKeepsServed(s, ErrorKey(name), Flag(true), ErrorWindow, own, key, d);
    }
  }

  /**
   * A search depends on no key outside its provider's own: from two cache
   * states that agree outside keys `ks` of other owners, it answers the
   * same records and error, and leaves states that still agree there.
   */
  lemma {:induction false} SuggestAgrees(s: Snapshot, t: Snapshot, ks: set<string>, error: Option<string>, name: string, own: int,
                                          query: string, fetch: string -> Transfer, decode: string -> Option<Json>)
    requires AgreeOutside(s, t, ks)
    requires forall k :: k in ks ==> !(OwnKeyPrefix(name) <= k)
    ensures var o := Suggest(s, error, name, own, query, fetch, decode);
            var o' := Suggest(t, error, name, own, query, fetch, decode);
            o.movies == o'.movies && o.error == o'.error && AgreeOutside(o.cache, o'.cache, ks)
    decreases |query|, 1
  {
    var k := CacheKey(name, Some(SuggestionUrl(query)));
    assert OwnKeyPrefix(name) <= k;
    AgreeOutsideServed(s, t, ks, k, 0, own);
    var hit := Served(s, k, 0, own);
    if !(hit.Some? && hit.value.RecordList?) {
      var inner := Asked(s, error, name, own, query, fetch, decode);
      var inner' := Asked(t, error, name, own, query, fetch, decode);
      AskedAgrees(s, t, ks, error, name, own, query, fetch, decode);
      AgreeOutsideStored(inner.cache, inner'.cache, ks, k, RecordList(inner.movies), 0, own);
    }
  }

  lemma {:induction false} AskedAgrees(s: Snapshot, t: Snapshot, ks: set<string>, error: Option<string>, name: string, own: int,
                                        query: string, fetch: string -> Transfer, decode: string -> Option<Json>)
    requires AgreeOutside(s, t, ks)
    requires forall k :: k in ks ==> !(OwnKeyPrefix(name) <= k)
    ensures var o := Asked(s, error, name, own, query, fetch, decode);
            var o' := Asked(t, error, name, own, query, fetch, decode);
            o.movies == o'.movies && o.error == o'.error && AgreeOutside(o.cache, o'.cache, ks)
    decreases |query|, 0
  {
    var c := Classify(fetch(SuggestionUrl(query)), decode);
    var err := if c.error.Some? then c.error else error;
    if CheckResponse(c.response) {
    } else if c.response == NullResponse && |query| > 3 {
      SuggestAgrees(s, t, ks, err, name, own, query[..|query| - 1], fetch, decode);
    } else if IsFalse(c.response) {
      assert OwnKeyPrefix(name) <= ErrorKey(name);
      AgreeOutsideStored(s, t, ks, ErrorKey(name), Flag(true), ErrorWindow, own);
    }
  }

  /**
   * Only non-empty answers are cached: a search that finds nothing leaves
   * the cache as it was, except that the provider's error flag may be set.
   */
  lemma {:induction false} EmptyAnswerNotCached(s: Snapshot, error: Option<string>, name: string, own: int, query: string,
                                                fetch: string -> Transfer, decode: string -> Option<Json>)
    ensures var o := Suggest(s, error, name, own, query, fetch, decode);
            o.movies == [] ==> o.cache == s || o.cache == Flagged(s, name, own)
    decreases |query|, 1
  {
    var key := CacheKey(name, Some(SuggestionUrl(query)));
    var hit := Served(s, key, 0, own);
    if !(hit.Some? && hit.value.RecordList?) {
      EmptyAskedNotCached(s, error, name, own, query, fetch, decode);
    }
  }

  lemma {:induction false} EmptyAskedNotCached(s: Snapshot, error: Option<string>, name: string, own: int, query: string,
                                               fetch: string -> Transfer, decode: string -> Option<Json>)
    ensures var o := Asked(s, error, name, own, query, fetch, decode);
            o.movies == [] ==> o.cache == s || o.cache == Flagged(s, name, own)
    decreases |query|, 0
  {
    var c := Classify(fetch(SuggestionUrl(query)), decode);
    var err := if c.error.Some? then c.error else error;
    var o := Asked(s, error, name, own, query, fetch, decode);
    if CheckResponse(c.response) {
      assert o.cache == s;
    } else if c.response == NullResponse && |query| > 3 {
      assert o == Suggest(s, err, name, own, query[..|query| - 1], fetch, decode);
      EmptyAnswerNotCached(s, err, name, own, query[..|query| - 1], fetch, decode);
    } else if IsFalse(c.response) {
      assert o.cache == Flagged(s, name, own);
    } else {
      assert o.cache == s;
    }
  }

  /**
   * A non-empty answer is cached under its URL: asking again at the same
   * time returns the same records without a request (whatever the service
   * would now answer) and changes nothing.
   */
  lemma RepeatServedFromCache(s: Snapshot, error: Option<string>, name: string, own: int, query: string,
                              fetch: string -> Transfer, decode: string -> Option<Json>,
                              error2: Option<string>, fetch2: string -> Transfer, decode2: string -> Option<Json>)
    requires s.State? && own != 0
    ensures var o := Suggest(s, error, name, own, query, fetch, decode);
            o.movies != [] ==> Suggest(o.cache, error2, name, own, query, fetch2, decode2) == Outcome(o.movies, o.cache, error2)
  {
    var o := Suggest(s, error, name, own, query, fetch, decode);
    var key := CacheKey(name, Some(SuggestionUrl(query)));
    SuggestLeavesServed(s, error, name, own, query, fetch, decode);
    if o.movies != [] {
      ServedSuggest(o.cache, error2, name, own, query, fetch2, decode2, o.movies);
    }
  }

  /** After a search that found records, its URL's cache entry holds them. */
  lemma SuggestLeavesServed(s: Snapshot, error: Option<string>, name: string, own: int, query: string,
                            fetch: string -> Transfer, decode: string -> Option<Json>)
    requires s.State? && own != 0
    ensures var o := Suggest(s, error, name, own, query, fetch, decode);
            o.movies != [] ==> Served(o.cache, CacheKey(name, Some(SuggestionUrl(query))), 0, own) == Some(RecordList(o.movies))
  {
    var o := Suggest(s, error, name, own, query, fetch, decode);
    var key := CacheKey(name, Some(SuggestionUrl(query)));
    var hit := Served(s, key, 0, own);
    if hit.Some? && hit.value.RecordList? {
      assert o == Outcome(hit.value.items, s, error);
    } else if o.movies != [] {
      var inner := Asked(s, error, name, own, query, fetch, decode);
      assert o == Remembered(inner, key, own);
      AskedKeepsClock(s, error, name, own, query, fetch, decode);
      StoredServed(inner.cache, key, RecordList(o.movies), 0, own, key, 0);
    }
  }

  /** A query whose URL has a cached record list is answered with it. */
  lemma ServedSuggest(s: Snapshot, error: Option<string>, name: string, own: int, query: string,
                      fetch: string -> Transfer, decode: string -> Option<Json>, items: seq<Movie>)
    requires Served(s, CacheKey(name, Some(SuggestionUrl(query))), 0, own) == Some(RecordList(items))
    ensures Suggest(s, error, name, own, query, fetch, decode) == Outcome(items, s, error)
  {
  }

  /**
   * A failed host lookup switches the provider off: when the URL is not
   * cached and the lookup fails, the answer is empty, the error is the
   * host message and the provider reports request errors afterwards.
   */
  lemma HostFailureSuppresses(s: Snapshot, error: Option<string>, name: string, own: int, query: string,
                              fetch: string -> Transfer, decode: string -> Option<Json>)
    requires s.State?
    requires Served(s, CacheKey(name, Some(SuggestionUrl(query))), 0, own).None?
    requires fetch(SuggestionUrl(query)).Failed? && fetch(SuggestionUrl(query)).statusCode == 6
    ensures var o := Suggest(s, error, name, own, query, fetch, decode);
            o.movies == [] && o.error == Some(HostMessage) && Suppressed(o.cache, name, own)
  {
    StoredServed(s, ErrorKey(name), Flag(true), ErrorWindow, own, ErrorKey(name), ErrorWindow);
  }

  /**
   * A null response to a query of more than three characters is answered
   * by the query without its last character; a shorter query gets nothing.
   */
  lemma NullResponseRetries(s: Snapshot, error: Option<string>, name: string, own: int, query: string,
                            fetch: string -> Transfer, decode: string -> Option<Json>)
    requires Served(s, CacheKey(name, Some(SuggestionUrl(query))), 0, own).None?
    requires Classify(fetch(SuggestionUrl(query)), decode).response == NullResponse
    ensures var o := Suggest(s, error, name, own, query, fetch, decode);
            var err := if Classify(fetch(SuggestionUrl(query)), decode).error.Some?
                       then Classify(fetch(SuggestionUrl(query)), decode).error else error;
            && (|query| > 3 ==> o.movies == Suggest(s, err, name, own, query[..|query| - 1], fetch, decode).movies)
            && (|query| <= 3 ==> o == Outcome([], s, err))
  {
  }
}
