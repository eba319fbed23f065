/**
 * The TMDb client (`TmdbApi`): the movie record assembled from the details
 * answer and the optional partial answers, the search by IMDb id, and the
 * instant search that shortens its query until something is found.
 */
module Tmdb {
  import opened PhpStrings
  import opened PhpValues
  import opened Movies
  import opened FieldMapping
  import opened TmdbResponses
  import opened SeqFacts

  /** The provider name a record's `apis` carries. */
  const ClassName: string := "TmdbApi"

  /** The raw field whose value identifies a movie. */
  const IdField: string := "imdb_id"

  /** `$responseMapping`: attribute <= raw field, in table order. */
  const Mapping: seq<(Attr, string)> :=
    [(Genres, "genres"), (ImdbId, "imdb_id"), (Title, "title"), (Aka, "aka"), (Year, "release_date"),
     (Runtime, "runtime"), (Plot, "plot"), (Images, "images"), (Trailers, "trailers"),
     (Directors, "directors"), (Writers, "writers"), (Actors, "actors"), (Rating, "vote_average"),
     (Votes, "vote_count")]

  /**
   * The answers of the TMDb web service (the `TMDBv3` library), as
   * functions of the id or query they are asked for.
   */
  datatype Service = Service(
    searchMovie: string -> Dict,
    find: string -> Dict,
    movieDetail: string -> Dict,
    alternativeTitles: string -> Dict,
    credits: string -> Dict,
    moviePoster: string -> Json,
    keywords: string -> Dict,
    movieTrailer: string -> Dict)

  /**
   * The client's settings: the image base URL, the language alternative
   * titles are filtered by (`'en'` by default, none for every title), and
   * the year of a release date (`DateTime::createFromFormat(...)->format("Y")`).
   */
  datatype Settings = Settings(imageUrl: string, language: Option<string>, yearOf: string -> string)

  // ---------------------------------------------------------------- options

  /** The `$options` argument of `apiMovieInfo`: true, false or a list of names. */
  datatype Options = AllOptions | NoOptions | Chosen(names: seq<string>)

  /** The partial answers merged in by default, in order. */
  const DefaultOptions: seq<string> := ["AlternativeTitle", "Credits", "Images", "Keywords", "Trailers"]

  /** `array_intersect($xs, $keep)`: the elements of `xs` that `keep` has, in the order of `xs`. */
  function Intersect(xs: seq<string>, keep: seq<string>): (r: seq<string>)
    ensures forall x :: x in r <==> x in xs && x in keep
    ensures NoDup(xs) ==> NoDup(r)
  {
    if xs == [] then []
    else
      var rest := Intersect(xs[1..], keep);
      assert forall x :: x in rest ==> x in xs[1..];
      (if xs[0] in keep then [xs[0]] else []) + rest
  }

  /**
   * The partial answers `apiMovieInfo` merges: every default for true,
   * none for false, and for a list the defaults it names, in default order
   * and without repeats.
   */
  function SelectOptions(o: Options): (r: seq<string>)
    ensures o.AllOptions? ==> r == DefaultOptions
    ensures o.NoOptions? ==> r == []
    ensures o.Chosen? ==> forall x :: x in r <==> x in DefaultOptions && x in o.names
    ensures NoDup(r)
  {
    match o
    case AllOptions => DefaultOptions
    case NoOptions => []
    case Chosen(names) => Intersect(DefaultOptions, names)
  }

  /** The normalised partial answer `apiMovie<option>($idMovie)` gives; null for an error answer. */
  function Part(option: string, id: string, svc: Service, cfg: Settings): Option<Dict>
  {
    if option == "AlternativeTitle" then
      if CheckResponse(svc.alternativeTitles(id)) then Some(AlternativeTitles(svc.alternativeTitles(id), cfg.language)) else None
    else if option == "Credits" then
      if CheckResponse(svc.credits(id)) then Some(Credits(svc.credits(id))) else None
    else if option == "Images" then
      if CheckAnswer(svc.moviePoster(id)) then Some(ImagesOf(svc.moviePoster(id), cfg.imageUrl)) else None
    else if option == "Keywords" then
      if CheckResponse(svc.keywords(id)) then Some(Keywords(svc.keywords(id))) else None
    else if option == "Trailers" then
      if CheckResponse(svc.movieTrailer(id)) then Some(TrailersOf(svc.movieTrailer(id))) else None
    else None
  }

  /** The partial answers for a list of options, in order. */
  function Parts(options: seq<string>, id: string, svc: Service, cfg: Settings): (r: seq<Option<Dict>>)
    ensures |r| == |options|
    ensures forall i :: 0 <= i < |options| ==> r[i] == Part(options[i], id, svc, cfg)
  {
    if options == [] then [] else [Part(options[0], id, svc, cfg)] + Parts(options[1..], id, svc, cfg)
  }

  /** `$this->{'apiMovie' . $option}($idMovie)`. */
  method FetchPart(option: string, id: string, svc: Service, cfg: Settings) returns (p: Option<Dict>)
    ensures p == Part(option, id, svc, cfg)
  {
    if option == "AlternativeTitle" {
      p := MovieAlternativeTitle(svc.alternativeTitles(id), cfg.language);
    } else if option == "Credits" {
      p := MovieCredits(svc.credits(id));
    } else if option == "Images" {
      p := MovieImages(svc.moviePoster(id), cfg.imageUrl);
    } else if option == "Keywords" {
      p := MovieKeywords(svc.keywords(id));
    } else if option == "Trailers" {
      p := MovieTrailers(svc.movieTrailer(id));
    } else {
      p := None;
    }
  }

  /** Every partial answer is null exactly when the service answered with an error. */
  lemma PartsRejectErrors(option: string, id: string, svc: Service, cfg: Settings)
    requires option in DefaultOptions
    ensures Part(option, id, svc, cfg).None? <==>
              match option
              case "AlternativeTitle" => !CheckResponse(svc.alternativeTitles(id))
              case "Credits" => !CheckResponse(svc.credits(id))
              case "Images" => !CheckAnswer(svc.moviePoster(id))
              case "Keywords" => !CheckResponse(svc.keywords(id))
              case _ => !CheckResponse(svc.movieTrailer(id))
  {
  }

  // ---------------------------------------------------------------- merging

  /** The elements an `array_merge_recursive` contributes for a value: an array's, or the value itself. */
  function Elements(j: Json): seq<Json>
  {
    if IsArray(j) then Values(j) else [j]
  }

  /**
   * `array_merge_recursive($a, $b)` on string keys: a key of one side only
   * keeps its value; a key of both becomes the list of their elements.
   */
  function MergeRecursive(a: Dict, b: Dict): (r: Dict)
    ensures r.Keys == a.Keys + b.Keys
  {
    map k | k in a.Keys + b.Keys ::
      if k in a && k in b then List(Elements(a[k]) + Elements(b[k])) else if k in a then a[k] else b[k]
  }

  /** A partial answer is merged in when it is a non-empty array. */
  predicate Merges(p: Option<Dict>)
  {
    p.Some? && p.value != map[]
  }

  /** The details with the partial answers merged in, in order. */
  function Folded(response: Dict, parts: seq<Option<Dict>>): Dict
    decreases |parts|
  {
    if parts == [] then response
    else Folded(if Merges(parts[0]) then MergeRecursive(response, parts[0].value) else response, parts[1..])
  }

  /** Some merged partial answer has the key. */
  predicate Contributes(parts: seq<Option<Dict>>, k: string)
  {
    exists i :: 0 <= i < |parts| && Merges(parts[i]) && k in parts[i].value
  }

  /** The elements the merged partial answers contribute for a key, in order. */
  function Contribution(parts: seq<Option<Dict>>, k: string): seq<Json>
  {
    if parts == [] then []
    else (if Merges(parts[0]) && k in parts[0].value then Elements(parts[0].value[k]) else []) + Contribution(parts[1..], k)
  }

  /** What the first partial answer adds to the merge. */
  lemma {:induction false} ContributesHead(parts: seq<Option<Dict>>, k: string)
    requires parts != []
    ensures Contributes(parts, k) <==> (Merges(parts[0]) && k in parts[0].value) || Contributes(parts[1..], k)
  {
    if Contributes(parts[1..], k) {
      var i :| 0 <= i < |parts[1..]| && Merges(parts[1..][i]) && k in parts[1..][i].value;
      assert parts[i + 1] == parts[1..][i];
    }
    if Contributes(parts, k) && !(Merges(parts[0]) && k in parts[0].value) {
      var i :| 0 <= i < |parts| && Merges(parts[i]) && k in parts[i].value;
      assert parts[1..][i - 1] == parts[i];
    }
  }

  lemma {:induction false} NoContribution(parts: seq<Option<Dict>>, k: string)
    requires !Contributes(parts, k)
    ensures Contribution(parts, k) == []
    decreases |parts|
  {
    if parts != [] {
      ContributesHead(parts, k);
      NoContribution(parts[1..], k);
    }
  }

  /** One merge step on a field the response has. */
  lemma MergeStep(response: Dict, p: Option<Dict>, k: string)
    requires k in response
    ensures var next := if Merges(p) then MergeRecursive(response, p.value) else response;
            && k in next
            && next[k] == if Merges(p) && k in p.value then List(Elements(response[k]) + Elements(p.value[k])) else response[k]
  {
  }

  /** Concatenating a contribution onto a list that has already absorbed one. */
  lemma Reassociate(mine: seq<Json>, head: seq<Json>, rest: seq<Json>)
    ensures Elements(List(mine + head)) + rest == mine + (head + rest)
  {
  }

  /**
   * Merging accumulates: a field of the details is kept as it is when no
   * partial answer has it, and otherwise becomes the list of its elements
   * followed by every partial answer's elements for it, in option order.
   */
  lemma {:induction false} FoldedField(response: Dict, parts: seq<Option<Dict>>, k: string)
    requires k in response
    ensures k in Folded(response, parts)
    ensures Folded(response, parts)[k]
              == if Contributes(parts, k) then List(Elements(response[k]) + Contribution(parts, k)) else response[k]
    decreases |parts|
  {
    if parts != [] {
      var next := if Merges(parts[0]) then MergeRecursive(response, parts[0].value) else response;
      MergeStep(response, parts[0], k);
      FoldedField(next, parts[1..], k);
      ContributesHead(parts, k);
      var rest := Contribution(parts[1..], k);
      if Merges(parts[0]) && k in parts[0].value {
        var head := Elements(parts[0].value[k]);
        assert Contribution(parts, k) == head + rest;
        if Contributes(parts[1..], k) {
          Reassociate(Elements(response[k]), head, rest);
        } else {
          NoContribution(parts[1..], k);
          assert head + rest == head;
        }
      } else {
        assert Contribution(parts, k) == rest;
      }
    }
  }

  /** A field ends up in the merged answer exactly when the details or a merged partial answer has it. */
  lemma {:induction false} FoldedKeys(response: Dict, parts: seq<Option<Dict>>, k: string)
    ensures k in Folded(response, parts) <==> k in response || Contributes(parts, k)
    decreases |parts|
  {
    if parts != [] {
      var next := if Merges(parts[0]) then MergeRecursive(response, parts[0].value) else response;
      FoldedKeys(next, parts[1..], k);
      ContributesHead(parts, k);
    }
  }

  // ------------------------------------------------------------- movie info

  /** The mapping targets every attribute but `apis` once, each from its own raw field. */
  lemma MappingDistinct()
    ensures Untargeted(Mapping, Apis, 0)
    ensures forall i, j :: 0 <= i < j < |Mapping| ==> Mapping[i].0 != Mapping[j].0
    ensures forall i, j :: 0 <= i < j < |Mapping| ==> Mapping[i].1 != Mapping[j].1
  {
  }

  /**
   * The record `apiMovieInfo($idMovie, $options)` returns: null when the
   * details answer is an error; otherwise the details with the selected
   * partial answers merged in, mapped to a record.
   */
  function MovieInfo(id: string, options: Options, svc: Service, cfg: Settings): Option<Movie>
  {
    var raw := svc.movieDetail(id);
    if !CheckResponse(raw) then None
    else Mapped(ClassName, IdField, Mapping, Folded(Details(raw, cfg.imageUrl, cfg.yearOf), Parts(SelectOptions(options), id, svc, cfg)))
  }

  /** `apiMovieInfo($idMovie, $options)`. */
  method ApiMovieInfo(id: string, options: Options, svc: Service, cfg: Settings) returns (movie: Option<Movie>)
    ensures movie == MovieInfo(id, options, svc, cfg)
  {
    var selected := SelectOptions(options);
    var details := MovieDetails(svc.movieDetail(id), cfg.imageUrl, cfg.yearOf);
    // The details always hold `images`, so only a null answer is falsy here.
    DetailsImages(svc.movieDetail(id), cfg.imageUrl, cfg.yearOf);
    if details.None? || details.value == map[] {
      return None;
    }
    var response := MergeParts(details.value, selected, id, svc, cfg);
    movie := MapToMovieInfo(ClassName, IdField, Mapping, response);
  }

  /**
   * The `foreach` of `apiMovieInfo` over the selected options: each partial
   * answer that is not null and not empty is merged into the response.
   */
  method MergeParts(details: Dict, selected: seq<string>, id: string, svc: Service, cfg: Settings) returns (response: Dict)
    ensures response == Folded(details, Parts(selected, id, svc, cfg))
  {
    response := details;
    for i := 0 to |selected|
      invariant Folded(response, Parts(selected[i..], id, svc, cfg)) == Folded(details, Parts(selected, id, svc, cfg))
    {
      var partial := FetchPart(selected[i], id, svc, cfg);
      FoldedStep(response, selected, i, id, svc, cfg);
      if partial.Some? && partial.value != map[] {
        response := MergeRecursive(response, partial.value);
      }
    }
    assert selected[|selected|..] == [];
  }

  /** Folding the partial answers from index `i` on merges the one at `i` first. */
  lemma FoldedStep(response: Dict, options: seq<string>, i: nat, id: string, svc: Service, cfg: Settings)
    requires i < |options|
    ensures var p := Part(options[i], id, svc, cfg);
            Folded(response, Parts(options[i..], id, svc, cfg))
              == Folded(if Merges(p) then MergeRecursive(response, p.value) else response, Parts(options[i + 1..], id, svc, cfg))
  {
    assert options[i..][1..] == options[i + 1..];
    ConsIndex(Part(options[i], id, svc, cfg), Parts(options[i + 1..], id, svc, cfg));
  }

  /**
   * The title and the alternative titles joined by " - ", when there are
   * alternative titles; a null title counts as the empty string.
   */
  function Retitle(m: Movie): (r: Movie)
  {
    if !Empty(m[Aka]) then
      var title := if m[Title].Scalar? then m[Title].s else "";
      m[Title := Scalar(Implode(" - ", [title] + m[Aka].xs))]
    else m
  }

  /**
   * Retitling leaves every attribute but the title alone; with alternative
   * titles the new title is the old one, " - ", and the alternative titles
   * joined by " - ".
   */
  lemma RetitleJoins(m: Movie)
    ensures forall a: Attr :: a != Title ==> Retitle(m)[a] == m[a]
    ensures Empty(m[Aka]) ==> Retitle(m) == m
    ensures !Empty(m[Aka]) ==>
              Retitle(m)[Title] == Scalar((if m[Title].Scalar? then m[Title].s else "") + " - " + Implode(" - ", m[Aka].xs))
  {
    if !Empty(m[Aka]) {
      ImplodeCons(" - ", if m[Title].Scalar? then m[Title].s else "", m[Aka].xs);
    }
  }

  /** The record `instantSearchById($id)` returns. */
  function ById(id: string, svc: Service, cfg: Settings): Option<Movie>
  {
    var m := MovieInfo(id, NoOptions, svc, cfg);
    if m.Some? then Some(Retitle(m.value)) else None
  }

  /** `instantSearchById($id)`: the details alone, retitled with the alternative titles. */
  method InstantSearchById(id: string, svc: Service, cfg: Settings) returns (movie: Option<Movie>)
    ensures movie == ById(id, svc, cfg)
  {
    movie := ApiMovieInfo(id, NoOptions, svc, cfg);
    if movie.Some? {
      movie := Some(Retitle(movie.value));
    }
  }

  /** A record mapped from a non-empty title holds the trimmed title. */
  lemma MappedTitle(d: Dict, t: string)
    requires HasId(d, IdField) && "title" in d && d["title"] == Str(t) && t != ""
    ensures Mapped(ClassName, IdField, Mapping, d).Some?
    ensures Mapped(ClassName, IdField, Mapping, d).value[Title] == Scalar(Trim(t))
  {
    TitleEntry();
    assert Applies("title", d);
    MappedEntry(ClassName, IdField, Mapping, d, 2, Title, "title");
    CoercedText(Title, t);
  }

  /** `title` is read by the third mapping entry alone. */
  lemma TitleEntry()
    ensures 2 < |Mapping| && Mapping[2] == (Title, "title") && Untargeted(Mapping, Title, 3)
    ensures forall j :: 0 <= j < 2 ==> Mapping[j].0 != Title && Mapping[j].1 != "title"
  {
  }

  /** A record mapped from a one-element `aka` list holds that element. */
  lemma MappedAka(d: Dict, original: Json)
    requires HasId(d, IdField) && "aka" in d && d["aka"] == List([original])
    ensures Mapped(ClassName, IdField, Mapping, d).Some?
    ensures Mapped(ClassName, IdField, Mapping, d).value[Aka] == Items([StrForm(original)])
  {
    AkaEntry();
    assert Applies("aka", d);
    MappedEntry(ClassName, IdField, Mapping, d, 3, Aka, "aka");
    CoercedSingleton(Aka, original);
  }

  /** `aka` is read by the fourth mapping entry alone. */
  lemma AkaEntry()
    ensures 3 < |Mapping| && Mapping[3] == (Aka, "aka") && Untargeted(Mapping, Aka, 4)
    ensures forall j :: 0 <= j < 3 ==> Mapping[j].0 != Aka && Mapping[j].1 != "aka"
  {
  }

  /**
   * A movie whose original title differs from its title comes out of the
   * instant search by id titled "<title> - <original title>".
   */
  lemma RetitledById(id: string, svc: Service, cfg: Settings, t: string)
    requires CheckResponse(svc.movieDetail(id)) && Retitled(svc.movieDetail(id))
    requires Filled(svc.movieDetail(id), "imdb_id") && svc.movieDetail(id)["title"] == Str(t) && t != ""
    ensures ById(id, svc, cfg).Some?
    ensures ById(id, svc, cfg).value[Title] == Scalar(Trim(t) + " - " + StrForm(svc.movieDetail(id)["original_title"]))
  {
    var raw := svc.movieDetail(id);
    var d := Details(raw, cfg.imageUrl, cfg.yearOf);
    DetailsOnly(id, svc, cfg);
    DetailsKeepIdAndTitle(raw, cfg.imageUrl, cfg.yearOf);
    DetailsAka(raw, cfg.imageUrl, cfg.yearOf);
    MappedRetitled(d, t, raw["original_title"]);
  }

  /** Without options the record is mapped from the details alone. */
  lemma DetailsOnly(id: string, svc: Service, cfg: Settings)
    requires CheckResponse(svc.movieDetail(id))
    ensures MovieInfo(id, NoOptions, svc, cfg)
              == Mapped(ClassName, IdField, Mapping, Details(svc.movieDetail(id), cfg.imageUrl, cfg.yearOf))
  {
    var parts := Parts(SelectOptions(NoOptions), id, svc, cfg);
    assert parts == [];
  }

  /** Details with a title and a one-element `aka` list are retitled "<title> - <aka>". */
  lemma MappedRetitled(d: Dict, t: string, original: Json)
    requires HasId(d, IdField) && "title" in d && d["title"] == Str(t) && t != ""
    requires "aka" in d && d["aka"] == List([original])
    ensures Mapped(ClassName, IdField, Mapping, d).Some?
    ensures Retitle(Mapped(ClassName, IdField, Mapping, d).value)[Title] == Scalar(Trim(t) + " - " + StrForm(original))
  {
    MappedTitle(d, t);
    MappedAka(d, original);
    var m := Mapped(ClassName, IdField, Mapping, d).value;
    RetitleJoins(m);
    assert Implode(" - ", [StrForm(original)]) == StrForm(original);
  }

  // ----------------------------------------------------------------- search

  /** `$j[0]`: the first element of a list, the entry keyed "0" of an object, null otherwise. */
  function First(j: Json): Json
  {
    match j
    case List(items) => if items == [] then Null else items[0]
    case Object(_) => Field(j, "0")
    case _ => Null
  }

  /**
   * The TMDb id `apiFindIdFromExternal($imdbId)` returns: the id of the
   * first movie result, or null for an error answer or no results. The
   * source's `count($response['movie_results'] > 0)` is taken as the
   * evident `isset` test: an empty result list gives no id through `First`.
   */
  function FoundId(raw: Dict): Json
  {
    if !CheckResponse(raw) then Null
    else if IsSet(raw, "movie_results") then Field(First(raw["movie_results"]), "id")
    else Null
  }

  /** The record `search($imdbId)` returns: the full movie info for the TMDb id found, if any. */
  function SearchResult(imdbId: string, svc: Service, cfg: Settings): Option<Movie>
  {
    var id := FoundId(svc.find(imdbId));
    if Truthy(id) then MovieInfo(StrForm(id), AllOptions, svc, cfg) else None
  }

  /** `search($imdbId)`. */
  method Search(imdbId: string, svc: Service, cfg: Settings) returns (movie: Option<Movie>)
    ensures movie == SearchResult(imdbId, svc, cfg)
  {
    var id := FoundId(svc.find(imdbId));
    movie := None;
    if Truthy(id) {
      movie := ApiMovieInfo(StrForm(id), AllOptions, svc, cfg);
    }
  }

  // --------------------------------------------------------- instant search

  /**
   * `$x == 0` in PHP 8 for a decoded total that is set: a zero number,
   * false and the string "0" compare equal to 0; the empty string and
   * other non-numeric strings do not.
   */
  predicate LooseZero(j: Json)
  {
    (j.Num? && ZeroForm(j.lit)) || j == Bool(false) || j == Str("0")
  }

  /**
   * The results `apiSearchMovies($query, false)` returns: an empty array
   * for an error answer or a missing or zero total, the answer's results
   * otherwise (null when it has none).
   */
  function SearchResults(raw: Dict): Json
  {
    if !CheckResponse(raw) || !IsSet(raw, "total_results") || LooseZero(raw["total_results"]) then List([])
    else if "results" in raw then raw["results"]
    else Null
  }

  /**
   * What the shortening loop of `instantSearch` ends with, from query
   * `query` and the results `last` of the previous round: searches while
   * the query has at least 3 characters, dropping its last character after
   * each search that found nothing.
   */
  function Hits(query: string, last: Json, svc: Service): Json
    decreases |query|
  {
    if |query| < 3 then last
    else
      var r := SearchResults(svc.searchMovie(query));
      if Truthy(r) then r else Hits(query[..|query| - 1], r, svc)
  }

  /**
   * The loop finds the longest prefix of at least 3 characters that has
   * results, and returns that prefix's results.
   */
  lemma {:induction false} HitsLongest(query: string, last: Json, svc: Service, n: nat)
    requires 3 <= n <= |query| && Truthy(SearchResults(svc.searchMovie(query[..n])))
    requires forall m :: n < m <= |query| ==> !Truthy(SearchResults(svc.searchMovie(query[..m])))
    ensures Hits(query, last, svc) == SearchResults(svc.searchMovie(query[..n]))
    decreases |query|
  {
    assert query[..|query|] == query;
    if n < |query| {
      var shorter := query[..|query| - 1];
      forall m | n < m <= |shorter| ensures !Truthy(SearchResults(svc.searchMovie(shorter[..m]))) {
        assert shorter[..m] == query[..m];
      }
      assert shorter[..n] == query[..n];
      HitsLongest(shorter, SearchResults(svc.searchMovie(query)), svc, n);
    }
  }

  /** No prefix of at least 3 characters has results: the loop ends with nothing. */
  lemma {:induction false} HitsNone(query: string, last: Json, svc: Service)
    requires !Truthy(last)
    requires forall m :: 3 <= m <= |query| ==> !Truthy(SearchResults(svc.searchMovie(query[..m])))
    ensures !Truthy(Hits(query, last, svc))
    decreases |query|
  {
    if |query| >= 3 {
      assert query[..|query|] == query;
      var shorter := query[..|query| - 1];
      forall m | 3 <= m <= |shorter| ensures !Truthy(SearchResults(svc.searchMovie(shorter[..m]))) {
        assert shorter[..m] == query[..m];
      }
      HitsNone(shorter, SearchResults(svc.searchMovie(query)), svc);
    }
  }

  /** An array without elements is falsy, so a falsy result yields no movies. */
  lemma FalsyHasNoValues(j: Json)
    requires !Truthy(j)
    ensures Values(j) == []
  {
  }

  /** A PHP array with string keys, in insertion order: IMDb id => record. */
  type Keyed = seq<(string, Movie)>

  function KeysOf(d: Keyed): (ks: seq<string>)
    ensures |ks| == |d|
    ensures forall i :: 0 <= i < |d| ==> ks[i] == d[i].0
  {
    if d == [] then [] else [d[0].0] + KeysOf(d[1..])
  }

  /** `$d[$k]`: the record under a key, if any. */
  function Find(d: Keyed, k: string): Option<Movie>
  {
    if d == [] then None else if d[0].0 == k then Some(d[0].1) else Find(d[1..], k)
  }

  /** `$d[$k] = $m`: replaces the record in place under an existing key, appends under a new one. */
  function Put(d: Keyed, k: string, m: Movie): Keyed
  {
    if d == [] then [(k, m)]
    else if d[0].0 == k then [(k, m)] + d[1..]
    else [d[0]] + Put(d[1..], k, m)
  }

  /**
   * Assignment keeps the key order, adding a new key at the end; the key
   * then holds the new record and every other key what it held.
   */
  lemma {:induction false} PutKeeps(d: Keyed, k: string, m: Movie)
    ensures KeysOf(Put(d, k, m)) == if k in KeysOf(d) then KeysOf(d) else KeysOf(d) + [k]
    ensures Find(Put(d, k, m), k) == Some(m)
    ensures forall k' :: k' != k ==> Find(Put(d, k, m), k') == Find(d, k')
  {
    if d != [] && d[0].0 != k {
      PutKeeps(d[1..], k, m);
      assert KeysOf(d) == [d[0].0] + KeysOf(d[1..]);
      assert KeysOf(Put(d, k, m)) == [d[0].0] + KeysOf(Put(d[1..], k, m));
    } else if d != [] {
      assert KeysOf(Put(d, k, m)) == [k] + KeysOf(d[1..]);
    }
  }

  /** The records the instant search keeps for a list of search results, keyed by IMDb id. */
  function Collected(results: seq<Json>, acc: Keyed, svc: Service, cfg: Settings): Keyed
  {
    if results == [] then acc
    else
      var m := ById(StrForm(Field(results[0], "id")), svc, cfg);
      Collected(results[1..], if m.Some? then Put(acc, Key(m.value), m.value) else acc, svc, cfg)
  }

  /** The records `instantSearch($query)` returns, keyed by IMDb id. */
  function InstantResults(query: string, svc: Service, cfg: Settings): Keyed
  {
    Collected(Values(Hits(query, Null, svc)), [], svc, cfg)
  }

  /**
   * `instantSearch($query)`: searches with ever shorter prefixes of the
   * query until something is found, then fetches each result's details,
   * keyed by IMDb id.
   */
  method InstantSearch(query: string, svc: Service, cfg: Settings) returns (movies: Keyed)
    ensures movies == InstantResults(query, svc, cfg)
  {
    var q := query;
    var results := Null;
    while !Truthy(results) && |q| >= 3
      invariant !Truthy(results) ==> Hits(q, results, svc) == Hits(query, Null, svc)
      invariant Truthy(results) ==> results == Hits(query, Null, svc)
      decreases |q|
    {
      results := SearchResults(svc.searchMovie(q));
      q := q[..|q| - 1];
    }
    var items := Values(results);
    movies := [];
    for i := 0 to |items|
      invariant Collected(items[i..], movies, svc, cfg) == Collected(items, [], svc, cfg)
    {
      var movie := InstantSearchById(StrForm(Field(items[i], "id")), svc, cfg);
      assert items[i..][1..] == items[i + 1..];
      if movie.Some? {
        movies := Put(movies, Key(movie.value), movie.value);
      }
    }
    assert items[|items|..] == [];
  }
}
