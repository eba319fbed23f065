/**
 * The TMDb client's response normalisers (`TmdbApi::apiMovie*`): each turns
 * a decoded TMDb answer into the fields the movie record is mapped from,
 * or gives null when the answer is an error.
 */
module TmdbResponses {
  import opened PhpStrings
  import opened PhpValues

  /**
   * `checkResponse($response)`: an answer is an error exactly when both
   * `status_code` and `status_message` are set.
   */
  predicate CheckResponse(r: Dict)
  {
    !(IsSet(r, "status_code") && IsSet(r, "status_message"))
  }

  /** `checkResponse` on an answer that may be a list rather than an object. */
  predicate CheckAnswer(j: Json)
  {
    !(!Field(j, "status_code").Null? && !Field(j, "status_message").Null?)
  }

  /** `isset($r[$k]) && !empty($r[$k])`. */
  predicate Filled(r: Dict, k: string)
  {
    IsSet(r, k) && Truthy(r[k])
  }

  /** `$item[$field]` of each item, in order. */
  function Pluck(items: seq<Json>, field: string): (r: seq<Json>)
    ensures |r| == |items|
    ensures forall i :: 0 <= i < |items| ==> r[i] == Field(items[i], field)
  {
    seq(|items|, i requires 0 <= i < |items| => Field(items[i], field))
  }

  /** `$prefix . $item[$field]` of each item, in order. */
  function Prefixed(items: seq<Json>, field: string, prefix: string): (r: seq<Json>)
    ensures |r| == |items|
    ensures forall i :: 0 <= i < |items| ==> r[i] == Str(prefix + StrForm(Field(items[i], field)))
  {
    seq(|items|, i requires 0 <= i < |items| => Str(prefix + StrForm(Field(items[i], field))))
  }

  /**
   * Which entries of a list a normaliser keeps: crew members with a given
   * job, or alternative titles for a country (every title when there is no
   * language).
   */
  datatype Criterion = JobIs(job: string) | CountryIs(language: Option<string>)

  predicate Keeps(c: Criterion, item: Json)
  {
    match c
    case JobIs(job) => Field(item, "job") == Str(job)
    case CountryIs(language) =>
      language.None? || (!Field(item, "iso_3166_1").Null? && Lower(StrForm(Field(item, "iso_3166_1"))) == language.value)
  }

  /** `$item[$field]` of each item the criterion keeps, in order. */
  function Selected(items: seq<Json>, c: Criterion, field: string): (r: seq<Json>)
    ensures |r| <= |items|
    ensures forall i :: 0 <= i < |items| && Keeps(c, items[i]) ==> Field(items[i], field) in r
  {
    if items == [] then []
    else
      assert forall i :: 1 <= i < |items| ==> items[i] == items[1..][i - 1];
      (if Keeps(c, items[0]) then [Field(items[0], field)] else []) + Selected(items[1..], c, field)
  }

  /** Everything selected comes from a kept item. */
  lemma {:induction false} SelectedFromKept(items: seq<Json>, c: Criterion, field: string, x: Json)
    requires x in Selected(items, c, field)
    ensures exists i :: 0 <= i < |items| && Keeps(c, items[i]) && Field(items[i], field) == x
  {
    if Keeps(c, items[0]) && x == Field(items[0], field) {
      assert Keeps(c, items[0]);
    } else {
      SelectedFromKept(items[1..], c, field, x);
      var i :| 0 <= i < |items[1..]| && Keeps(c, items[1..][i]) && Field(items[1..][i], field) == x;
      assert items[i + 1] == items[1..][i];
    }
  }

  lemma {:induction false} SelectedAppend(xs: seq<Json>, ys: seq<Json>, c: Criterion, field: string)
    ensures Selected(xs + ys, c, field) == Selected(xs, c, field) + Selected(ys, c, field)
  {
    if xs == [] {
      assert xs + ys == ys;
    } else {
      assert (xs + ys)[1..] == xs[1..] + ys;
      SelectedAppend(xs[1..], ys, c, field);
    }
  }

  /** A `foreach` that pushes `$item[$field]` of each item. */
  method PluckEach(items: seq<Json>, field: string) returns (r: seq<Json>)
    ensures r == Pluck(items, field)
  {
    r := [];
    for i := 0 to |items|
      invariant |r| == i
      invariant forall j :: 0 <= j < i ==> r[j] == Field(items[j], field)
    {
      r := r + [Field(items[i], field)];
    }
  }

  /** A `foreach` that pushes `$prefix . $item[$field]` of each item. */
  method PrefixEach(items: seq<Json>, field: string, prefix: string) returns (r: seq<Json>)
    ensures r == Prefixed(items, field, prefix)
  {
    r := [];
    for i := 0 to |items|
      invariant |r| == i
      invariant forall j :: 0 <= j < i ==> r[j] == Str(prefix + StrForm(Field(items[j], field)))
    {
      r := r + [Str(prefix + StrForm(Field(items[i], field)))];
    }
  }

  // ---------------------------------------------------------------- details

  /** The keys `apiMovieDetails` removes once it has read them. */
  const DetailsDropped: set<string> :=
    {"poster_path", "backdrop_path", "original_title", "tagline", "overview", "adult",
     "belongs_to_collection", "budget", "homepage", "id", "popularity",
     "production_companies", "production_countries", "revenue", "spoken_languages", "status"}

  /** The poster and then the backdrop, each prefixed with the image base URL when present. */
  function PosterImages(raw: Dict, imageUrl: string): seq<Json>
  {
    (if Filled(raw, "poster_path") then [Str(imageUrl + StrForm(raw["poster_path"]))] else [])
    + (if Filled(raw, "backdrop_path") then [Str(imageUrl + StrForm(raw["backdrop_path"]))] else [])
  }

  /** The tagline and then the overview, each when set. */
  function PlotParts(raw: Dict): seq<string>
  {
    (if IsSet(raw, "tagline") then [StrForm(raw["tagline"])] else [])
    + (if IsSet(raw, "overview") then [StrForm(raw["overview"])] else [])
  }

  /** The original title differs from the title, so it becomes an alternative title. */
  predicate Retitled(raw: Dict)
  {
    IsSet(raw, "title") && IsSet(raw, "original_title") && raw["title"] != raw["original_title"]
  }

  /** Step one: the genres reduced to their names. */
  function NamedGenres(d: Dict): (r: Dict)
    ensures r.Keys == d.Keys
    ensures forall k :: k in d && k != "genres" ==> r[k] == d[k]
    ensures Filled(d, "genres") ==> r["genres"] == List(Pluck(Values(d["genres"]), "name"))
    ensures !Filled(d, "genres") ==> r == d
  {
    if Filled(d, "genres") then d["genres" := List(Pluck(Values(d["genres"]), "name"))] else d
  }

  /** Step two: the poster and backdrop turned into `images`. */
  function WithImages(d: Dict, imageUrl: string): (r: Dict)
    ensures r.Keys == d.Keys - {"poster_path", "backdrop_path"} + {"images"}
    ensures forall k :: k in d && k !in {"poster_path", "backdrop_path", "images"} ==> r[k] == d[k]
    ensures r["images"] == List(PosterImages(d, imageUrl))
  {
    d["images" := List(PosterImages(d, imageUrl))] - {"poster_path", "backdrop_path"}
  }

  /** Step three: the release date reduced to its year. */
  function WithYear(d: Dict, yearOf: string -> string): (r: Dict)
    ensures r.Keys == d.Keys
    ensures forall k :: k in d && k != "release_date" ==> r[k] == d[k]
    ensures Filled(d, "release_date") ==> r["release_date"] == Str(yearOf(StrForm(d["release_date"])))
    ensures !Filled(d, "release_date") ==> r == d
  {
    if Filled(d, "release_date") then d["release_date" := Str(yearOf(StrForm(d["release_date"])))] else d
  }

  /** Step four: the spoken languages reduced to their codes. */
  function LanguageCodes(d: Dict): (r: Dict)
    ensures r.Keys == d.Keys
    ensures forall k :: k in d && k != "spoken_languages" ==> r[k] == d[k]
  {
    if Filled(d, "spoken_languages") then d["spoken_languages" := List(Pluck(Values(d["spoken_languages"]), "iso_639_1"))] else d
  }

  /** Step five: a differing original title kept as the alternative title. */
  function WithAka(d: Dict): (r: Dict)
    ensures r.Keys == d.Keys + (if Retitled(d) then {"aka"} else {})
    ensures forall k :: k in d && k != "aka" ==> r[k] == d[k]
    ensures Retitled(d) ==> r["aka"] == List([d["original_title"]])
    ensures !Retitled(d) ==> r == d
  {
    if Retitled(d) then d["aka" := List([d["original_title"]])] else d
  }

  /** Step six: the tagline and overview joined into `plot`. */
  function WithPlot(d: Dict): (r: Dict)
    ensures r.Keys == d.Keys - {"original_title", "tagline", "overview"} + {"plot"}
    ensures forall k :: k in d && k !in {"original_title", "tagline", "overview", "plot"} ==> r[k] == d[k]
    ensures r["plot"] == Str(Implode(" - ", PlotParts(d)))
  {
    (d - {"original_title", "tagline", "overview"})["plot" := Str(Implode(" - ", PlotParts(d)))]
  }

  /** Steps one to four of `apiMovieDetails`. */
  function Spoken(raw: Dict, imageUrl: string, yearOf: string -> string): Dict
  {
    LanguageCodes(WithYear(WithImages(NamedGenres(raw), imageUrl), yearOf))
  }

  /** The normalised movie details: the steps of `apiMovieDetails` in order, then the unused fields removed. */
  function Details(raw: Dict, imageUrl: string, yearOf: string -> string): Dict
  {
    WithPlot(WithAka(Spoken(raw, imageUrl, yearOf))) - DetailsDropped
  }

  /** A field that steps one to four do not touch keeps its presence and its value. */
  lemma SpokenKeeps(raw: Dict, imageUrl: string, yearOf: string -> string, k: string)
    requires k != "genres" && k != "poster_path" && k != "backdrop_path" && k != "images"
    requires k != "release_date" && k != "spoken_languages"
    ensures (k in Spoken(raw, imageUrl, yearOf)) == (k in raw)
    ensures k in raw ==> Spoken(raw, imageUrl, yearOf)[k] == raw[k]
  {
    var genres := NamedGenres(raw);
    var imaged := WithImages(genres, imageUrl);
    assert (k in imaged) == (k in raw);
    var dated := WithYear(imaged, yearOf);
    assert (k in dated) == (k in raw);
  }

  /** Steps one to four keep the title and the original title, so whether a movie is retitled. */
  lemma SpokenRetitled(raw: Dict, imageUrl: string, yearOf: string -> string)
    ensures Retitled(Spoken(raw, imageUrl, yearOf)) == Retitled(raw)
    ensures "original_title" in raw ==> Spoken(raw, imageUrl, yearOf)["original_title"] == raw["original_title"]
  {
    SpokenKeeps(raw, imageUrl, yearOf, "title");
    SpokenKeeps(raw, imageUrl, yearOf, "original_title");
  }

  /** Steps one to four trade the poster and backdrop for `images`. */
  lemma SpokenKeys(raw: Dict, imageUrl: string, yearOf: string -> string)
    ensures Spoken(raw, imageUrl, yearOf).Keys == raw.Keys - {"poster_path", "backdrop_path"} + {"images"}
  {
    var genres := NamedGenres(raw);
    var imaged := WithImages(genres, imageUrl);
    assert imaged.Keys == raw.Keys - {"poster_path", "backdrop_path"} + {"images"};
  }

  /** Set algebra of the details' fields: what is removed early or late and what is added. */
  lemma DetailsKeySets<T>(raw: set<T>, early: set<T>, image: T, extra: set<T>, late: set<T>, plot: T, dropped: set<T>)
    requires early <= dropped && late <= dropped && image !in dropped && plot !in dropped && extra !! dropped
    ensures (((raw - early + {image}) + extra) - late + {plot}) - dropped == (raw - dropped) + {image, plot} + extra
  {
  }

  /** The fields the normalisation removes early and late are all dropped; the fields it adds are not. */
  lemma DroppedFields()
    ensures {"poster_path", "backdrop_path"} <= DetailsDropped
    ensures {"original_title", "tagline", "overview"} <= DetailsDropped
    ensures "images" !in DetailsDropped && "plot" !in DetailsDropped && "aka" !in DetailsDropped
    ensures "genres" !in DetailsDropped && "release_date" !in DetailsDropped
  {
  }

  /** The fields the normalised details hold: the kept fields of the answer, `images`, `plot`, and `aka` for a retitled movie. */
  lemma DetailsKeys(raw: Dict, imageUrl: string, yearOf: string -> string)
    ensures Details(raw, imageUrl, yearOf).Keys
              == (raw.Keys - DetailsDropped) + {"images", "plot"} + (if Retitled(raw) then {"aka"} else {})
  {
    SpokenKeys(raw, imageUrl, yearOf);
    SpokenRetitled(raw, imageUrl, yearOf);
    DroppedFields();
    var extra: set<string> := if Retitled(raw) then {"aka"} else {};
    assert extra !! DetailsDropped;
    DetailsKeySets(raw.Keys, {"poster_path", "backdrop_path"}, "images", extra,
                   {"original_title", "tagline", "overview"}, "plot", DetailsDropped);
  }

  /** The last step keeps a field it does not remove or compute, and the final removal keeps it when it is not dropped. */
  lemma PlottedKeeps(d: Dict, k: string)
    requires k in d && k != "original_title" && k != "tagline" && k != "overview" && k != "plot"
    requires k !in DetailsDropped
    ensures k in WithPlot(d) - DetailsDropped && (WithPlot(d) - DetailsDropped)[k] == d[k]
  {
  }

  /** `images`: the poster and then the backdrop URL. */
  lemma DetailsImages(raw: Dict, imageUrl: string, yearOf: string -> string)
    ensures "images" in Details(raw, imageUrl, yearOf)
    ensures Details(raw, imageUrl, yearOf)["images"] == List(PosterImages(raw, imageUrl))
  {
    var genres := NamedGenres(raw);
    assert PosterImages(genres, imageUrl) == PosterImages(raw, imageUrl);
    var imaged := WithImages(genres, imageUrl);
    var dated := WithYear(imaged, yearOf);
    assert dated["images"] == imaged["images"];
    var spoken := LanguageCodes(dated);
    assert spoken["images"] == imaged["images"];
    var aka := WithAka(spoken);
    assert aka["images"] == imaged["images"];
    DroppedFields();
    PlottedKeeps(aka, "images");
  }

  /** `plot`: the tagline and the overview, each when set, joined by " - ". */
  lemma DetailsPlot(raw: Dict, imageUrl: string, yearOf: string -> string)
    ensures "plot" in Details(raw, imageUrl, yearOf)
    ensures Details(raw, imageUrl, yearOf)["plot"] == Str(Implode(" - ", PlotParts(raw)))
  {
    var spoken := Spoken(raw, imageUrl, yearOf);
    SpokenKeeps(raw, imageUrl, yearOf, "tagline");
    SpokenKeeps(raw, imageUrl, yearOf, "overview");
    var aka := WithAka(spoken);
    assert PlotParts(aka) == PlotParts(raw);
    DroppedFields();
  }

  /** `aka`: a differing original title becomes the only alternative title. */
  lemma DetailsAka(raw: Dict, imageUrl: string, yearOf: string -> string)
    requires Retitled(raw)
    ensures "aka" in Details(raw, imageUrl, yearOf)
    ensures Details(raw, imageUrl, yearOf)["aka"] == List([raw["original_title"]])
  {
    SpokenRetitled(raw, imageUrl, yearOf);
    var aka := WithAka(Spoken(raw, imageUrl, yearOf));
    assert aka["aka"] == List([raw["original_title"]]);
    DroppedFields();
    PlottedKeeps(aka, "aka");
  }

  /** `genres`: reduced to the genres' names, in order. */
  lemma DetailsGenres(raw: Dict, imageUrl: string, yearOf: string -> string)
    requires Filled(raw, "genres")
    ensures "genres" in Details(raw, imageUrl, yearOf)
    ensures Details(raw, imageUrl, yearOf)["genres"] == List(Pluck(Values(raw["genres"]), "name"))
  {
    var genres := NamedGenres(raw);
    var imaged := WithImages(genres, imageUrl);
    assert imaged["genres"] == genres["genres"];
    var dated := WithYear(imaged, yearOf);
    var spoken := LanguageCodes(dated);
    var aka := WithAka(spoken);
    assert aka["genres"] == genres["genres"];
    DroppedFields();
    PlottedKeeps(aka, "genres");
  }

  /** `release_date`: reduced to the year of the date. */
  lemma DetailsYear(raw: Dict, imageUrl: string, yearOf: string -> string)
    requires Filled(raw, "release_date")
    ensures "release_date" in Details(raw, imageUrl, yearOf)
    ensures Details(raw, imageUrl, yearOf)["release_date"] == Str(yearOf(StrForm(raw["release_date"])))
  {
    var genres := NamedGenres(raw);
    var imaged := WithImages(genres, imageUrl);
    assert imaged["release_date"] == raw["release_date"];
    var dated := WithYear(imaged, yearOf);
    var spoken := LanguageCodes(dated);
    var aka := WithAka(spoken);
    assert aka["release_date"] == dated["release_date"];
    DroppedFields();
    PlottedKeeps(aka, "release_date");
  }

  /** Every field the normalisation neither removes nor computes is passed through unchanged. */
  lemma DetailsPassThrough(raw: Dict, imageUrl: string, yearOf: string -> string, k: string)
    requires k in raw && k !in DetailsDropped && k !in {"images", "plot"}
    requires !(k == "aka" && Retitled(raw)) && !(k == "genres" && Filled(raw, "genres"))
    requires !(k == "release_date" && Filled(raw, "release_date"))
    ensures k in Details(raw, imageUrl, yearOf) && Details(raw, imageUrl, yearOf)[k] == raw[k]
  {
    assert k != "poster_path" && k != "backdrop_path" && k != "spoken_languages";
    assert k != "original_title" && k != "tagline" && k != "overview";
    var genres := NamedGenres(raw);
    assert genres[k] == raw[k];
    var imaged := WithImages(genres, imageUrl);
    assert imaged[k] == raw[k];
    var dated := WithYear(imaged, yearOf);
    assert dated[k] == raw[k];
    var spoken := LanguageCodes(dated);
    assert spoken[k] == raw[k];
    SpokenRetitled(raw, imageUrl, yearOf);
    var aka := WithAka(spoken);
    assert aka[k] == raw[k];
    PlottedKeeps(aka, k);
  }

  /** The IMDb id and the title are passed through. */
  lemma DetailsKeepIdAndTitle(raw: Dict, imageUrl: string, yearOf: string -> string)
    ensures "imdb_id" in raw ==>
              "imdb_id" in Details(raw, imageUrl, yearOf) && Details(raw, imageUrl, yearOf)["imdb_id"] == raw["imdb_id"]
    ensures "title" in raw ==>
              "title" in Details(raw, imageUrl, yearOf) && Details(raw, imageUrl, yearOf)["title"] == raw["title"]
  {
    if "imdb_id" in raw {
      DetailsPassThrough(raw, imageUrl, yearOf, "imdb_id");
    }
    if "title" in raw {
      DetailsPassThrough(raw, imageUrl, yearOf, "title");
    }
  }

  /** The genres loop of `apiMovieDetails`. */
  method NameGenres(d: Dict) returns (r: Dict)
    ensures r == NamedGenres(d)
  {
    r := d;
    if Filled(r, "genres") {
      var genres := PluckEach(Values(r["genres"]), "name");
      r := r["genres" := List(genres)];
    }
  }

  /** The images block of `apiMovieDetails`: pushes the poster, then the backdrop. */
  method AddImages(d: Dict, imageUrl: string) returns (r: Dict)
    ensures r == WithImages(d, imageUrl)
  {
    var images: seq<Json> := [];
    if Filled(d, "poster_path") {
      images := images + [Str(imageUrl + StrForm(d["poster_path"]))];
    }
    if Filled(d, "backdrop_path") {
      images := images + [Str(imageUrl + StrForm(d["backdrop_path"]))];
    }
    assert images == PosterImages(d, imageUrl);
    r := d["images" := List(images)] - {"poster_path", "backdrop_path"};
  }

  /** The spoken-languages loop of `apiMovieDetails`. */
  method CodeLanguages(d: Dict) returns (r: Dict)
    ensures r == LanguageCodes(d)
  {
    r := d;
    if Filled(r, "spoken_languages") {
      var languages := PluckEach(Values(r["spoken_languages"]), "iso_639_1");
      r := r["spoken_languages" := List(languages)];
    }
  }

  /** The plot block of `apiMovieDetails`: pushes the tagline, then the overview. */
  method AddPlot(d: Dict) returns (r: Dict)
    ensures r == WithPlot(d)
  {
    var plot: seq<string> := [];
    if IsSet(d, "tagline") {
      plot := plot + [StrForm(d["tagline"])];
    }
    if IsSet(d, "overview") {
      plot := plot + [StrForm(d["overview"])];
    }
    r := (d - {"original_title", "tagline", "overview"})["plot" := Str(Implode(" - ", plot))];
  }

  /** `apiMovieDetails`: null for an error answer, the normalised details otherwise. */
  method MovieDetails(raw: Dict, imageUrl: string, yearOf: string -> string) returns (r: Option<Dict>)
    ensures r == if CheckResponse(raw) then Some(Details(raw, imageUrl, yearOf)) else None
  {
    if !CheckResponse(raw) {
      return None;
    }
    var response := NameGenres(raw);
    response := AddImages(response, imageUrl);
    response := WithYear(response, yearOf);
    response := CodeLanguages(response);
    response := WithAka(response);
    response := AddPlot(response);
    return Some(response - DetailsDropped);
  }

  // ---------------------------------------------------- alternative titles

  /** The normalised alternative titles, in the order `apiMovieAlternativeTitle` builds them. */
  function AlternativeTitles(raw: Dict, language: Option<string>): Dict
  {
    var response := if Filled(raw, "titles") then raw["aka" := List(Selected(Values(raw["titles"]), CountryIs(language), "title"))] else raw;
    response - {"titles", "id"}
  }

  /**
   * The titles for the client's language (all of them when it has none)
   * become `aka`; the raw list and the id are removed; every other field is
   * passed through.
   */
  lemma AlternativeTitlesFields(raw: Dict, language: Option<string>)
    ensures AlternativeTitles(raw, language).Keys == (raw.Keys - {"titles", "id"}) + (if Filled(raw, "titles") then {"aka"} else {})
    ensures Filled(raw, "titles") ==>
              AlternativeTitles(raw, language)["aka"] == List(Selected(Values(raw["titles"]), CountryIs(language), "title"))
    ensures forall k :: k in AlternativeTitles(raw, language) && !(k == "aka" && Filled(raw, "titles")) ==>
              AlternativeTitles(raw, language)[k] == raw[k]
  {
  }

  /** A `foreach` that pushes `$item[$field]` of each item the criterion keeps. */
  method SelectEach(items: seq<Json>, c: Criterion, field: string) returns (r: seq<Json>)
    ensures r == Selected(items, c, field)
  {
    r := [];
    for i := 0 to |items|
      invariant r == Selected(items[..i], c, field)
    {
      SelectedSnoc(items, i, c, field);
      if Keeps(c, items[i]) {
        r := r + [Field(items[i], field)];
      }
    }
    assert items[..|items|] == items;
  }

  lemma SelectedSnoc(items: seq<Json>, i: nat, c: Criterion, field: string)
    requires i < |items|
    ensures Keeps(c, items[i]) ==> Selected(items[..i + 1], c, field) == Selected(items[..i], c, field) + [Field(items[i], field)]
    ensures !Keeps(c, items[i]) ==> Selected(items[..i + 1], c, field) == Selected(items[..i], c, field)
  {
    SelectedAppend(items[..i], [items[i]], c, field);
    assert items[..i + 1] == items[..i] + [items[i]];
    assert Selected([items[i]], c, field) == if Keeps(c, items[i]) then [Field(items[i], field)] else [];
  }

  /** `apiMovieAlternativeTitle`: null for an error answer. */
  method MovieAlternativeTitle(raw: Dict, language: Option<string>) returns (r: Option<Dict>)
    ensures r == if CheckResponse(raw) then Some(AlternativeTitles(raw, language)) else None
  {
    if !CheckResponse(raw) {
      return None;
    }
    var response := raw;
    if Filled(response, "titles") {
      var data := SelectEach(Values(response["titles"]), CountryIs(language), "title");
      response := response["aka" := List(data)];
    }
    return Some(response - {"titles", "id"});
  }

  // ----------------------------------------------------------------- images

  /** The normalised images: only `images`, each image's path prefixed with the base URL. */
  function ImagesOf(raw: Json, imageUrl: string): (r: Dict)
    ensures r.Keys == {"images"}
    ensures r["images"].List? && |r["images"].items| == |Values(raw)|
    ensures forall i :: 0 <= i < |Values(raw)| ==>
              r["images"].items[i] == Str(imageUrl + StrForm(Field(Values(raw)[i], "file_path")))
  {
    map["images" := List(if Truthy(raw) then Prefixed(Values(raw), "file_path", imageUrl) else [])]
  }

  /** `apiMovieImages`: null for an error answer. */
  method MovieImages(raw: Json, imageUrl: string) returns (r: Option<Dict>)
    ensures r == if CheckAnswer(raw) then Some(ImagesOf(raw, imageUrl)) else None
  {
    if !CheckAnswer(raw) {
      return None;
    }
    var data: seq<Json> := [];
    if Truthy(raw) {
      data := PrefixEach(Values(raw), "file_path", imageUrl);
    }
    return Some(map["images" := List(data)]);
  }

  // ---------------------------------------------------------------- credits

  /** The crew loop runs at least once, and so assigns the directors and the writers. */
  predicate HasCrew(raw: Dict)
  {
    Filled(raw, "crew") && Values(raw["crew"]) != []
  }

  /** The normalised credits, in the order `apiMovieCredits` builds them. */
  function Credits(raw: Dict): Dict
  {
    var actors := if Filled(raw, "cast") then raw["actors" := List(Pluck(Values(raw["cast"]), "name"))] else raw;
    var uncast := actors - {"cast"};
    var crewed :=
      if Filled(uncast, "crew") then
        var crew := Values(uncast["crew"]);
        var roles :=
          if crew != [] then
            uncast["directors" := List(Selected(crew, JobIs("Director"), "name"))]
                  ["writers" := List(Selected(crew, JobIs("Screenplay"), "name"))]
          else uncast;
        roles - {"crew"}
      else uncast;
    crewed - {"id"}
  }

  /**
   * The cast's names become `actors`; the names of the crew members whose
   * job is Director or Screenplay become `directors` and `writers`, set
   * only when the crew has members; the cast, a non-empty crew and the id
   * are removed; every other field is passed through.
   */
  lemma CreditsFields(raw: Dict)
    ensures Credits(raw).Keys == (raw.Keys - {"cast", "id"} - (if Filled(raw, "crew") then {"crew"} else {}))
                                 + (if Filled(raw, "cast") then {"actors"} else {})
                                 + (if HasCrew(raw) then {"directors", "writers"} else {})
    ensures Filled(raw, "cast") ==> Credits(raw)["actors"] == List(Pluck(Values(raw["cast"]), "name"))
    ensures HasCrew(raw) ==> Credits(raw)["directors"] == List(Selected(Values(raw["crew"]), JobIs("Director"), "name"))
    ensures HasCrew(raw) ==> Credits(raw)["writers"] == List(Selected(Values(raw["crew"]), JobIs("Screenplay"), "name"))
    ensures forall k :: (k in Credits(raw) && !(k == "actors" && Filled(raw, "cast"))
                         && !(k in {"directors", "writers"} && HasCrew(raw))) ==> Credits(raw)[k] == raw[k]
  {
    var actors := if Filled(raw, "cast") then raw["actors" := List(Pluck(Values(raw["cast"]), "name"))] else raw;
    var uncast := actors - {"cast"};
    assert Filled(uncast, "crew") == Filled(raw, "crew");
    assert Filled(raw, "crew") ==> uncast["crew"] == raw["crew"];
  }

  /** The crew loop: one pass that pushes directors and writers by job. */
  method CrewRoles(crew: seq<Json>) returns (directors: seq<Json>, writers: seq<Json>)
    ensures directors == Selected(crew, JobIs("Director"), "name")
    ensures writers == Selected(crew, JobIs("Screenplay"), "name")
  {
    directors, writers := [], [];
    for i := 0 to |crew|
      invariant directors == Selected(crew[..i], JobIs("Director"), "name")
      invariant writers == Selected(crew[..i], JobIs("Screenplay"), "name")
    {
      SelectedSnoc(crew, i, JobIs("Director"), "name");
      SelectedSnoc(crew, i, JobIs("Screenplay"), "name");
      var job := Field(crew[i], "job");
      if job == Str("Director") {
        directors := directors + [Field(crew[i], "name")];
      } else if job == Str("Screenplay") {
        writers := writers + [Field(crew[i], "name")];
      }
    }
    assert crew[..|crew|] == crew;
  }

  /** `apiMovieCredits`: null for an error answer. */
  method MovieCredits(raw: Dict) returns (r: Option<Dict>)
    ensures r == if CheckResponse(raw) then Some(Credits(raw)) else None
  {
    if !CheckResponse(raw) {
      return None;
    }
    var response := raw;
    if Filled(response, "cast") {
      var data := PluckEach(Values(response["cast"]), "name");
      response := response["actors" := List(data)];
    }
    response := response - {"cast"};
    if Filled(response, "crew") {
      var crew := Values(response["crew"]);
      var directors, writers := CrewRoles(crew);
      if crew != [] {
        response := response["directors" := List(directors)]["writers" := List(writers)];
      }
      response := response - {"crew"};
    }
    return Some(response - {"id"});
  }

  // --------------------------------------------------------------- trailers

  /** The normalised trailers, in the order `apiMovieTrailers` builds them. */
  function TrailersOf(raw: Dict): Dict
  {
    var response := if Filled(raw, "youtube") then raw["trailers" := List(Prefixed(Values(raw["youtube"]), "source", "youtube:"))] else raw;
    response - {"youtube", "quicktime", "id"}
  }

  /**
   * Each YouTube trailer becomes `youtube:<source>` in `trailers`; both
   * trailer lists and the id are removed; every other field is passed
   * through.
   */
  lemma TrailersFields(raw: Dict)
    ensures TrailersOf(raw).Keys == (raw.Keys - {"youtube", "quicktime", "id"}) + (if Filled(raw, "youtube") then {"trailers"} else {})
    ensures Filled(raw, "youtube") ==> TrailersOf(raw)["trailers"] == List(Prefixed(Values(raw["youtube"]), "source", "youtube:"))
    ensures forall k :: k in TrailersOf(raw) && !(k == "trailers" && Filled(raw, "youtube")) ==> TrailersOf(raw)[k] == raw[k]
  {
  }

  /** `apiMovieTrailers`: null for an error answer. */
  method MovieTrailers(raw: Dict) returns (r: Option<Dict>)
    ensures r == if CheckResponse(raw) then Some(TrailersOf(raw)) else None
  {
    if !CheckResponse(raw) {
      return None;
    }
    var response := raw;
    if Filled(response, "youtube") {
      var data := PrefixEach(Values(response["youtube"]), "source", "youtube:");
      response := response["trailers" := List(data)];
    }
    return Some(response - {"youtube", "quicktime", "id"});
  }

  // --------------------------------------------------------------- keywords

  /** The normalised keywords, in the order `apiMovieKeywords` builds them. */
  function Keywords(raw: Dict): Dict
  {
    var response := if Filled(raw, "keywords") then raw["tags" := List(Pluck(Values(raw["keywords"]), "name"))] else raw;
    response - {"keywords", "id"}
  }

  /** The keywords' names become `tags`; the raw list and the id are removed; every other field is passed through. */
  lemma KeywordsFields(raw: Dict)
    ensures Keywords(raw).Keys == (raw.Keys - {"keywords", "id"}) + (if Filled(raw, "keywords") then {"tags"} else {})
    ensures Filled(raw, "keywords") ==> Keywords(raw)["tags"] == List(Pluck(Values(raw["keywords"]), "name"))
    ensures forall k :: k in Keywords(raw) && !(k == "tags" && Filled(raw, "keywords")) ==> Keywords(raw)[k] == raw[k]
  {
  }

  /** `apiMovieKeywords`: null for an error answer. */
  method MovieKeywords(raw: Dict) returns (r: Option<Dict>)
    ensures r == if CheckResponse(raw) then Some(Keywords(raw)) else None
  {
    if !CheckResponse(raw) {
      return None;
    }
    var response := raw;
    if Filled(response, "keywords") {
      var data := PluckEach(Values(response["keywords"]), "name");
      response := response["tags" := List(data)];
    }
    return Some(response - {"keywords", "id"});
  }
}
