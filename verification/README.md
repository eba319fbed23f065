# YiiImdb movie-information core, modelled in Dafny

YiiImdb is a set of Yii components that look up movie metadata from several
providers and turn each provider's answer into one movie record. This project
models the core of that code. Each part is written in the form the PHP code
has: classes whose fields change where the PHP updates objects in place,
methods with loops where the PHP loops, and pure functions and lemmas elsewhere.
Where PHP versions differ, the model follows PHP 8: loose comparison (`==`),
`strtolower` (ASCII only) and the type of a value passed to `count`.

The parts modelled, by PHP class:

- **`BaseApi`** (module `Apis`) is the provider base class. It holds the
  provider name, its cache duration and its last error message. It builds the
  provider's cache keys. It also keeps the request-error flag: a cache entry
  that lives for 600 seconds and switches the provider off while it is live.
- **The application cache** (module `CacheStore`) stands in for
  `Yii::app()->cache`. It is a key/value store with expiry times, read against
  an abstract clock. The get, store and delete rules that `BaseApi` and
  `MovieInfoComponent` wrap around it are modelled too.
- **`BaseCurlApi`** (modules `CurlApi` and `UrlQuery`) covers:
  - how a transfer is classified into a response and an error message;
  - how a JSON body is checked;
  - the recursive query-string builder, with PHP's `urlencode`;
  - the `{field}` and `{field:first}` placeholder substitution.
- **`TmdbApi`** (modules `Tmdb` and `TmdbResponses`) covers:
  - the six response normalisers: details, alternative titles, images,
    credits, trailers and keywords;
  - the `array_merge_recursive` fold in `apiMovieInfo`;
  - `instantSearchById` and its retitling;
  - `search` by IMDb id;
  - the query-shortening loop of `instantSearch`.
- **`ImdbSuggestionApi`** (module `ImdbSuggestion`) covers:
  - the suggestion URL;
  - stripping the JSONP wrapper;
  - mapping each suggestion to a record;
  - the control flow of `instantSearch`: cache hit, retry with a shorter
    query, error flag, and caching of non-empty answers.
- **`mapToMovieInfo`** (module `FieldMapping`) copies raw fields into a movie
  record through a provider's field table. It coerces each value to its
  attribute's type: it splits text on `,` for list attributes and joins lists
  for text attributes.
- **`MovieInfoComponent`** (modules `MovieInfoComponents` and `MergePolicy`)
  holds two dictionaries of records keyed by IMDb id and mirrors both into the
  cache. It runs three searches over the configured providers and skips a
  provider whose error flag is live. The attribute-by-attribute merge
  (`mergeMovies`) is modelled as well.
- **`ImdbComponent`** (module `Imdb`) covers:
  - the `apiOptions` table of two providers;
  - the choice of search parameters;
  - `buildUrl`/`buildQuery`;
  - `makeRequest` with its response cache and its error messages;
  - `processResponse`;
  - the list of movies it collects.

The transport, the JSON decoder, `md5` and the date parser are not modelled.
They become parameters: functions from a request to its answer. In
`MovieInfoComponent.instantSearch` the default provider, `ImdbSuggestionApi`,
is the modelled client. Its search reads and writes the same cache as the
component, so a failed host lookup in one search switches it off for the
searches that follow. What other provider classes answer to an instant
search, and what every provider answers to the by-id searches, are
parameters. The movie record (`MovieInfo`) is not part of this model. Its
attributes and their types (text or list) are declared in module `Movies`
from the attributes the providers fill in.

In two places the code departs from what its design suggests, and the model
follows the code:

- `mergeMovies` is not commutative (`MergePolicy.MergeNotCommutative`). Two
  text values of equal length keep the existing one. The lists are
  concatenated in argument order.
- Only a curl "couldn't resolve host" failure in `ImdbSuggestionApi` sets a
  provider's error flag. The TMDb client never sets it.

Four other departures are listed under Findings. For each, one member models
the code as written and a lemma shows where it goes wrong. The classes and the
rest of the model use the corrected behaviour:

- `ImdbSuggestionApi` keeps null entries for suggestions without an id. The
  corrected collection drops them.
- `instantSearch` returns every earlier instant result when nothing is found.
  The corrected search returns only the records this call found.
- `updateInstantResults` writes the instant results under the movies key. The
  corrected update writes them under their own key.
- `clearMovies` fails on an undeclared property before it deletes the cache
  entry. The corrected clear deletes the entry.

## Model

| member | source | states |
|---|---|---|
| Apis.CacheKeyInjective | components/BaseApi.php:96-99 | two cache keys of one provider are equal only when their key arguments are equal (a null key differs from every string key) |
| Apis.ErrorKeyPerProvider | components/BaseApi.php:105-113 | the request-error flag key of one provider never equals that of another provider |
| Apis.BaseApi.constructor | components/BaseApi.php:80-85 | the name is the lower-cased class name; the cache duration is the argument when given and 600 otherwise; there is no error yet |
| Apis.BaseApi.HasRequestErrors | components/BaseApi.php:105-108 | true exactly when the cache holds a live, non-empty entry under the provider's error key |
| Apis.BaseApi.SetRequestErrors | components/BaseApi.php:110-113 | stores `true` under the error key, expiring 600 seconds from now; nothing else in the cache changes; afterwards `HasRequestErrors()` holds |
| Apis.ForeignKeys | components/BaseApi.php:96-99 | for provider names without `-`, no suffixed key of one provider starts with another provider's key prefix |
| Apis.FlagLastsWindow | components/BaseApi.php:105-113 | a flag set at some time is live for each of the next 600 seconds, whatever the provider's own cache duration |
| Apis.ErrorFlagWindow | components/BaseApi.php:105-113 | after a flag is set, the provider reports errors exactly while fewer than 600 seconds have passed, whatever its own cache duration |
| CacheStore.Cache.Get | components/BaseApi.php:127 | a value is returned exactly when the key is present and not yet expired, and it is the stored value |
| CacheStore.Cache.Set | components/BaseApi.php:146 | the key now maps to the value, expiring at now plus the duration (a duration that is not positive means no expiry); other keys and the clock are unchanged; a read returns the value |
| CacheStore.Cache.Delete | components/BaseApi.php:160 | the key is gone and nothing else changes |
| CacheStore.Served | components/BaseApi.php:123-132 | a read hits exactly when caching is on (the duration, or the provider's own when it is 0) and a cache exists and holds a live, non-empty entry; the hit is that entry |
| CacheStore.Stored | components/BaseApi.php:141-149 | storing never changes whether a cache exists or what the clock reads |
| CacheStore.StoredServed | components/BaseApi.php:123-149 | what was stored is read back under its key; other keys read as before; with caching off, no cache or empty data, storing changes nothing |
| CacheStore.FromCache | components/BaseApi.php:123-132 | `getFromCache` on a live cache object follows the `Served` rule |
| CacheStore.StoreToCache | components/BaseApi.php:141-149 | `storeToCache` changes the cache as `Stored` says; stored data is read back under every duration that keeps caching on |
| CacheStore.StoredKeepsServed | components/BaseApi.php:141-149 | a write never stops another key, or its own, from serving a value |
| CacheStore.AgreeOutsideServed | components/BaseApi.php:123-132 | cache states that agree outside a set of keys read alike on every other key |
| CacheStore.AgreeOutsideStored | components/BaseApi.php:141-149 | the same write outside the set keeps such states agreeing; a write inside the set keeps a state agreeing with what it was |
| CacheStore.Removed | components/BaseApi.php:157-161 | after a delete the key never hits, and every other key reads as before |
| CacheStore.DeleteCache | components/BaseApi.php:157-161 | `deleteCache` changes the cache as `Removed` says |
| CurlApi.StatusMessage | components/BaseCurlApi.php:109-117 | there is a fixed message exactly for the statuses 400, 401, 403 and 404 |
| CurlApi.Classify | components/BaseCurlApi.php:87-125 | a completed transfer yields its response with no error; curl error 6 yields `false` and the host message; a 400 yields the decoded body (null when it does not decode) and a message taken from its `error` field; 401/403/404 yield null and their message; any other failure yields null and no message |
| CurlApi.MakeRequest | components/BaseCurlApi.php:87-125 | returns the classified response; sets the provider's error to the classified message, or leaves it unchanged when there is none |
| CurlApi.ClassifiedResponses | components/BaseCurlApi.php:39-42 | a response passes `checkResponse` exactly when the transfer completed; it is `false` exactly on curl error 6 or on a 400 whose body decodes to `false`; a decoded error body comes only from a 400 |
| CurlApi.ProcessResponse | components/BaseCurlApi.php:133-147 | returns the decoded body exactly when it decodes and has no `error` field; otherwise sets the error to "not JSON" or to the body's `error` value |
| UrlQuery.Utf8 | components/BaseCurlApi.php:58 | a character becomes 1 to 4 bytes, and ASCII characters exactly one byte equal to their code |
| UrlQuery.DecodeEncodeBytes | components/BaseCurlApi.php:58 | percent-decoding the `urlencode` form of any byte string gives the bytes back |
| UrlQuery.UrlDecodeEncode | components/BaseCurlApi.php:58 | decoding `urlencode(s)` gives the UTF-8 bytes of `s` |
| UrlQuery.UrlEncodeSafe | components/BaseCurlApi.php:58 | `urlencode` output holds only URL-safe characters, and never `&`, `=`, `[` or `]` |
| UrlQuery.BuildQuery | components/BaseCurlApi.php:51-62 | the loop builds the query the recursive definition gives, nested arrays as `outer[key]=value&` |
| UrlQuery.FlatQueryJoin | components/BaseCurlApi.php:51-62 | for flat parameters the query is the `key=value` pairs joined by `&`, with a trailing `&` |
| UrlQuery.PairsAt | components/BaseCurlApi.php:58 | the j-th pair is the j-th key, `=`, and the url-encoded j-th value |
| UrlQuery.FlatQuerySplit | components/BaseCurlApi.php:51-62 | splitting a flat query on `&` gives back every `key=value` pair in order, then an empty piece; no parameters give the empty query |
| UrlQuery.SubstitutedAppend | components/BaseCurlApi.php:71-79 | substituting two parameter lists in turn equals substituting their concatenation |
| UrlQuery.BuildUrlFromPlaceholders | components/BaseCurlApi.php:71-79 | the loop replaces `{p:first}` with the first byte of the lower-cased value and `{p}` with the lower-cased value, for each parameter in order |
| PhpStrings.TrimChars | components/ImdbSuggestionApi.php:108 | the result is no longer than the input and neither starts nor ends with a trimmed character |
| PhpStrings.TrimCharsPadded | components/ImdbSuggestionApi.php:108 | trimming text padded only with trimmed characters gives the text back |
| PhpStrings.TrimCharsIdempotent | components/ImdbSuggestionApi.php:108 | trimming twice is trimming once |
| PhpStrings.Explode | components/TmdbApi.php:548 | `explode` gives at least one piece, and no piece holds the delimiter |
| PhpStrings.ImplodeExplode | components/TmdbApi.php:548 | joining the pieces of `explode(d, s)` with `d` gives `s` back |
| PhpStrings.ExplodeImplode | components/TmdbApi.php:550 | splitting the join of delimiter-free pieces gives the pieces back |
| PhpStrings.ImplodeCons | components/TmdbApi.php:87 | joining a head and a tail is the head, the glue and the joined tail, or just the head when the tail is empty |
| PhpStrings.ReplaceAbsent | components/BaseCurlApi.php:75-76 | `str_replace` on a string without the pattern changes nothing |
| PhpStrings.ReplaceFirst | components/BaseCurlApi.php:75-76 | `str_replace` replaces the first occurrence and then carries on after it |
| UrlQuery.FirstByte | components/BaseCurlApi.php:75 | `$replace[0]` is the first byte of the value's UTF-8 encoding: the first character when that is ASCII, the lone lead byte of a longer encoding otherwise, and nothing for an empty string |
| PhpStrings.Lower | components/BaseApi.php:82 | `strtolower` keeps the length and lower-cases each character |
| PhpStrings.Ucfirst | components/BaseCurlApi.php:104 | `ucfirst` upper-cases the first character and keeps the rest |
| PhpStrings.ReplaceChars | components/BaseCurlApi.php:104 | each `-` or `_` becomes a space and every other character stays |
| PhpStrings.UniqueFrom | components/MovieInfoComponent.php:342 | the result holds exactly the input's elements not yet seen, without duplicates |
| PhpStrings.UniqueNoDup | components/MovieInfoComponent.php:342 | `array_unique` leaves a list without duplicates unchanged |
| PhpValues.ToDict | components/ImdbSuggestionApi.php:71 | `(array)$data` has exactly the object's keys, each mapped to what a field lookup finds |
| Movies.AsValue | components/TmdbApi.php:553 | a null raw value leaves the attribute unset, an array becomes a list of the same length, and a value is empty exactly when it was falsy |
| FieldMapping.TrimAll | components/TmdbApi.php:548 | `array_map('trim', …)` trims every piece and keeps their number |
| FieldMapping.Coerce | components/TmdbApi.php:547-552 | a list attribute gets a list: an array as it is, text split on `,` with each piece trimmed; a text attribute gets text: an array joined by `,`, a string trimmed |
| FieldMapping.Initial | components/TmdbApi.php:542-543 | a fresh record carries only the provider name in `apis` |
| FieldMapping.MapToMovieInfo | components/TmdbApi.php:535-558 | null exactly when the id field is unset or empty; otherwise the record the field table gives |
| FieldMapping.MappedAttributes | components/TmdbApi.php:545-555 | no id gives null; `apis` is the provider name; an attribute outside the table stays unset; a table entry gets the coerced raw value when that value is set and not null or `''`, and stays unset otherwise |
| FieldMapping.MappedEntry | components/TmdbApi.php:545-555 | the one entry of a field table with distinct entries fills its attribute from its raw field, coerced |
| FieldMapping.CoercedListJoinsBack | components/TmdbApi.php:548 | a list attribute split from already-trimmed text joins back with `,` to the same text |
| FieldMapping.CoercedText | components/TmdbApi.php:551-552 | a string for a text attribute is stored trimmed |
| FieldMapping.CoercedSingleton | components/TmdbApi.php:547 | a one-element array for a list attribute is stored as that one element |
| TmdbResponses.Pluck | components/TmdbApi.php:203-205 | one element per item, each item's named field |
| TmdbResponses.Prefixed | components/TmdbApi.php:461-463 | one element per item, each `prefix` followed by the item's field |
| TmdbResponses.Selected | components/TmdbApi.php:404-412 | no more elements than items; the field of every item that meets the condition is in the result |
| TmdbResponses.SelectedFromKept | components/TmdbApi.php:404-412 | every selected element is the field of an item that meets the condition |
| TmdbResponses.SelectedAppend | components/TmdbApi.php:404-412 | selecting from a concatenation concatenates the selections |
| TmdbResponses.PluckEach | components/TmdbApi.php:203-205 | the loop collects exactly the plucked fields in order |
| TmdbResponses.PrefixEach | components/TmdbApi.php:461-463 | the loop collects exactly the prefixed fields in order |
| TmdbResponses.NamedGenres | components/TmdbApi.php:201-207 | non-empty `genres` become the list of their names; every other field, and an empty `genres`, are unchanged |
| TmdbResponses.WithImages | components/TmdbApi.php:208-214 | `poster_path` and `backdrop_path` are removed; `images` holds the image URL joined to each filled path, poster first; other fields are unchanged |
| TmdbResponses.WithYear | components/TmdbApi.php:215-218 | a non-empty `release_date` becomes its year; otherwise nothing changes |
| TmdbResponses.LanguageCodes | components/TmdbApi.php:219-225 | only `spoken_languages` is rewritten, and the keys stay the same |
| TmdbResponses.WithAka | components/TmdbApi.php:226-228 | when title and original title both exist and differ, `aka` is set to the original title; otherwise nothing changes |
| TmdbResponses.WithPlot | components/TmdbApi.php:229-237 | `original_title`, `tagline` and `overview` are removed; `plot` is the tagline and the overview that are set, joined by ` - ` |
| TmdbResponses.DetailsKeys | components/TmdbApi.php:188-256 | the normalised details hold exactly the raw keys minus the dropped ones, plus `images`, `plot`, and `aka` when retitled |
| TmdbResponses.DetailsImages | components/TmdbApi.php:208-214 | the details always hold `images`, built from the poster and backdrop paths |
| TmdbResponses.DetailsPlot | components/TmdbApi.php:229-237 | the details always hold `plot`, the tagline and the overview that are set, joined by ` - ` |
| TmdbResponses.DetailsAka | components/TmdbApi.php:226-229 | a retitled movie's details hold `aka` = [original title] |
| TmdbResponses.DetailsGenres | components/TmdbApi.php:201-207 | non-empty genres become their names |
| TmdbResponses.DetailsYear | components/TmdbApi.php:215-218 | a non-empty release date becomes its year |
| TmdbResponses.DetailsPassThrough | components/TmdbApi.php:239-250 | every raw field that is not dropped or rewritten passes through unchanged |
| TmdbResponses.DetailsKeepIdAndTitle | components/TmdbApi.php:188-256 | `imdb_id` and `title` survive normalisation unchanged |
| TmdbResponses.NameGenres | components/TmdbApi.php:201-207 | the loop gives the genre rewrite of `NamedGenres` |
| TmdbResponses.AddImages | components/TmdbApi.php:208-214 | the steps give `WithImages` |
| TmdbResponses.CodeLanguages | components/TmdbApi.php:219-225 | the loop gives `LanguageCodes` |
| TmdbResponses.AddPlot | components/TmdbApi.php:229-237 | the steps give `WithPlot` |
| TmdbResponses.MovieDetails | components/TmdbApi.php:188-256 | null for an error answer (status code and message set); otherwise the normalised details |
| TmdbResponses.AlternativeTitlesFields | components/TmdbApi.php:290-301 | `titles` and `id` are removed; non-empty titles become `aka`, the titles whose lower-cased country is the language (every title when there is no language); other fields are unchanged |
| TmdbResponses.SelectEach | components/TmdbApi.php:293-296 | the loop selects exactly the matching titles in order |
| TmdbResponses.MovieAlternativeTitle | components/TmdbApi.php:278-307 | null for an error answer, the alternative titles otherwise |
| TmdbResponses.ImagesOf | components/TmdbApi.php:329-339 | the answer holds only `images`, one URL per poster: the image URL joined to its `file_path` |
| TmdbResponses.MovieImages | components/TmdbApi.php:317-345 | null for an error answer, the images otherwise |
| TmdbResponses.CreditsFields | components/TmdbApi.php:392-419 | cast names become `actors`; a non-empty crew becomes `directors` (job Director) and `writers` (job Screenplay) and is removed; `cast` and `id` are removed; the rest is unchanged |
| TmdbResponses.CrewRoles | components/TmdbApi.php:401-417 | the loop splits the crew into exactly the directors and the screenplay writers, in order |
| TmdbResponses.MovieCredits | components/TmdbApi.php:380-425 | null for an error answer, the credits otherwise |
| TmdbResponses.TrailersFields | components/TmdbApi.php:458-469 | YouTube sources become `trailers` prefixed with `youtube:`; `youtube`, `quicktime` and `id` are removed |
| TmdbResponses.MovieTrailers | components/TmdbApi.php:446-475 | null for an error answer, the trailers otherwise |
| TmdbResponses.KeywordsFields | components/TmdbApi.php:496-506 | keyword names become `tags`; `keywords` and `id` are removed |
| TmdbResponses.MovieKeywords | components/TmdbApi.php:484-512 | null for an error answer, the keywords otherwise |
| Tmdb.Intersect | components/TmdbApi.php:153 | `array_intersect` keeps exactly the elements in both lists, and keeps a list without duplicates free of them |
| Tmdb.SelectOptions | components/TmdbApi.php:141-153 | true selects every default option, false none, a list the defaults it names; never twice |
| Tmdb.Parts | components/TmdbApi.php:159-160 | one partial answer per selected option, in order |
| Tmdb.FetchPart | components/TmdbApi.php:160 | calls the `apiMovie<option>` method the option names |
| Tmdb.PartsRejectErrors | components/TmdbApi.php:160 | a partial answer is null exactly when its service answer is an error |
| Tmdb.MergeRecursive | components/TmdbApi.php:161 | `array_merge_recursive` has the keys of both arrays |
| Tmdb.MergeStep | components/TmdbApi.php:161 | a key in both arrays holds both values' elements, the first array's first |
| Tmdb.FoldedField | components/TmdbApi.php:159-162 | after merging the partial answers, a detail field holds its own elements followed by every partial answer's, in option order |
| Tmdb.FoldedKeys | components/TmdbApi.php:159-162 | a key is in the merged answer exactly when the details or some merged partial answer has it |
| Tmdb.FoldedStep | components/TmdbApi.php:159-162 | merging the remaining options is one merge step followed by merging the rest |
| Tmdb.MergeParts | components/TmdbApi.php:159-162 | the loop merges each non-empty partial answer into the details in order |
| Tmdb.MappingDistinct | components/TmdbApi.php:10-25 | the TMDb field table never targets `apis`, and its attributes and raw fields are pairwise distinct |
| Tmdb.ApiMovieInfo | components/TmdbApi.php:139-164 | null when the details answer is an error; otherwise the mapped record of the details with the selected partial answers merged in |
| Tmdb.DetailsOnly | components/TmdbApi.php:148-157 | with no options the record is the mapped details alone |
| Tmdb.RetitleJoins | components/TmdbApi.php:86-87 | retitling changes only the title, and only when there are alternative titles: it becomes the title and the alternative titles joined by ` - ` |
| Tmdb.InstantSearchById | components/TmdbApi.php:83-92 | the details-only record, retitled; null when there is none |
| Tmdb.MappedTitle | components/TmdbApi.php:545-553 | a record mapped from a non-empty title holds the trimmed title |
| Tmdb.MappedAka | components/TmdbApi.php:545-553 | a one-element `aka` is stored as that element |
| Tmdb.MappedRetitled | components/TmdbApi.php:86-87 | a record with a title and one alternative title is retitled `title - original` |
| Tmdb.RetitledById | components/TmdbApi.php:83-92 | a movie whose original title differs from its title is found by id under the title `title - original title` |
| Tmdb.Search | components/TmdbApi.php:100-106 | the full record, all options, for the TMDb id the IMDb id resolves to; null when it resolves to nothing |
| Tmdb.HitsLongest | components/TmdbApi.php:64-67 | the shortening loop returns the results of the longest prefix, of at least 3 characters, that has any |
| Tmdb.HitsNone | components/TmdbApi.php:64-67 | when no such prefix has results, the loop ends with nothing |
| Tmdb.FalsyHasNoValues | components/TmdbApi.php:69 | empty results give no movies |
| Tmdb.PutKeeps | components/TmdbApi.php:71 | `$movies[$id] = $movie` keeps the key order and appends a new key; that key then holds the movie and every other key what it held |
| Tmdb.InstantSearch | components/TmdbApi.php:62-75 | the loop returns, keyed by IMDb id, the id-search record of each result of the longest prefix that has results |
| ImdbSuggestion.TitlePlaceholders | components/BaseCurlApi.php:75 | the first-character placeholder of `{title}` is `{title:first}` |
| ImdbSuggestion.FirstSubstituted | components/BaseCurlApi.php:75 | substituting `{title:first}` in the endpoint template touches only that placeholder |
| ImdbSuggestion.TitleSubstituted | components/BaseCurlApi.php:76 | substituting `{title}` then touches only that placeholder |
| ImdbSuggestion.SuggestionUrlShape | components/ImdbSuggestionApi.php:33 | the request URL is the endpoint, the first byte of the lower-cased query, `/`, the lower-cased query and `.json` |
| ImdbSuggestion.FromOccurrence | components/ImdbSuggestionApi.php:106 | `substr($s, strpos($s, '('))` is the suffix starting at the first `(` |
| ImdbSuggestion.FromFirst | components/ImdbSuggestionApi.php:106 | without a `(` the string is kept whole |
| ImdbSuggestion.JsonpUnwrapped | components/ImdbSuggestionApi.php:101-109 | `callback(json);` is unwrapped to exactly `json` |
| ImdbSuggestion.JsonpCut | components/ImdbSuggestionApi.php:105-108 | a body that does not start with `[` or `{` is cut at its first `(` and then trimmed of `(`, `)` and `;` |
| ImdbSuggestion.WrapperTrimmed | components/ImdbSuggestionApi.php:108 | trimming `(json);` gives `json` |
| ImdbSuggestion.PlainJsonKept | components/ImdbSuggestionApi.php:105 | a body that already is JSON is kept as it is |
| ImdbSuggestion.SuggestionsAsWritten | components/ImdbSuggestionApi.php:46-50 | as written: one entry per suggestion, null for one without an id |
| ImdbSuggestion.IdlessSuggestionKept | components/ImdbSuggestionApi.php:46-50 | as written, the suggestion `{"l": "Titanic"}` puts a null into the list |
| ImdbSuggestion.SuggestionsArePresent | components/ImdbSuggestionApi.php:46-50 | the corrected list is the list as written with the nulls removed |
| ImdbSuggestion.SuggestionsMembers | components/ImdbSuggestionApi.php:46-50 | a record is in the corrected list exactly when some suggestion maps to it |
| ImdbSuggestion.MappingEntries | components/ImdbSuggestionApi.php:18-23 | the field table is id, title, year and actors, with distinct attributes and raw fields |
| ImdbSuggestion.UnmappedAttrs | components/ImdbSuggestionApi.php:18-23 | no other attribute is in the table |
| ImdbSuggestion.MappedField | components/ImdbSuggestionApi.php:79-89 | each table entry fills its attribute with the coerced raw value when that value is set and not blank, and leaves it null otherwise |
| ImdbSuggestion.MappedUntouched | components/ImdbSuggestionApi.php:77-78 | a suggestion record names only this provider in `apis` and leaves every unmapped attribute null |
| ImdbSuggestion.CollectSuggestions | components/ImdbSuggestionApi.php:47-49 | the loop collects the records of the suggestions that have an id, in order |
| ImdbSuggestion.ProcessResponse | components/ImdbSuggestionApi.php:42-50 | the body is unwrapped and decoded, then mapped entry by entry when `d` is not empty |
| ImdbSuggestion.InstantSearch | components/ImdbSuggestionApi.php:31-61 | the answer, the cache afterwards and the provider's error are those `Suggest` gives |
| ImdbSuggestion.Ask | components/ImdbSuggestionApi.php:39-56 | the uncached branch behaves as `Asked` gives |
| ImdbSuggestion.SuggestKeepsClock | components/ImdbSuggestionApi.php:31-61 | a search never changes whether a cache exists or what its clock reads |
| ImdbSuggestion.EmptyAnswerNotCached | components/ImdbSuggestionApi.php:57-58 | an empty answer leaves the cache alone, except for setting the error flag |
| ImdbSuggestion.RepeatServedFromCache | components/ImdbSuggestionApi.php:35-37 | with caching on, repeating a search that found something returns the same records from the cache, whatever the service now answers |
| ImdbSuggestion.SuggestLeavesServed | components/ImdbSuggestionApi.php:57-58 | a non-empty answer is then cached under the URL's key |
| ImdbSuggestion.ServedSuggest | components/ImdbSuggestionApi.php:36-37 | a cached list is returned without asking the service |
| ImdbSuggestion.SuggestFrame | components/ImdbSuggestionApi.php:31-61 | a search writes only keys that start with its provider's prefix, and no key that served a value stops serving one |
| ImdbSuggestion.AskedFrame | components/ImdbSuggestionApi.php:40-55 | the same for the part after a cache miss |
| ImdbSuggestion.SuggestAgrees | components/ImdbSuggestionApi.php:31-61 | a search reads no key outside its provider's own: from cache states that agree outside other owners' keys it gives the same answer and error and leaves states that still agree |
| ImdbSuggestion.AskedAgrees | components/ImdbSuggestionApi.php:40-55 | the same for the part after a cache miss |
| ImdbSuggestion.HostFailureSuppresses | components/ImdbSuggestionApi.php:54-55 | a host failure returns nothing, records the host message and switches the provider off |
| ImdbSuggestion.NullResponseRetries | components/ImdbSuggestionApi.php:51-53 | a null response retries with the last character dropped while the query is longer than 3 characters, and otherwise returns nothing |
| MergePolicy.Merged | components/MovieInfoComponent.php:331-353 | a merged record stays well typed, and each text attribute comes from one of the two records |
| MergePolicy.MergeMovies | components/MovieInfoComponent.php:331-353 | the method returns the merged record |
| MergePolicy.MergeAttrs | components/MovieInfoComponent.php:338-349 | the loop merges the listed attributes one by one |
| MergePolicy.MergedOverAt | components/MovieInfoComponent.php:338-349 | a listed attribute is merged and any other is kept |
| MergePolicy.MergedOverAll | components/MovieInfoComponent.php:338 | merging every attribute of the record gives `Merged` |
| MergePolicy.MergeIdempotent | components/MovieInfoComponent.php:331-353 | merging a record with itself gives it back |
| MergePolicy.MergeListsUnion | components/MovieInfoComponent.php:341-342 | two different lists merge into their union without duplicates |
| MergePolicy.MergeListAdopts | components/MovieInfoComponent.php:341-344 | a missing list takes the incoming one; a missing incoming list keeps the existing one |
| MergePolicy.MergeListNeverShrinks | components/MovieInfoComponent.php:341-344 | every element of an existing list survives the merge |
| MergePolicy.MergeTextRule | components/MovieInfoComponent.php:346-347 | incoming text replaces existing text exactly when it is non-empty and the existing text is empty or shorter; ties keep the existing text |
| MergePolicy.MergeTextNotWorse | components/MovieInfoComponent.php:346-347 | a merged text is never empty when either side is non-empty, and never shorter than the existing one |
| MergePolicy.MergeKeepsId | components/MovieInfoComponent.php:338-349 | records with equal ids merge into one with that id |
| MergePolicy.MergeNotCommutative | components/MovieInfoComponent.php:331-353 | there are two records with the same id whose merge depends on the order |
| MovieInfoComponents.StoreKeysApart | components/MovieInfoComponent.php:73-77 | the keys of the two dictionaries differ from each other and from every provider's error flag key |
| MovieInfoComponents.Query | components/MovieInfoComponent.php:92-94 | the trimmed input, or nothing exactly when it is blank or `"0"` |
| MovieInfoComponents.Chosen | components/MovieInfoComponent.php:97-100 | the given providers, or the defaults when none are given |
| MovieInfoComponents.Found | components/MovieInfoComponent.php:232-235 | the record under an id exactly when the id is held |
| MovieInfoComponents.Restricted | components/MovieInfoComponent.php:282-283 | the records whose ids are in the list, unchanged |
| MovieInfoComponents.Selection | components/MovieInfoComponent.php:280-286 | `array_intersect_key` for a non-empty list; the whole dictionary for an empty one |
| MovieInfoComponents.Ids | components/MovieInfoComponent.php:114 | the ids of the records, in order |
| MovieInfoComponents.Absorb | components/MovieInfoComponent.php:245-249 | the dictionary gains the record's id, and every other entry stays |
| MovieInfoComponents.AbsorbIndexed | components/MovieInfoComponent.php:245-249 | a dictionary keyed by its records' ids stays so; a new id holds the record as given |
| MovieInfoComponents.UpdatedKeys | components/MovieInfoComponent.php:243-255 | an update adds the record's id and keeps every other entry and the other dictionary |
| MovieInfoComponents.UpdatedFlag | components/MovieInfoComponent.php:252 | an update never touches a provider's error flag |
| MovieInfoComponents.UpdatedPersists | components/MovieInfoComponent.php:252 | an update writes its dictionary through, so a fresh component reloads it; the cache keeps mirroring the store |
| MovieInfoComponents.InstantResultsOverwriteMovies | components/MovieInfoComponent.php:313 | as written, an instant update puts the instant results under the movies key and never writes the instant-results key |
| MovieInfoComponents.ClearedFacts | components/MovieInfoComponent.php:321-325 | clearing empties one dictionary and its cache entry and keeps the other; the cache keeps mirroring |
| MovieInfoComponents.ClearedMoviesReload | components/MovieInfoComponent.php:260-264 | as written, the cleared movies are reloaded by the next component |
| MovieInfoComponents.AbsorbAllKeys | components/MovieInfoComponent.php:112-115 | absorbing a provider's answers adds their ids to the instant results and keeps the rest |
| MovieInfoComponents.AbsorbAllFlag | components/MovieInfoComponent.php:112-115 | absorbing never touches an error flag |
| MovieInfoComponents.AbsorbAllPersists | components/MovieInfoComponent.php:112-115 | absorbing keeps the cache mirroring the store |
| MovieInfoComponents.InstantOverFlag | components/MovieInfoComponent.php:104-116 | the provider loop never clears a live error flag, and it sets no flag but the suggestion client's own: every other provider's flag is as it was |
| MovieInfoComponents.InstantOverIds | components/MovieInfoComponent.php:104-116 | the loop collects exactly the ids that the providers alone answer when run in turn on the shared cache (`Answered`), leaves the cache outside the two dictionary keys as they leave it, adds the ids to the instant results and keeps the movies |
| MovieInfoComponents.HostFailureFlags | components/MovieInfoComponent.php:104-116 | with the default providers, a search whose suggestion URL is not cached and whose host lookup fails answers no ids and only sets the suggestion client's flag |
| MovieInfoComponents.SuppressedSearchSkips | components/MovieInfoComponent.php:104-110 | while the suggestion client's flag is live, an instant search with the default providers returns nothing and changes nothing |
| MovieInfoComponents.HostFailureSkipsNextSearch | components/MovieInfoComponent.php:90-119 | after a search in which the suggestion host cannot be resolved, every instant search with the default providers in the next 600 seconds skips the client, returns nothing and changes nothing |
| MovieInfoComponents.InstantOverPersists | components/MovieInfoComponent.php:104-116 | the loop keeps the cache mirroring the store |
| MovieInfoComponents.InstantAnswerAgrees | components/MovieInfoComponent.php:106-112 | a provider's instant answer does not depend on the component's two dictionary entries in the cache, and it leaves the rest of the cache the same either way |
| MovieInfoComponents.InstantAnswerKeepsStore | components/MovieInfoComponent.php:106-112 | a provider's instant answer leaves both cached dictionaries as they were, and keeps the cache and its clock |
| MovieInfoComponents.InstantAnswerFlag | components/MovieInfoComponent.php:106-112 | a provider's instant answer clears no live flag and sets none but the suggestion client's own |
| MovieInfoComponents.SuggestionKeysApart | components/BaseApi.php:96-99 | no key of the component's dictionaries starts with the suggestion client's key prefix |
| MovieInfoComponents.InstantSearchFinds | components/MovieInfoComponent.php:90-119 | an instant search returns exactly the records, as merged, with the ids its providers answered; it keeps earlier results and the movies; a blank title changes nothing |
| MovieInfoComponents.NoHitsReturnEarlierResults | components/MovieInfoComponent.php:118 | as written, a search that nobody answers returns every earlier instant result; the corrected search returns none |
| MovieInfoComponents.GatheredFlag | components/MovieInfoComponent.php:146-158 | asking the providers by id never changes an error flag |
| MovieInfoComponents.GatheredKeys | components/MovieInfoComponent.php:146-158 | the target dictionary gains exactly the ids of the records answered by the providers not switched off |
| MovieInfoComponents.GatheredPersists | components/MovieInfoComponent.php:146-158 | asking by id keeps the cache mirroring the store |
| MovieInfoComponents.InstantSearchByIdFinds | components/MovieInfoComponent.php:128-163 | a held instant result is served as it is; a held movie is copied over; otherwise a record is found exactly when a provider answers one with that id; the movies never change |
| MovieInfoComponents.SearchFinds | components/MovieInfoComponent.php:172-199 | a search finds a record exactly when the id was held or a provider answered it; no movie is lost; the instant results are untouched |
| MovieInfoComponents.MovieInfoComponent.constructor | components/MovieInfoComponent.php:67-79 | the component loads both dictionaries from the cache, so it starts mirroring it |
| MovieInfoComponents.MovieInfoComponent.HasMovies | components/MovieInfoComponent.php:209-212 | true exactly when some id has a movie |
| MovieInfoComponents.MovieInfoComponent.GetMovies | components/MovieInfoComponent.php:219-225 | the held movies with the listed ids, or every held movie for an empty list |
| MovieInfoComponents.MovieInfoComponent.HasInstantResults | components/MovieInfoComponent.php:270-273 | true exactly when some id has an instant result |
| MovieInfoComponents.MovieInfoComponent.GetInstantResults | components/MovieInfoComponent.php:280-286 | the held instant results with the listed ids, or all of them for an empty list |
| MovieInfoComponents.MovieInfoComponent.UpdateMovies | components/MovieInfoComponent.php:243-255 | the movies and cache change as `Updated` says; returns the record's id, which is then held |
| MovieInfoComponents.MovieInfoComponent.UpdateInstantResults | components/MovieInfoComponent.php:304-316 | the instant results change as `Updated` says, stored under their own key; returns the id, which is then held |
| MovieInfoComponents.MovieInfoComponent.ClearMovies | components/MovieInfoComponent.php:260-264 | the movies and their cache entry are cleared |
| MovieInfoComponents.MovieInfoComponent.ClearInstantResults | components/MovieInfoComponent.php:321-325 | the instant results and their cache entry are cleared |
| MovieInfoComponents.MovieInfoComponent.SetMovies | components/MovieInfoComponent.php:409-412 | replaces the movies and nothing else |
| MovieInfoComponents.MovieInfoComponent.AbsorbInstantResults | components/MovieInfoComponent.php:112-115 | the loop updates the instant results once per record and returns their ids |
| MovieInfoComponents.MovieInfoComponent.AskForInstantResults | components/MovieInfoComponent.php:106-115 | one provider's turn, as `InstantStep`: a fresh client with the component's cache duration is skipped when switched off; otherwise the suggestion client runs its own search on the shared cache (other classes answer as given) and the answers are absorbed |
| MovieInfoComponents.MovieInfoComponent.AskAllForInstantResults | components/MovieInfoComponent.php:103-116 | the provider loop gives `InstantOver` |
| MovieInfoComponents.MovieInfoComponent.InstantSearch | components/MovieInfoComponent.php:90-119 | the state and answer are those of the corrected instant search |
| MovieInfoComponents.MovieInfoComponent.Gather | components/MovieInfoComponent.php:146-158 | the loop over providers by id gives `Gathered` |
| MovieInfoComponents.MovieInfoComponent.InstantSearchById | components/MovieInfoComponent.php:128-163 | the state and answer are those `InstantSearchedById` gives |
| MovieInfoComponents.MovieInfoComponent.Search | components/MovieInfoComponent.php:172-199 | the state and answer are those `Searched` gives |
| Imdb.NewImdbMovie | models/ImdbMovie.php:12-28 | a fresh movie has every field, all null |
| Imdb.ResponseMapping | components/ImdbComponent.php:50-104 | one entry per movie field, in field order, with the provider's raw field or none |
| Imdb.Options | components/ImdbComponent.php:164 | a provider is configured exactly for the two names in the table |
| Imdb.Providers | components/ImdbComponent.php:159-160 | the given providers, or every configured one when none are given |
| Imdb.SearchParamsChosen | components/ImdbComponent.php:167-175 | the parameters are empty exactly when no given value has a search key; each parameter is a given value under the provider's key |
| Imdb.YearAloneSearches | components/ImdbComponent.php:167-175 | a year alone gives no parameters at imdbapi.org, the parameter `y` at omdbapi.com, and none at an unknown provider |
| Imdb.HasParamsIff | components/ImdbComponent.php:174-175 | the search throws at a provider exactly when it has no parameters |
| Imdb.BuildUrl | components/ImdbComponent.php:287-289 | the URL is exactly as long as the endpoint, `?` and the query together |
| Imdb.BuildUrlSplits | components/ImdbComponent.php:287-289 | a configured endpoint has no `?`, so the URL splits back into the endpoint, `?` and the query |
| Imdb.RequestCached | components/ImdbComponent.php:197-204 | a cached response is returned without a transfer, whatever the transfer would answer |
| Imdb.RequestOutcome | components/ImdbComponent.php:206-258 | there is a response exactly when the transfer completed and decodes without an `error` or `Error` field, and then the error stays; a completed transfer without a response sets an error, as do the statuses 400, 401, 403 and 404; other failures leave the error as it was |
| Imdb.RequestRoundTrip | components/ImdbComponent.php:228-231 | a truthy response is cached, so the same request is then answered from the cache whatever the transfer answers; no response, or a falsy one, leaves the cache unchanged |
| Imdb.Focus | components/ImdbComponent.php:268-269 | a response without `year` whose first element has one is replaced by that element |
| Imdb.Processed | components/ImdbComponent.php:271-277 | the model has every field |
| Imdb.ProcessedAt | components/ImdbComponent.php:272-275 | a mapped field gets the raw value when it is truthy, and stays null otherwise |
| Imdb.ProcessedUnassigned | components/ImdbComponent.php:272-275 | a field without a raw source stays null |
| Imdb.MappingDistinct | components/ImdbComponent.php:50-104 | each provider's field table names every field once |
| Imdb.ProcessedTable | components/ImdbComponent.php:267-278 | each field of the model comes from the provider's table entry for it |
| Imdb.OmdbLeavesUnmapped | components/ImdbComponent.php:84-102 | omdbapi.com never fills `url`, `aka`, `language` or `country` |
| Imdb.ImdbApiOrgLanguageIsRated | components/ImdbComponent.php:66-74 | imdbapi.org fills `language` from the raw `rated` field, so it always equals `rated` |
| Imdb.Turn | components/ImdbComponent.php:177-183 | one provider's turn appends at most one movie and keeps the earlier ones |
| Imdb.FirstBlocked | components/ImdbComponent.php:163-175 | the index of the first provider without parameters, every earlier one having some |
| Imdb.SearchThrows | components/ImdbComponent.php:174-175 | the search throws, with the no-parameters message, exactly when some provider has no parameters |
| Imdb.RequestsAppend | components/ImdbComponent.php:180-183 | the earlier movies stay as a prefix, and each provider's turn adds at most one movie |
| Imdb.ImdbComponent.constructor | components/ImdbComponent.php:116-123 | no movies, the default cache duration of 600 and no error |
| Imdb.ImdbComponent.HasMovies | components/ImdbComponent.php:318-320 | true exactly when the list is non-empty |
| Imdb.ImdbComponent.AddMovie | components/ImdbComponent.php:334-337 | the movie is appended and nothing else changes |
| Imdb.ImdbComponent.ClearMovies | components/ImdbComponent.php:342-344 | the list is empty afterwards and nothing else changes |
| Imdb.ImdbComponent.MakeRequest | components/ImdbComponent.php:197-259 | the response, error and cache afterwards are those `Request` gives |
| Imdb.ImdbComponent.ProcessResponse | components/ImdbComponent.php:267-278 | the model is the focused response mapped through the table |
| Imdb.ImdbComponent.Ask | components/ImdbComponent.php:164-183 | one provider's turn, as `Turn` gives |
| Imdb.ImdbComponent.Search | components/ImdbComponent.php:157-186 | the movies afterwards, and whether the call throws, are those `SearchOver` gives |
| Imdb.ImdbComponent.SearchByTitleYear | components/ImdbComponent.php:133-135 | a search by title and year alone |
| Imdb.ImdbComponent.SearchById | components/ImdbComponent.php:143-145 | a search by id alone |

## Left out

- Transport, JSON decoding, `md5`/`serialize`, `DateTime` parsing and the
  TMDb library are parameters of the model, not modelled.
- The clock is abstract. Entries expire against the cache's `now`, which the
  model moves with `Cache.Advance`.
- Yii logging (`Yii::log`) has no effect on state and is left out.
- The `ImdbComponent` constructor's curl set-up is left out, as is the `api`
  argument's log line in `addMovie`.
- `TmdbApi`'s constructor fetches the image base URL through the cache. The
  URL is a setting of the model.
- The TMDb client's own response caching (`getFromCache`/`storeToCache` in
  every `api*` method) is left out. The model answers from the service each
  time.
- The paging branch of `apiSearchMovies` is left out; `instantSearch` never
  takes it.
- `spoken_languages` is rewritten and then removed. The model states only
  that it is dropped.
- `count($response['movie_results'] > 0)` in `TmdbApi::apiFindIdFromExternal`
  (line 179) passes a boolean to `count`. PHP 8 throws a `TypeError` there
  whenever `movie_results` is set, so as written `search` never returns a
  movie. The model takes the evident intent instead: the condition is
  `isset`, and an empty `movie_results` list gives no id through `First`.
- `xmlToObject` is never called and is left out.
- PHP loose comparison (`==`) is modelled only where it matters: a zero total,
  a blank value in the field tables, and the text-length comparison.
- `strlen` counts bytes. The model counts characters in the query-length
  tests of both instant searches and in the merge rule.
- Tmdb.MergeRecursive: nested arrays are merged one level deep, not
  recursively. The normalised answers hold lists only.
- PHP arrays lose their insertion order where the model uses `map`: the
  `MovieInfoComponent` dictionaries and `(array)$data`. `TmdbApi.instantSearch`
  keeps the order, as a list of pairs.
- A cache entry of the wrong kind (for example a non-list payload under a
  suggestion URL) is treated as a miss.
- `_movies` and `_instantResults` hold copies of records. PHP object
  aliasing, where a merge changes a record that both dictionaries share, is
  not modelled.
- A single string passed as `$apis` is not modelled. The model takes a list,
  and the empty list stands for null.
- MovieInfoComponents.MovieInfoComponent.SetMovies: like the source, it does
  not write the cache. Its contract therefore says nothing about `Persisted`.
- Imdb.Processed: its own contract says only that every field is present. The
  value of each field is stated by `ProcessedAt` and `ProcessedTable`.
- ImdbComponent errors that are not strings (an `error` field holding a
  number or object) are kept in their string form.
- JSON responses that are neither an object nor a list are treated as having
  no fields.
- The year given to `ImdbComponent.search` is a string.
- `BaseApi`'s own `instantSearch`, `instantSearchById` and `search` return
  null. Every provider class overrides them, so they are not modelled.
- What provider classes other than `ImdbSuggestionApi` answer inside
  `MovieInfoComponent.instantSearch` is a parameter, and those answers leave
  the cache alone. The TMDb client's instant search is modelled on its own,
  in module `Tmdb`.
- MovieInfoComponents.InstantOverFlag: the claim that other providers' flags
  stay as they were is made for names without `-`. A provider name is a
  lower-cased PHP class name, and such a name cannot hold `-`.
- FieldMapping.LooselyBlank: an empty decoded object counts as blank, like the
  empty PHP array that the TMDb client's associative decoding gives. The
  suggestion client decodes into `stdClass` objects, and a nested empty
  object is not blank there. The model's `Json` does not tell the two
  decodings apart.
- PhpValues.Truthy: PHP's negative float zero (string form `-0`) is falsy,
  but truthiness and attribute values in the model go by string form and
  count `-0` as truthy. The loose comparisons `LooselyBlank` and `LooseZero`
  do count it as zero. A float zero's string form is `0`, so `0.0` is blank.
- TmdbResponses.CreditsFields: the crew `switch` on `job` compares loosely,
  and the model compares strictly. The two differ only for a `job` that is
  not a string, such as `true`. TMDb sends every job as a string.
- MovieInfoComponents.InstantAnswer: a class name is matched ignoring ASCII
  case, as PHP resolves class names. What other classes answer is a
  parameter, keyed by the name as given.
- Tmdb.LooseZero: of the numeric strings equal to 0 under PHP 8's `==`, only
  `"0"` is recognised; `"0.0"` or `" 0"` are not. TMDb sends the total as a
  number.

## Findings

| source | as written | input that shows it | evidently intended | confidence | as-written member | corrected member |
|---|---|---|---|---|---|---|
| components/ImdbSuggestionApi.php:47-49 | every suggestion's `mapToMovieInfo` result is pushed, including null for a suggestion without an id | a decoded answer whose `d` holds `{"l": "Titanic"}` | suggestions without an id are dropped, so only records reach the store | not executed | ImdbSuggestion.IdlessSuggestionKept | ImdbSuggestion.SuggestionsMembers |
| components/MovieInfoComponent.php:118 | `getInstantResults($ids)` treats an empty id list as "all", so a search nobody answers returns every earlier instant result | a title no provider answers while earlier instant results are held | return only the records whose ids this call produced (none here) | not executed | MovieInfoComponents.NoHitsReturnEarlierResults | MovieInfoComponents.InstantSearchFinds |
| components/MovieInfoComponent.php:313 | `updateInstantResults` stores the instant results under the movies key | any instant result added with a cache and caching on | store them under the `instantResults` key that the constructor reads | not executed | MovieInfoComponents.InstantResultsOverwriteMovies | MovieInfoComponents.UpdatedPersists |
| components/MovieInfoComponent.php:263 | `clearMovies` reads the undeclared `moviesCacheKey`, which raises before the cache entry is deleted | `clearMovies()` after a movie was added with caching on | delete the `movies` cache entry | not executed | MovieInfoComponents.ClearedMoviesReload | MovieInfoComponents.ClearedFacts |
