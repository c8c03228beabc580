# UpcomingMovies core in Dafny

A model of the non-UI logic of the UpcomingMovies client for The Movie
Database (TMDb) API:

- **All-or-nothing JSON decoding.** `Movie.init?(json:)` yields a whole
  movie or nothing; the parser of `Movie.upcoming()` keeps, in order, the
  entries of `results` that decode. `TMDbConfig.init?(dictionary:)` needs an
  `images` object with three typed fields, and the parser of
  `TMDbConfig.resource()` wraps it.
- **Config freshness.** `daysSinceLastUpdate` counts whole elapsed days with
  Swift's truncating division. The guard
  `requestForNewConfigIfDaysSinceUpdateExceeds` issues one load exactly when
  that count is absent or above the threshold. `TMDb.init` starts from the
  archived config or the compiled-in defaults, applies the guard with a
  threshold of 7 days, and on a successful load replaces its config and
  archives it under `"TheMovieDB-Configuration"`. On a failed load nothing
  changes.
- **Fetch client.** `Webservice.load` maps the parser's answer to the body
  to `success(value)`, or to `failure(.other)` when the parser yields
  nothing. Missing data traps on the force unwrap.
- **URLs.** `urlFromParameters` builds scheme, host and path from the API
  constants and the path extension. The API-key query item comes first,
  then one item per parameter.

Modules, one per source file, except that `TMDb.swift` gives two:
`TMDbUrl` holds `urlFromParameters`, because `Movie` and `TMDbResources`
import the URL builder without the service, and `TMDbService` holds the
class `TMDb`. `Options` and `Json` model the Swift and Foundation types
involved.

| module | file | models |
|---|---|---|
| `Options` | Options.dfy | Swift `Optional`, `??` and `flatMap` with an optional-returning transform |
| `Json` | Json.dfy | `AnyObject` JSON values, `JSONDictionary`, the `as?` casts |
| `Webservice` | Webservice.dfy | `Resource`, `Result`, `WebserviceError`, `Webservice.load`, URL values |
| `TMDbUrl` | TMDbUrl.dfy | `TMDb.urlFromParameters` (an imperative loop over the parameters) |
| `Movie` | Movie.dfy | `Movie`, `init?(json:)`, `Movie.upcoming()` |
| `TMDbConfig` | TMDbConfig.dfy | `TMDbConfig` fields and defaults, `daysSinceLastUpdate`, `init?(dictionary:)`, the refresh guard, `save`, `unarchivedInstance` |
| `TMDbResources` | TMDbResources.dfy | `TMDbConfig.resource()` |
| `TMDbService` | TMDbService.dfy | class `TMDb`: start-up and the refresh completion |

Abstractions:

- JSON is the `Json` datatype. A number is an exact rational. `as? Int`
  succeeds on an integral number, `as? Double` on any number, and
  `as? [T]` only when every element casts.
- A response body is `Body`: either bytes that are not JSON, or a JSON value.
- `Resource.swift` and `Result.swift` are not part of this model. `Resource`
  is a URL plus a parser from `Body`, and `Result` is a two-case datatype.
- `Constants.swift` is not part of this model. The API scheme, host, path
  and key are a `Constants` record passed in, so every property holds for
  any constant values.
- The clock `Date()` is the parameter `now`, in whole seconds.
- `UserDefaults.standard` is a `map` from keys to stored values. A stored
  value is an archived config or undecodable data. In `TMDb` this store is
  the field `defaults`.
- `TMDbConfig` is a Swift class, but its fields are only assigned while an
  instance is initialized. `TMDb` only ever replaces the whole config
  reference. So the config is the value datatype `Config`.
- `TMDb` is a Dafny class. Its `config` and `defaults` fields are reassigned
  by the refresh completion. Its `refreshInFlight` field records that the guard issued a load whose
  completion has not yet run. The completion runs once, and only after the
  guard issued a load.

The refresh guard reads `guard let d = daysSinceLastUpdate, d <= days else
{ load }`. It is sometimes read as inverted against its name, but it is not:
it loads exactly when the age is unknown or greater than `days`. With Swift's
truncation, 7.9 days elapsed count as 7, so under the 7-day threshold no
refresh happens before 8 whole days. The model follows the code.

## Model

| member | source | states |
|---|---|---|
| `Options.Option.GetOr` | UpcomingMovies/TMDb.swift:39 | `??`: the wrapped value when present, the default otherwise (also the path extension at line 57) |
| `Json.Lookup` | UpcomingMovies/Movie.swift:54-69 | `json[key]`: present iff the key is in the object, and then its value |
| `Json.AsInt` | UpcomingMovies/Movie.swift:54 | `as? Int` succeeds exactly on an integral number and yields that number |
| `Json.AsDouble` | UpcomingMovies/Movie.swift:59 | `as? Double` succeeds exactly on a number and yields it |
| `Json.AsString` | UpcomingMovies/Movie.swift:55-57 | `as? String` succeeds exactly on a string and yields it (also `poster_path` at line 69 and the URLs at TMDbConfig.swift:55-56) |
| `Json.AsDictionary` | UpcomingMovies/TMDbConfig.swift:54 | `as? [String: AnyObject]` succeeds exactly on an object and yields its fields (also TMDb+ResourceExtensions.swift:16) |
| `Json.AsArray` | UpcomingMovies/TMDbConfig.swift:57 | `as? [T]` succeeds exactly on an array whose every element casts, yielding the element-wise casts (also Movie.swift:58 and 82) |
| `Json.CastAll` | UpcomingMovies/Movie.swift:58 | an array cast succeeds iff every element casts, and then keeps every element, in order |
| `Webservice.ResultFrom` | UpcomingMovies/Webservice.swift:38 | success iff the parser gave a value, carrying that value; otherwise failure with the given error |
| `Webservice.ParseJson` | UpcomingMovies/Webservice.swift:37 | the JSON step of a resource's parser: a body that is not JSON parses to nothing, a JSON body goes to the JSON parser |
| `Webservice.Load` | UpcomingMovies/Webservice.swift:35-41 | no data traps and nothing is delivered; otherwise one completion with `success(v)` when the parse gives `v` and `failure(.other)` when it gives nothing |
| `Webservice.NeverParsingNeverSucceeds` | UpcomingMovies/Webservice.swift:37-38 | a parser that never yields a value makes no load a success: with data the load ends in `failure(.other)`; with no data it traps |
| `Webservice.LoadIgnoresResponse` | UpcomingMovies/Webservice.swift:36-37 | the HTTP response and status do not affect the outcome |
| `TMDbUrl.UrlFromParameters` | UpcomingMovies/TMDb.swift:53-72 | scheme and host are the constants; path is `ApiPath` plus the extension, or `ApiPath` when there is none; one more query item than parameters, the API key first, then one item per parameter with its string form (as a multiset) |
| `Movie.FromJson` | UpcomingMovies/Movie.swift:53-70 | a movie iff the six required fields are present and typed; all fields copied verbatim; `posterPath` present iff `poster_path` is a string |
| `Movie.DecodeEncode` | UpcomingMovies/Movie.swift:53-70 | decoding the JSON object of any movie gives that movie back |
| `Movie.MissingRequiredFieldFails` | UpcomingMovies/Movie.swift:54-61 | an absent required key gives no movie |
| `Movie.PosterPathNeverDecidesSuccess` | UpcomingMovies/Movie.swift:69 | any value for `poster_path`, or none, leaves success unchanged; without it `posterPath` is absent |
| `Movie.DecodeDependsOnlyOnKeys` | UpcomingMovies/Movie.swift:54-69 | two objects that agree on the seven `Key` keys decode alike |
| `Options.FlatMap` | UpcomingMovies/Movie.swift:83 | `flatMap(Movie.init)` keeps at most as many movies as entries, each decoded from some entry |
| `Options.FlatMapAppend` | UpcomingMovies/Movie.swift:83 | the `flatMap` of a concatenation is the concatenation of the parts (order kept) |
| `Options.FlatMapKeeps` | UpcomingMovies/Movie.swift:83 | every entry that decodes contributes its movie |
| `Options.FlatMapAllPresent` | UpcomingMovies/Movie.swift:83 | when every entry decodes, the result has one movie per entry, in order |
| `Movie.ParseUpcoming` | UpcomingMovies/Movie.swift:81-84 | nothing unless `results` is an array of objects; otherwise the decoded entries |
| `Movie.TwoValidOneWithoutVote` | UpcomingMovies/Movie.swift:81-84 | two valid entries and one lacking `vote_average` parse to exactly the two movies |
| `Movie.Upcoming` | UpcomingMovies/Movie.swift:78-87 | URL path `ApiPath + "/movie/upcoming"`, only the API-key query item, and the upcoming parser |
| `TMDbConfig.DefaultConfigValues` | UpcomingMovies/TMDbConfig.swift:36-39 | the default base URLs, the seven poster sizes and no update date |
| `TMDbConfig.WholeDays` | UpcomingMovies/TMDbConfig.swift:44 | elapsed seconds divided by a day with Swift's `/`: the quotient is rounded toward zero, for either sign of the elapsed time |
| `TMDbConfig.DaysSinceLastUpdate` | UpcomingMovies/TMDbConfig.swift:42-48 | absent iff `dateUpdated` is absent; else the `d` with `d*86400 <= e < (d+1)*86400` for elapsed `e >= 0` (toward zero for `e < 0`) |
| `TMDbConfig.FromDictionary` | UpcomingMovies/TMDbConfig.swift:51-65 | a config iff `images` is an object with `base_url`, `secure_base_url` (strings) and `poster_sizes` (strings); fields copied verbatim, `dateUpdated` is now |
| `TMDbConfig.DecodeEncode` | UpcomingMovies/TMDbConfig.swift:51-65 | decoding the payload for a config gives it back, stamped with now |
| `TMDbConfig.NoImagesNoConfig` | UpcomingMovies/TMDbConfig.swift:54-59 | no `images` object gives no config |
| `TMDbConfig.RequestsNewConfig` | UpcomingMovies/TMDbConfig.swift:69-73 | for a threshold `days >= 0` the guard issues the load iff there is no update date or at least `days + 1` whole days have elapsed |
| `TMDbConfig.SevenDayThresholdBoundary` | UpcomingMovies/TMDbConfig.swift:70 | at threshold 7: 7.9 days and 8 days less a second give no request, 8 days gives one |
| `TMDbConfig.FreshConfigIsNotStale` | UpcomingMovies/TMDbConfig.swift:64 | a freshly decoded config is 0 days old and the guard makes no request at that moment |
| `TMDbConfig.Save` | UpcomingMovies/TMDbConfig.swift:84-89 | the config is archived under `"TheMovieDB-Configuration"` and no other key changes |
| `TMDbConfig.UnarchivedInstance` | UpcomingMovies/TMDbConfig.swift:91-94 | the archived config; nothing when the key is absent or its data does not decode |
| `TMDbConfig.SaveThenUnarchive` | UpcomingMovies/TMDbConfig.swift:84-94 | unarchiving after a save yields the saved config in all four fields |
| `TMDbConfig.LaterSaveSupersedes` | UpcomingMovies/TMDbConfig.swift:87 | a later save overwrites an earlier one |
| `TMDbResources.ParseConfig` | UpcomingMovies/TMDb+ResourceExtensions.swift:15-18 | a value that is not an object parses to nothing; an object parses exactly as `init?(dictionary:)` |
| `TMDbResources.ConfigResource` | UpcomingMovies/TMDb+ResourceExtensions.swift:13-21 | URL path `ApiPath + "/configuration"`, only the API-key query item, and the config parser |
| `TMDbResources.LoadWithoutImagesFails` | UpcomingMovies/TMDb+ResourceExtensions.swift:17 | through `load`, a payload without `images` ends in `failure(.other)` |
| `TMDbResources.LoadedConfigIsFresh` | UpcomingMovies/TMDbConfig.swift:64 | a config that loads successfully is dated now, so the 7-day guard issues no request |
| `TMDbService.TMDb.constructor` | UpcomingMovies/TMDb.swift:38-40 | the config is the archived one if any, else the defaults; a load is out iff the 7-day guard fires |
| `TMDbService.TMDb.CompleteRefresh` | UpcomingMovies/TMDb.swift:40-44 | on success the config becomes the new one and is archived, so unarchiving returns it; on failure config and store are unchanged |
| `TMDbService.TMDb.ReceiveConfigResponse` | UpcomingMovies/Webservice.swift:36-39 | the data task's body goes through `load` and the completion: a parsed config replaces the current one and is archived; an unparsable payload changes nothing |
| `TMDbService.StartupKeepsRecentArchive` | UpcomingMovies/TMDb.swift:39-40 | an archived config updated fewer than 8 whole days ago is kept with no fetch |
| `TMDbService.StartupWithoutArchiveFetches` | UpcomingMovies/TMDb.swift:39-40 | with nothing archived the defaults are used and a load is issued |
| `TMDbService.StartAndRefresh` | UpcomingMovies/TMDb.swift:38-45 | start then refresh: when the guard does not fire, or the payload does not parse, the start-up config and store stay; when the guard fired and the payload parses, that config is current, the store is exactly the save of it, and it unarchives |

## Left out

- URLSession networking and the `mainQueue` hop: `load` is a function of the body that has already arrived. Delivery on the main queue is not modelled.
- Concurrency: overlapping refreshes and last-writer-wins between concurrent loads are outside a sequential model.
- JSONSerialization, JSONEncoder/JSONDecoder and the UserDefaults byte formats. JSON is a datatype, and the store holds configs or undecodable data. `save` cannot fail to encode in the model.
- NSNumber bridging: `as? Int` is modelled with the exact conversion of Swift 4 and later, which refuses a fractional number; the Swift 2 behaviour, which truncates a fractional number and succeeds, is not modelled. Booleans cast to numbers, Double rounding, 64-bit `Int` range and the `Int(Double)` trap are not modelled. Timestamps are whole seconds, so fractional seconds of the elapsed time are dropped.
- `vote` is carried as an opaque number, and nothing computes with it.
- `Movie.ParseUpcoming` assumes that a top-level value that is not an object yields no `results`. Movie.swift:82 subscripts an untyped value, and what that does on a non-dictionary depends on `Resource.swift` and Foundation's dynamic lookup, neither of which is part of this model.
- `Resource.swift`, `Result.swift`, `Constants.swift` and `downloadPosterImage` are not part of this model.
- `TMDbUrl.UrlFromParameters`: the order of the parameter items is stated as a multiset, because Swift's dictionary iteration order is unspecified. The `"\(value)"` string form is a `describe` parameter. The `components.URL!` unwrap is assumed to succeed.
- The shared singleton `TMDb.sharedInstance` is replaced by an explicitly constructed `TMDb`. The `print` of the error on failure is left out.
- The UIKit view controllers (`MoviesViewController`, `DetailViewController`, `MoviesTableViewDataSource`) and the `Genre` resource they use are UI plumbing outside this model.
