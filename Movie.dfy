/**
 * `Movie`: one upcoming film, decoded all-or-nothing from a JSON object, and
 * the `Movie.upcoming()` resource that decodes the list of upcoming films.
 */
module Movie {
  import opened Options
  import opened Json
  import opened Webservice
  import opened TMDbUrl

  /** The `Key` enumeration: the JSON keys a movie is read from. */
  const IdKey: string := "id"
  const TitleKey: string := "title"
  const OverviewKey: string := "overview"
  const ReleaseDateKey: string := "release_date"
  const GenreIdsKey: string := "genre_ids"
  const PosterPathKey: string := "poster_path"
  const VoteKey: string := "vote_average"

  const Keys: set<string> := {IdKey, TitleKey, OverviewKey, ReleaseDateKey, GenreIdsKey, PosterPathKey, VoteKey}

  /** `vote` is a Swift `Double`; it is carried along and never computed with. */
  datatype Movie = Movie(
    id: int,
    title: string,
    overview: string,
    releaseDate: string,
    genreIds: seq<int>,
    vote: real,
    posterPath: Option<string>)

  /** The six required keys are present, each with a value of its type. */
  predicate HasRequiredFields(json: JsonDictionary) {
    && AsInt(Lookup(json, IdKey)).Some?
    && AsString(Lookup(json, TitleKey)).Some?
    && AsString(Lookup(json, OverviewKey)).Some?
    && AsString(Lookup(json, ReleaseDateKey)).Some?
    && AsArray(Lookup(json, GenreIdsKey), AsInt).Some?
    && AsDouble(Lookup(json, VoteKey)).Some?
  }

  /**
   * `Movie.init?(json:)`: a whole movie when every required field is there
   * with its type, nothing otherwise; `poster_path` is optional and never
   * makes decoding fail.
   */
  function FromJson(json: JsonDictionary): (r: Option<Movie>)
    ensures r.Some? <==> HasRequiredFields(json)
    ensures r.Some? ==> r.value.id as real == json[IdKey].n
    ensures r.Some? ==> r.value.title == json[TitleKey].s
    ensures r.Some? ==> r.value.overview == json[OverviewKey].s
    ensures r.Some? ==> r.value.releaseDate == json[ReleaseDateKey].s
    ensures r.Some? ==> |r.value.genreIds| == |json[GenreIdsKey].items|
    ensures r.Some? ==> forall i :: 0 <= i < |r.value.genreIds| ==>
      r.value.genreIds[i] as real == json[GenreIdsKey].items[i].n
    ensures r.Some? ==> r.value.vote == json[VoteKey].n
    ensures r.Some? ==> (r.value.posterPath.Some? <==> PosterPathKey in json && json[PosterPathKey].JString?)
    ensures r.Some? && r.value.posterPath.Some? ==> r.value.posterPath.value == json[PosterPathKey].s
  {
    match (AsInt(Lookup(json, IdKey)), AsString(Lookup(json, TitleKey)), AsString(Lookup(json, OverviewKey)),
           AsString(Lookup(json, ReleaseDateKey)), AsArray(Lookup(json, GenreIdsKey), AsInt),
           AsDouble(Lookup(json, VoteKey)))
    case (Some(id), Some(title), Some(overview), Some(releaseDate), Some(genreIds), Some(vote)) =>
      Some(Movie(id, title, overview, releaseDate, genreIds, vote, AsString(Lookup(json, PosterPathKey))))
    case _ => None
  }

  /** An independent encoder: the JSON object the API sends for a movie. */
  function ToJson(m: Movie): JsonDictionary {
    var required := map[
      IdKey := JNumber(m.id as real),
      TitleKey := JString(m.title),
      OverviewKey := JString(m.overview),
      ReleaseDateKey := JString(m.releaseDate),
      GenreIdsKey := JArray(seq(|m.genreIds|, i requires 0 <= i < |m.genreIds| => JNumber(m.genreIds[i] as real))),
      VoteKey := JNumber(m.vote)];
    match m.posterPath
    case Some(p) => required[PosterPathKey := JString(p)]
    case None => required
  }

  /** Decoding what the encoder wrote gives back the same movie. */
  lemma DecodeEncode(m: Movie)
    ensures FromJson(ToJson(m)) == Some(m)
  {
    var json := ToJson(m);
    var ids := json[GenreIdsKey].items;
    var got := AsArray(Lookup(json, GenreIdsKey), AsInt);
    assert forall i :: 0 <= i < |ids| ==> AsInt(Some(ids[i])) == Some(m.genreIds[i]);
    assert got.Some?;
    assert got.value == m.genreIds;
  }

  /** A required key that is absent makes decoding fail. */
  lemma MissingRequiredFieldFails(json: JsonDictionary, key: string)
    requires key in Keys - {PosterPathKey} && key !in json
    ensures FromJson(json).None?
  {
  }

  /** Whatever `poster_path` holds, or whether it is there at all, decoding succeeds or fails alike. */
  lemma PosterPathNeverDecidesSuccess(json: JsonDictionary, poster: Json)
    ensures FromJson(json[PosterPathKey := poster]).Some? == FromJson(json).Some?
    ensures FromJson(json - {PosterPathKey}).Some? == FromJson(json).Some?
    ensures FromJson(json).Some? ==> FromJson(json - {PosterPathKey}).value.posterPath.None?
  {
  }

  /** Decoding looks only at the seven keys of `Key`: other keys are ignored. */
  lemma DecodeDependsOnlyOnKeys(a: JsonDictionary, b: JsonDictionary)
    requires forall k :: k in Keys ==> Lookup(a, k) == Lookup(b, k)
    ensures FromJson(a) == FromJson(b)
  {
  }

  /**
   * The parser of `Movie.upcoming()`: the top-level value must be an object
   * whose `results` is an array of objects; then the movies of the entries
   * that decode,
   * `movies?.flatMap(Movie.init)`.
   */
  function ParseUpcoming(json: Json): (r: Option<seq<Movie>>)
    ensures r.Some? <==> json.JObject? && AsArray(Lookup(json.fields, "results"), AsDictionary).Some?
    ensures r.Some? ==> r.value == FlatMap(AsArray(Lookup(json.fields, "results"), AsDictionary).value, FromJson)
  {
    match json
    case JObject(d) =>
      (match AsArray(Lookup(d, "results"), AsDictionary)
       case Some(entries) => Some(FlatMap(entries, FromJson))
       case None => None)
    case _ => None
  }

  /** The `results` entries that are objects, when every one of them is. */
  lemma ResultsAreEntries(items: seq<Json>)
    requires forall i :: 0 <= i < |items| ==> items[i].JObject?
    ensures CastAll(items, AsDictionary).Some?
    ensures CastAll(items, AsDictionary).value == seq(|items|, i requires 0 <= i < |items| => items[i].fields)
  {
  }

  /** Two entries that decode around one that does not: exactly the two movies, in order. */
  lemma DecodeTwoOfThree<A, B>(entries: seq<A>, decode: A -> Option<B>, m1: B, m2: B)
    requires |entries| == 3
    requires decode(entries[0]) == Some(m1) && decode(entries[1]) == Some(m2) && decode(entries[2]).None?
    ensures FlatMap(entries, decode) == [m1, m2]
  {
    assert entries[1..][1..] == [entries[2]];
    assert FlatMap(entries[1..][1..], decode) == [];
  }

  /**
   * A payload whose `results` hold two well-formed movies and a third entry
   * lacking `vote_average` parses to exactly the two movies.
   */
  lemma TwoValidOneWithoutVote(m1: Movie, m2: Movie, m3: Movie)
    ensures ParseUpcoming(JObject(map["results" := JArray([
      JObject(ToJson(m1)), JObject(ToJson(m2)), JObject(ToJson(m3) - {VoteKey})])]))
      == Some([m1, m2])
  {
    DecodeEncode(m1);
    DecodeEncode(m2);
    MissingRequiredFieldFails(ToJson(m3) - {VoteKey}, VoteKey);
    ParseTwoOfThree(ToJson(m1), ToJson(m2), ToJson(m3) - {VoteKey}, m1, m2);
  }

  /** The payload step of the lemma above, over entries whose decoding is given. */
  lemma ParseTwoOfThree(e1: JsonDictionary, e2: JsonDictionary, e3: JsonDictionary, m1: Movie, m2: Movie)
    requires FromJson(e1) == Some(m1) && FromJson(e2) == Some(m2) && FromJson(e3).None?
    ensures ParseUpcoming(JObject(map["results" := JArray([JObject(e1), JObject(e2), JObject(e3)])]))
      == Some([m1, m2])
  {
    var entries := [e1, e2, e3];
    var items := [JObject(e1), JObject(e2), JObject(e3)];
    var results := map["results" := JArray(items)];
    assert AsArray(Lookup(results, "results"), AsDictionary) == CastAll(items, AsDictionary);
    assert CastAll(items, AsDictionary) == Some(entries) by {
      ResultsAreEntries(items);
      assert seq(|items|, i requires 0 <= i < |items| => items[i].fields) == entries;
    }
    DecodeTwoOfThree(entries, FromJson, m1, m2);
  }

  /** `Movie.upcoming()`: the upcoming-list URL, with only the API key, and its parser. */
  method Upcoming(consts: Constants) returns (r: Resource<seq<Movie>>)
    ensures r.url.scheme == consts.apiScheme && r.url.host == consts.apiHost
    ensures r.url.path == consts.apiPath + "/movie/upcoming"
    ensures r.url.queryItems == [ApiKeyItem(consts)]
    ensures forall b :: r.parse(b) == ParseJson(ParseUpcoming, b)
  {
    var url := UrlFromParameters<string>(consts, map[], s => s, Some("/movie/upcoming"));
    r := Resource(url, b => ParseJson(ParseUpcoming, b));
  }
}
