/** `TMDbConfig.resource()`: where the configuration is fetched from and how its payload is parsed. */
module TMDbResources {
  import opened Options
  import opened Json
  import opened Webservice
  import opened TMDbUrl
  import opened TMDbConfig

  /**
   * The parse closure: a top-level value that is not an object parses to
   * nothing; an object parses exactly as `TMDbConfig.init?(dictionary:)`.
   * `now` is the clock reading taken while the payload is parsed.
   */
  function ParseConfig(json: Json, now: int): (r: Option<Config>)
    ensures !json.JObject? ==> r.None?
    ensures json.JObject? ==> r == FromDictionary(json.fields, now)
  {
    match json
    case JObject(dictionary) => FromDictionary(dictionary, now)
    case _ => None
  }

  /** The configuration URL, with only the API key, and its parser. */
  method ConfigResource(consts: Constants, now: int) returns (r: Resource<Config>)
    ensures r.url.scheme == consts.apiScheme && r.url.host == consts.apiHost
    ensures r.url.path == consts.apiPath + "/configuration"
    ensures r.url.queryItems == [ApiKeyItem(consts)]
    ensures forall b :: r.parse(b) == ParseJson(j => ParseConfig(j, now), b)
  {
    var url := UrlFromParameters<string>(consts, map[], s => s, Some("/configuration"));
    r := Resource(url, b => ParseJson(j => ParseConfig(j, now), b));
  }

  /** Loading the configuration from a payload that lacks `images` fails with `other`. */
  lemma LoadWithoutImagesFails(resource: Resource<Config>, now: int, dictionary: JsonDictionary, response: HttpResponse)
    requires forall b :: resource.parse(b) == ParseJson(j => ParseConfig(j, now), b)
    requires ImagesKey !in dictionary
    ensures Load(resource, Some(JsonBody(JObject(dictionary))), response) == Completed(Failure(Other))
  {
    NoImagesNoConfig(dictionary, now);
    assert resource.parse(JsonBody(JObject(dictionary))).None?;
  }

  /** A config that loads successfully is fresh: the seven-day guard asks for no new one right away. */
  lemma LoadedConfigIsFresh(resource: Resource<Config>, now: int, data: Body, response: HttpResponse)
    requires forall b :: resource.parse(b) == ParseJson(j => ParseConfig(j, now), b)
    requires Load(resource, Some(data), response).result.Success?
    ensures Load(resource, Some(data), response).result.value.dateUpdated == Some(now)
    ensures !RequestsNewConfig(Load(resource, Some(data), response).result.value, 7, now)
  {
    assert resource.parse(data).Some?;
  }
}
