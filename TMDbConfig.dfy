/**
 * `TMDbConfig`: the image configuration (base URLs and poster sizes), its
 * age in whole days, its decoding from the configuration payload, the
 * staleness guard that decides whether to fetch a new one, and its
 * persistence under one key of the user-defaults store.
 *
 * Timestamps are whole seconds; the clock reading `Date()` is the parameter
 * `now`.
 */
module TMDbConfig {
  import opened Options
  import opened Json

  /**
   * The four stored fields. Swift declares a class, but the fields are only
   * assigned while an instance is initialized; afterwards a config is
   * replaced, never changed, so it is modelled as a value.
   */
  datatype Config = Config(
    baseImageUrl: string,
    secureBaseImageUrl: string,
    posterSizes: seq<string>,
    dateUpdated: Option<int>)

  /** `TMDbConfig()`: the values compiled into the app, never updated. */
  const DefaultConfig: Config := Config(
    "http://image.tmdb.org/t/p/",
    "https://image.tmdb.org/t/p/",
    ["w92", "w154", "w185", "w342", "w500", "w780", "original"],
    None)

  lemma DefaultConfigValues()
    ensures DefaultConfig.baseImageUrl == "http://image.tmdb.org/t/p/"
    ensures DefaultConfig.secureBaseImageUrl == "https://image.tmdb.org/t/p/"
    ensures DefaultConfig.posterSizes == ["w92", "w154", "w185", "w342", "w500", "w780", "original"]
    ensures DefaultConfig.dateUpdated.None?
  {
  }

  /** `60 * 60 * 24` */
  const SecondsPerDay: int := 60 * 60 * 24

  /**
   * `Int(elapsed) / (60 * 60 * 24)`: Swift's `/` on `Int` truncates toward
   * zero, so whole days are counted toward zero for either sign.
   */
  function WholeDays(elapsed: int): (d: int)
    ensures elapsed >= 0 ==> 0 <= d && d * SecondsPerDay <= elapsed < (d + 1) * SecondsPerDay
    ensures elapsed < 0 ==> d <= 0 && (d - 1) * SecondsPerDay < elapsed <= d * SecondsPerDay
  {
    if elapsed >= 0 then elapsed / SecondsPerDay else -((-elapsed) / SecondsPerDay)
  }

  /**
   * `daysSinceLastUpdate`: nothing when the config was never fetched;
   * otherwise the elapsed seconds divided by a day, truncated, so 7.9 days
   * count as 7, and a clock set back counts toward zero.
   */
  function DaysSinceLastUpdate(c: Config, now: int): (r: Option<int>)
    ensures r.None? <==> c.dateUpdated.None?
    ensures r.Some? && now >= c.dateUpdated.value ==>
      0 <= r.value && r.value * SecondsPerDay <= now - c.dateUpdated.value < (r.value + 1) * SecondsPerDay
    ensures r.Some? && now < c.dateUpdated.value ==>
      r.value <= 0 && (r.value - 1) * SecondsPerDay < now - c.dateUpdated.value <= r.value * SecondsPerDay
  {
    match c.dateUpdated
    case Some(lastUpdate) => Some(WholeDays(now - lastUpdate))
    case None => None
  }

  /** The keys of the configuration payload. */
  const ImagesKey: string := "images"
  const BaseUrlKey: string := "base_url"
  const SecureBaseUrlKey: string := "secure_base_url"
  const PosterSizesKey: string := "poster_sizes"

  /** The payload has an `images` object holding the three fields with their types. */
  predicate HasImageFields(dictionary: JsonDictionary) {
    var images := AsDictionary(Lookup(dictionary, ImagesKey));
    && images.Some?
    && AsString(Lookup(images.value, BaseUrlKey)).Some?
    && AsString(Lookup(images.value, SecureBaseUrlKey)).Some?
    && AsArray(Lookup(images.value, PosterSizesKey), AsString).Some?
  }

  /**
   * `TMDbConfig.init?(dictionary:)`: a config whose three fields are copied
   * from the `images` object and whose update time is now, or nothing.
   */
  function FromDictionary(dictionary: JsonDictionary, now: int): (r: Option<Config>)
    ensures r.Some? <==> HasImageFields(dictionary)
    ensures r.Some? ==> r.value.baseImageUrl == dictionary[ImagesKey].fields[BaseUrlKey].s
    ensures r.Some? ==> r.value.secureBaseImageUrl == dictionary[ImagesKey].fields[SecureBaseUrlKey].s
    ensures r.Some? ==> |r.value.posterSizes| == |dictionary[ImagesKey].fields[PosterSizesKey].items|
    ensures r.Some? ==> forall i :: 0 <= i < |r.value.posterSizes| ==>
      r.value.posterSizes[i] == dictionary[ImagesKey].fields[PosterSizesKey].items[i].s
    ensures r.Some? ==> r.value.dateUpdated == Some(now)
  {
    match AsDictionary(Lookup(dictionary, ImagesKey))
    case None => None
    case Some(images) =>
      match (AsString(Lookup(images, BaseUrlKey)), AsString(Lookup(images, SecureBaseUrlKey)),
             AsArray(Lookup(images, PosterSizesKey), AsString))
      case (Some(url), Some(secureUrl), Some(sizes)) => Some(Config(url, secureUrl, sizes, Some(now)))
      case _ => None
  }

  /** An independent encoder: the configuration payload the API sends for `c`. */
  function ToDictionary(c: Config): JsonDictionary {
    map[ImagesKey := JObject(map[
      BaseUrlKey := JString(c.baseImageUrl),
      SecureBaseUrlKey := JString(c.secureBaseImageUrl),
      PosterSizesKey := JArray(seq(|c.posterSizes|, i requires 0 <= i < |c.posterSizes| => JString(c.posterSizes[i])))])]
  }

  /** Decoding the payload for `c` gives `c` back, stamped with the time of decoding. */
  lemma DecodeEncode(c: Config, now: int)
    ensures FromDictionary(ToDictionary(c), now) == Some(c.(dateUpdated := Some(now)))
  {
    var items := ToDictionary(c)[ImagesKey].fields[PosterSizesKey].items;
    assert forall i :: 0 <= i < |items| ==> AsString(Some(items[i])) == Some(c.posterSizes[i]);
    var sizes := CastAll(items, AsString);
    assert sizes.Some?;
    assert sizes.value == c.posterSizes;
  }

  /** A payload without an `images` object decodes to nothing. */
  lemma NoImagesNoConfig(dictionary: JsonDictionary, now: int)
    requires ImagesKey !in dictionary || !dictionary[ImagesKey].JObject?
    ensures FromDictionary(dictionary, now).None?
  {
  }

  /**
   * `requestForNewConfigIfDaysSinceUpdateExceeds(days, newConfig:)`: whether
   * the guard lets the load through. It does when the config was never
   * updated or is more than `days` whole days old; otherwise no request is
   * made and the completion is never called. For a non-negative threshold
   * it fires exactly when there is no update date or at least `days + 1`
   * whole days have elapsed.
   */
  function RequestsNewConfig(c: Config, days: int, now: int): (issue: bool)
    ensures days >= 0 ==>
      (issue <==> c.dateUpdated.None? || now - c.dateUpdated.value >= (days + 1) * SecondsPerDay)
  {
    match DaysSinceLastUpdate(c, now)
    case Some(daysSinceLastUpdate) => !(daysSinceLastUpdate <= days)
    case None => true
  }

  /** With the seven-day threshold: 7.9 days is not stale, 8 days is. */
  lemma SevenDayThresholdBoundary(c: Config, now: int)
    requires c.dateUpdated.Some?
    ensures now - c.dateUpdated.value == 682560 ==> !RequestsNewConfig(c, 7, now)
    ensures now - c.dateUpdated.value == 8 * SecondsPerDay ==> RequestsNewConfig(c, 7, now)
    ensures now - c.dateUpdated.value == 8 * SecondsPerDay - 1 ==> !RequestsNewConfig(c, 7, now)
  {
  }

  /** A freshly decoded config is zero days old, so the guard makes no request right away. */
  lemma FreshConfigIsNotStale(dictionary: JsonDictionary, now: int, days: int)
    requires FromDictionary(dictionary, now).Some? && days >= 0
    ensures DaysSinceLastUpdate(FromDictionary(dictionary, now).value, now) == Some(0)
    ensures !RequestsNewConfig(FromDictionary(dictionary, now).value, days, now)
  {
  }

  /** The user-defaults key the config is archived under. */
  const ConfigKey: string := "TheMovieDB-Configuration"

  /**
   * What the user-defaults store holds under a key: an encoded config, or
   * data the decoder cannot read.
   */
  datatype StoredValue = Archived(config: Config) | Undecodable

  type Store = map<string, StoredValue>

  /** `save()`: the config is written under `ConfigKey`, and nothing else changes. */
  function Save(c: Config, store: Store): (r: Store)
    ensures ConfigKey in r && r[ConfigKey] == Archived(c)
    ensures forall k :: k != ConfigKey ==> (k in r <==> k in store)
    ensures forall k :: k != ConfigKey && k in store ==> r[k] == store[k]
  {
    store[ConfigKey := Archived(c)]
  }

  /**
   * `unarchivedInstance()`: the config stored under `ConfigKey`; nothing when
   * the key holds no data or data that does not decode.
   */
  function UnarchivedInstance(store: Store): (r: Option<Config>)
    ensures r.Some? <==> ConfigKey in store && store[ConfigKey].Archived?
    ensures r.Some? ==> r.value == store[ConfigKey].config
  {
    if ConfigKey in store then
      match store[ConfigKey]
      case Archived(c) => Some(c)
      case Undecodable => None
    else None
  }

  /** Saving then unarchiving gives back the saved config in all four fields. */
  lemma SaveThenUnarchive(c: Config, store: Store)
    ensures UnarchivedInstance(Save(c, store)) == Some(c)
  {
  }

  /** A later save supersedes an earlier one. */
  lemma LaterSaveSupersedes(c1: Config, c2: Config, store: Store)
    ensures Save(c2, Save(c1, store)) == Save(c2, store)
  {
  }
}
