/**
 * `TMDb`: the service object that owns the current configuration. At start
 * it takes the archived config or the defaults and, when that config is
 * stale, issues one load of the configuration resource; the load's
 * completion replaces the config and archives it on success, and changes
 * nothing on failure. The shared singleton is replaced by an explicitly
 * constructed object, and `UserDefaults.standard` by the `defaults` field.
 */
module TMDbService {
  import opened Options
  import opened Webservice
  import opened TMDbUrl
  import opened TMDbConfig
  import opened TMDbResources

  /** The staleness threshold `TMDb.init` passes to the guard, in days. */
  const RefreshThresholdDays: int := 7

  class TMDb {
    const consts: Constants
    /** The authoritative configuration. */
    var config: Config
    /** The user-defaults store the configuration is archived in. */
    var defaults: Store
    /** A load of the configuration resource is out and its completion has not yet run. */
    var refreshInFlight: bool

    /** `TMDb.init()` */
    constructor (consts: Constants, defaults: Store, now: int)
      ensures this.consts == consts && this.defaults == defaults
      ensures UnarchivedInstance(defaults).Some? ==> config == UnarchivedInstance(defaults).value
      ensures UnarchivedInstance(defaults).None? ==> config == DefaultConfig
      ensures refreshInFlight <==> RequestsNewConfig(config, RefreshThresholdDays, now)
    {
      this.consts := consts;
      this.defaults := defaults;
      config := UnarchivedInstance(defaults).GetOr(DefaultConfig);
      refreshInFlight := RequestsNewConfig(UnarchivedInstance(defaults).GetOr(DefaultConfig), RefreshThresholdDays, now);
    }

    /** The completion of the refresh, run once with the load's result. */
    method CompleteRefresh(result: Result<Config>)
      requires refreshInFlight
      modifies this
      ensures !refreshInFlight
      ensures result.Success? ==> config == result.value && defaults == Save(result.value, old(defaults))
      ensures result.Success? ==> UnarchivedInstance(defaults) == Some(config)
      ensures result.Failure? ==> config == old(config) && defaults == old(defaults)
    {
      refreshInFlight := false;
      match result
      case Success(newConfig) =>
        config := newConfig;
        defaults := Save(config, defaults);
        SaveThenUnarchive(config, old(defaults));
      case Failure(_) =>
    }

    /**
     * The data task of the refresh finishing with `data`: the body goes
     * through `load` with the configuration resource, parsed at time `now`,
     * and its result through the completion.
     */
    method ReceiveConfigResponse(data: Body, response: HttpResponse, now: int)
      requires refreshInFlight
      modifies this
      ensures !refreshInFlight
      ensures ParseJson(j => ParseConfig(j, now), data).Some? ==>
        config == ParseJson(j => ParseConfig(j, now), data).value && defaults == Save(config, old(defaults))
      ensures ParseJson(j => ParseConfig(j, now), data).Some? ==>
        (config.dateUpdated == Some(now) && !RequestsNewConfig(config, RefreshThresholdDays, now))
      ensures ParseJson(j => ParseConfig(j, now), data).None? ==> config == old(config) && defaults == old(defaults)
    {
      var resource := ConfigResource(consts, now);
      var outcome := Load(resource, Some(data), response);
      if outcome.result.Success? {
        LoadedConfigIsFresh(resource, now, data, response);
      }
      CompleteRefresh(outcome.result);
    }
  }

  /** A config archived at most seven whole days ago is kept at start with no fetch. */
  lemma StartupKeepsRecentArchive(defaults: Store, now: int)
    requires UnarchivedInstance(defaults).Some? && UnarchivedInstance(defaults).value.dateUpdated.Some?
    requires 0 <= now - UnarchivedInstance(defaults).value.dateUpdated.value < 8 * SecondsPerDay
    ensures !RequestsNewConfig(UnarchivedInstance(defaults).GetOr(DefaultConfig), RefreshThresholdDays, now)
  {
  }

  /** With nothing archived the defaults are used, and a load is always issued. */
  lemma StartupWithoutArchiveFetches(defaults: Store, now: int)
    requires UnarchivedInstance(defaults).None?
    ensures RequestsNewConfig(UnarchivedInstance(defaults).GetOr(DefaultConfig), RefreshThresholdDays, now)
  {
  }

  /**
   * A refresh cycle end to end: start, and when a load is issued, receive
   * `data`. When the guard does not fire, or the payload does not parse, the
   * start-up config and the store stay as they were; otherwise the parsed
   * config is current and archived, and no other key of the store changes.
   */
  method StartAndRefresh(consts: Constants, defaults: Store, start: int, data: Body, response: HttpResponse, now: int)
    returns (config: Config, store: Store)
    ensures !RequestsNewConfig(UnarchivedInstance(defaults).GetOr(DefaultConfig), RefreshThresholdDays, start) ==>
      config == UnarchivedInstance(defaults).GetOr(DefaultConfig) && store == defaults
    ensures ParseJson(j => ParseConfig(j, now), data).None? ==>
      config == UnarchivedInstance(defaults).GetOr(DefaultConfig) && store == defaults
    ensures (RequestsNewConfig(UnarchivedInstance(defaults).GetOr(DefaultConfig), RefreshThresholdDays, start)
      && ParseJson(j => ParseConfig(j, now), data).Some?) ==>
      config == ParseJson(j => ParseConfig(j, now), data).value && store == Save(config, defaults)
      && UnarchivedInstance(store) == Some(config)
  {
    var service := new TMDb(consts, defaults, start);
    if service.refreshInFlight {
      service.ReceiveConfigResponse(data, response, now);
      SaveThenUnarchive(service.config, defaults);
    }
    config, store := service.config, service.defaults;
  }
}
