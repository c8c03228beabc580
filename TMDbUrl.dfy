/**
 * `TMDb.urlFromParameters(_:withPathExtension:)`: the URL of an API call.
 * The API constants are not part of this model; they are passed in as a
 * `Constants` record so that every property holds whatever their values.
 */
module TMDbUrl {
  import opened Options
  import opened Webservice

  /** `Constants.TMDB.ApiScheme`, `.ApiHost`, `.ApiPath` and the API-key parameter. */
  datatype Constants = Constants(
    apiScheme: string,
    apiHost: string,
    apiPath: string,
    apiKeyName: string,
    apiKeyValue: string)

  /** The query item that carries the API key. */
  function ApiKeyItem(consts: Constants): QueryItem {
    QueryItem(consts.apiKeyName, consts.apiKeyValue)
  }

  /** The query items for the parameters under `keys`, each value in its string form. */
  ghost function ItemsFor<V>(parameters: map<string, V>, describe: V -> string, keys: set<string>): set<QueryItem> {
    set k | k in keys && k in parameters :: QueryItem(k, describe(parameters[k]))
  }

  /** Adding one new key adds exactly one new item, since items of distinct keys differ in name. */
  lemma ItemsForAddKey<V>(parameters: map<string, V>, describe: V -> string, keys: set<string>, k: string)
    requires k in parameters && k !in keys
    ensures ItemsFor(parameters, describe, keys + {k})
      == ItemsFor(parameters, describe, keys) + {QueryItem(k, describe(parameters[k]))}
    ensures QueryItem(k, describe(parameters[k])) !in ItemsFor(parameters, describe, keys)
  {
  }

  /**
   * Scheme, host and path come from the constants (an absent extension adds
   * nothing to the path); the API key is the first query item, followed by
   * one item per parameter in dictionary order, which Swift leaves
   * unspecified: here any order may be chosen, so the parameter items are
   * stated as a multiset.
   */
  method UrlFromParameters<V>(consts: Constants, parameters: map<string, V>, describe: V -> string,
                              withPathExtension: Option<string>)
    returns (url: Url)
    ensures url.scheme == consts.apiScheme && url.host == consts.apiHost
    ensures url.path == consts.apiPath + withPathExtension.GetOr("")
    ensures |url.queryItems| == 1 + |parameters|
    ensures url.queryItems[0] == ApiKeyItem(consts)
    ensures multiset(url.queryItems[1..]) == multiset(ItemsFor(parameters, describe, parameters.Keys))
  {
    var queryItems := [ApiKeyItem(consts)];
    var remaining := parameters.Keys;
    ghost var done: set<string> := {};
    while remaining != {}
      invariant done + remaining == parameters.Keys && done !! remaining
      invariant |queryItems| == 1 + |done|
      invariant queryItems[0] == ApiKeyItem(consts)
      invariant multiset(queryItems[1..]) == multiset(ItemsFor(parameters, describe, done))
      decreases |remaining|
    {
      var key :| key in remaining;
      var item := QueryItem(key, describe(parameters[key]));
      AppendNewItem(queryItems, item, ItemsFor(parameters, describe, done), parameters, describe, done, key);
      queryItems := queryItems + [item];
      remaining := remaining - {key};
      done := done + {key};
    }
    assert done == parameters.Keys;
    url := Url(consts.apiScheme, consts.apiHost, consts.apiPath + withPathExtension.GetOr(""), queryItems);
  }

  /** One step of the loop above: appending the item of a new key keeps the items in step with the keys done. */
  lemma AppendNewItem<V>(queryItems: seq<QueryItem>, item: QueryItem, items: set<QueryItem>,
                         parameters: map<string, V>, describe: V -> string, done: set<string>, key: string)
    requires |queryItems| >= 1 && multiset(queryItems[1..]) == multiset(items)
    requires items == ItemsFor(parameters, describe, done)
    requires key in parameters && key !in done && item == QueryItem(key, describe(parameters[key]))
    ensures multiset((queryItems + [item])[1..]) == multiset(ItemsFor(parameters, describe, done + {key}))
    ensures |done + {key}| == |done| + 1
  {
    ItemsForAddKey(parameters, describe, done, key);
    assert (queryItems + [item])[1..] == queryItems[1..] + [item];
    assert multiset(items + {item}) == multiset(items) + multiset{item};
  }
}
