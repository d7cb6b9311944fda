/**
 * The RSSHub client: a request builder that collects query parameters, the
 * request URL and cache key it derives from them, and the module-wide
 * configuration and response cache. HTTP requests are a parameter `fetch`;
 * the form encoding of `URLSearchParams` is a parameter `encode`.
 */
module RssHubScraper {
  import opened Optional
  import opened JsText
  import opened JsonValue

  // ---------------------------------------------------------------------
  // URLSearchParams
  // ---------------------------------------------------------------------

  datatype Param = Param(name: string, value: string)

  /** The index of the first parameter called `name`. */
  function ParamIndex(params: seq<Param>, name: string): (r: Option<nat>)
    ensures r.Some? ==> r.value < |params| && params[r.value].name == name
    ensures r.Some? ==> forall j :: 0 <= j < r.value ==> params[j].name != name
    ensures r.None? <==> forall j :: 0 <= j < |params| ==> params[j].name != name
    decreases |params|
  {
    if |params| == 0 then None
    else if params[0].name == name then Some(0)
    else
      var r := ParamIndex(params[1..], name);
      if r.Some? then Some(r.value + 1) else None
  }

  /** `params.get(name)`: the value of the first parameter called `name`. */
  function Lookup(params: seq<Param>, name: string): Option<string> {
    var i := ParamIndex(params, name);
    if i.Some? then Some(params[i.value].value) else None
  }

  /** `params.has(name)`. */
  predicate Has(params: seq<Param>, name: string) {
    ParamIndex(params, name).Some?
  }

  /** The parameters not called `name`, in order. */
  function WithoutName(params: seq<Param>, name: string): (r: seq<Param>)
    ensures forall j :: 0 <= j < |r| ==> r[j].name != name
    ensures forall p :: p in r <==> p in params && p.name != name
    decreases |params|
  {
    if |params| == 0 then []
    else (if params[0].name == name then [] else [params[0]]) + WithoutName(params[1..], name)
  }

  /**
   * `params.set(name, value)`: the first parameter called `name` takes the
   * value and later ones are removed; without one, the pair is appended.
   */
  function SetParam(params: seq<Param>, name: string, value: string): seq<Param> {
    match ParamIndex(params, name)
    case None => params + [Param(name, value)]
    case Some(i) => params[..i] + [Param(name, value)] + WithoutName(params[i + 1..], name)
  }

  /** No two parameters share a name. */
  predicate DistinctNames(params: seq<Param>) {
    forall i, j :: 0 <= i < j < |params| ==> params[i].name != params[j].name
  }

  /** With distinct names, a parameter's value is what `get` returns for its name. */
  lemma LookupDistinct(params: seq<Param>, name: string)
    requires DistinctNames(params)
    ensures forall j :: 0 <= j < |params| && params[j].name == name ==> Lookup(params, name) == Some(params[j].value)
    ensures (forall j :: 0 <= j < |params| ==> params[j].name != name) ==> Lookup(params, name).None?
  {
  }

  /** With distinct names, `set` replaces the parameter in place or appends it, and names stay distinct. */
  lemma SetParamDistinct(params: seq<Param>, name: string, value: string)
    requires DistinctNames(params)
    ensures ParamIndex(params, name).None? ==> SetParam(params, name, value) == params + [Param(name, value)]
    ensures ParamIndex(params, name).Some? ==>
      SetParam(params, name, value) == params[ParamIndex(params, name).value := Param(name, value)]
    ensures DistinctNames(SetParam(params, name, value))
  {
    var k := ParamIndex(params, name);
    if k.None? {
      DistinctAppend(params, Param(name, value));
    } else {
      SetParamInPlace(params, name, value, k.value);
      DistinctUpdate(params, k.value, Param(name, value));
    }
  }

  /** Replacing the only parameter of a name is an in-place update. */
  lemma SetParamInPlace(params: seq<Param>, name: string, value: string, i: nat)
    requires DistinctNames(params)
    requires ParamIndex(params, name) == Some(i)
    ensures SetParam(params, name, value) == params[i := Param(name, value)]
  {
    var rest := params[i + 1..];
    NamesAfterDiffer(params, i, rest);
    WithoutAbsentName(rest, name);
    assert SetParam(params, name, value) == params[..i] + [Param(name, value)] + rest;
    SpliceIsUpdate(params, i, Param(name, value));
  }

  /** With distinct names, no parameter after `i` has the name of `i`. */
  lemma NamesAfterDiffer(params: seq<Param>, i: nat, rest: seq<Param>)
    requires DistinctNames(params) && i < |params| && rest == params[i + 1..]
    ensures forall j :: 0 <= j < |rest| ==> rest[j].name != params[i].name
  {
    forall j | 0 <= j < |rest|
      ensures rest[j].name != params[i].name
    {
      assert rest[j] == params[i + 1 + j];
    }
  }

  /** Cutting out element `i` and putting `x` in its place is the update at `i`. */
  lemma SpliceIsUpdate<T>(s: seq<T>, i: nat, x: T)
    requires i < |s|
    ensures s[..i] + [x] + s[i + 1..] == s[i := x]
  {
    var t := s[..i] + [x] + s[i + 1..];
    assert |t| == |s|;
    forall j | 0 <= j < |s|
      ensures t[j] == s[i := x][j]
    {
      if j < i {
        assert t[j] == s[..i][j];
      } else if j > i {
        assert t[j] == s[i + 1..][j - i - 1];
      }
    }
  }

  lemma DistinctAppend(params: seq<Param>, p: Param)
    requires DistinctNames(params)
    requires forall j :: 0 <= j < |params| ==> params[j].name != p.name
    ensures DistinctNames(params + [p])
  {
    var r := params + [p];
    forall a, b | 0 <= a < b < |r|
      ensures r[a].name != r[b].name
    {
      assert r[a] == params[a];
    }
  }

  lemma DistinctUpdate(params: seq<Param>, i: nat, p: Param)
    requires DistinctNames(params)
    requires i < |params| && params[i].name == p.name
    ensures DistinctNames(params[i := p])
  {
    var r := params[i := p];
    forall a, b | 0 <= a < b < |r|
      ensures r[a].name != r[b].name
    {
      assert r[a].name == params[a].name && r[b].name == params[b].name;
    }
  }

  /** Removing a name that does not occur changes nothing. */
  lemma {:induction false} WithoutAbsentName(params: seq<Param>, name: string)
    requires forall j :: 0 <= j < |params| ==> params[j].name != name
    ensures WithoutName(params, name) == params
    decreases |params|
  {
    if |params| > 0 {
      var rest := params[1..];
      WithoutAbsentName(rest, name);
      assert params[0].name != name;
      assert WithoutName(params, name) == [params[0]] + WithoutName(rest, name);
      assert params == [params[0]] + rest;
    }
  }

  /** After `set`, the name has the new value and every other name keeps its own. */
  lemma SetParamLookup(params: seq<Param>, name: string, value: string, other: string)
    requires DistinctNames(params)
    ensures Lookup(SetParam(params, name, value), name) == Some(value)
    ensures other != name ==> Lookup(SetParam(params, name, value), other) == Lookup(params, other)
  {
    SetParamDistinct(params, name, value);
    var r := SetParam(params, name, value);
    assert exists j :: 0 <= j < |r| && r[j] == Param(name, value) by {
      if ParamIndex(params, name).Some? {
        assert r[ParamIndex(params, name).value] == Param(name, value);
      } else {
        assert r[|params|] == Param(name, value);
      }
    }
    LookupDistinct(r, name);
    if other != name {
      LookupDistinct(r, other);
      LookupDistinct(params, other);
      assert forall j :: 0 <= j < |params| && params[j].name == other ==> r[j] == params[j];
      assert forall j :: 0 <= j < |r| && r[j].name == other ==> j < |params| && r[j] == params[j];
    }
  }

  /** Setting a name twice keeps only the second value. */
  lemma SetParamOverwrites(params: seq<Param>, name: string, v1: string, v2: string)
    requires DistinctNames(params)
    ensures SetParam(SetParam(params, name, v1), name, v2) == SetParam(params, name, v2)
  {
    SetParamDistinct(params, name, v1);
    var r := SetParam(params, name, v1);
    SetParamDistinct(r, name, v2);
    match ParamIndex(params, name)
    case None =>
      ParamIndexAt(r, name, |params|);
    case Some(i) =>
      ParamIndexAt(r, name, i);
  }

  /** `ParamIndex` finds `i` when `i` holds the name and nothing before it does. */
  lemma ParamIndexAt(params: seq<Param>, name: string, i: nat)
    requires i < |params| && params[i].name == name
    requires forall j :: 0 <= j < i ==> params[j].name != name
    ensures ParamIndex(params, name) == Some(i)
  {
  }

  /** `URLSearchParams.toString`: `name=value` pairs joined by "&". */
  function Query(params: seq<Param>, encode: string -> string): string {
    Join(seq(|params|, i requires 0 <= i < |params| => encode(params[i].name) + "=" + encode(params[i].value)), "&")
  }

  /** The query string is empty exactly when there are no parameters. */
  lemma QueryEmptyIff(params: seq<Param>, encode: string -> string)
    ensures Query(params, encode) == "" <==> |params| == 0
  {
    var pieces := seq(|params|, i requires 0 <= i < |params| => encode(params[i].name) + "=" + encode(params[i].value));
    if |params| > 0 {
      JoinLongerThanFirst(pieces, "&");
    }
  }

  /** A join is at least as long as its first piece. */
  lemma JoinLongerThanFirst(parts: seq<string>, sep: string)
    requires |parts| > 0
    ensures |Join(parts, sep)| >= |parts[0]|
  {
  }

  // ---------------------------------------------------------------------
  // The module configuration and cache
  // ---------------------------------------------------------------------

  /** A data value or the error `handleError` throws. */
  datatype RssHubError = RssHubError(message: string, endpoint: string, status: Option<int>)

  /** What `axios` gives back: the response data, or an error (`message` is absent for a non-`Error` throw). */
  datatype FetchReply = FetchOk(data: Json) | FetchError(message: Option<string>, httpStatus: Option<int>)

  /** `handleError`: the error's message (or a fixed text), the endpoint and any HTTP status. */
  function HandleError(message: Option<string>, httpStatus: Option<int>, endpoint: string): (e: RssHubError)
    ensures e.endpoint == endpoint && e.status == httpStatus
    ensures message.None? ==> e.message == "Unknown error occurred"
  {
    RssHubError(if message.Some? then message.value else "Unknown error occurred", endpoint, httpStatus)
  }

  /** A partial configuration for `request.config`. */
  datatype ConfigPatch = ConfigPatch(
    baseURL: Option<string>,
    timeout: Option<int>,
    enableCache: Option<bool>,
    cacheMaxAge: Option<int>,
    cacheSize: Option<int>)

  /** A number option that JavaScript treats as true: present and non-zero. */
  predicate NumberTruthy(n: Option<int>) {
    n.Some? && n.value != 0
  }

  /** The fields of the module-level `config`. */
  datatype HubConfig = HubConfig(baseURL: string, timeout: int, enableCache: bool, cacheMaxAge: int, cacheSize: int)

  /** The module-level `config` and `cache`. Entries never expire and are never evicted here. */
  class RssHub {
    var baseURL: string
    var timeout: int
    var enableCache: bool
    var cacheMaxAge: int
    var cacheSize: int
    var cache: map<string, Json>

    /** `defaultConfig` and an empty cache. */
    constructor ()
      ensures baseURL == "https://rsshub.app" && timeout == 10000 && enableCache
      ensures cacheMaxAge == 5 * 60 * 1000 && cacheSize == 100 && cache == map[]
    {
      baseURL := "https://rsshub.app";
      timeout := 10000;
      enableCache := true;
      cacheMaxAge := 5 * 60 * 1000;
      cacheSize := 100;
      cache := map[];
    }

    /** The configuration, without the cache. */
    function Config(): HubConfig
      reads this
    {
      HubConfig(baseURL, timeout, enableCache, cacheMaxAge, cacheSize)
    }

    /** `request.config`: given fields override; the cache is reset only for a non-zero size or age. */
    method Configure(values: ConfigPatch)
      modifies this
      ensures baseURL == values.baseURL.GetOr(old(baseURL)) && timeout == values.timeout.GetOr(old(timeout))
      ensures enableCache == values.enableCache.GetOr(old(enableCache))
      ensures cacheMaxAge == values.cacheMaxAge.GetOr(old(cacheMaxAge)) && cacheSize == values.cacheSize.GetOr(old(cacheSize))
      ensures cache == if NumberTruthy(values.cacheSize) || NumberTruthy(values.cacheMaxAge) then map[] else old(cache)
    {
      baseURL := values.baseURL.GetOr(baseURL);
      timeout := values.timeout.GetOr(timeout);
      enableCache := values.enableCache.GetOr(enableCache);
      cacheMaxAge := values.cacheMaxAge.GetOr(cacheMaxAge);
      cacheSize := values.cacheSize.GetOr(cacheSize);
      if NumberTruthy(values.cacheSize) || NumberTruthy(values.cacheMaxAge) {
        cache := map[];
      }
    }

    /** `request.clearCache`: the whole cache is emptied. */
    method ClearAll()
      modifies this
      ensures cache == map[]
      ensures Config() == old(Config())
    {
      cache := map[];
    }
  }

  // ---------------------------------------------------------------------
  // _request
  // ---------------------------------------------------------------------

  /** `baseURL + path + suffix`, then `?` and the query when it is non-empty. */
  function FullPath(baseURL: string, path: string, suffix: string, query: string): string {
    baseURL + path + suffix + (if query != "" then "?" + query else "")
  }

  /** The cache key: the builder's key, the suffix, ":" and the query. */
  function CacheKey(keyPrefix: string, suffix: string, query: string): string {
    keyPrefix + suffix + ":" + query
  }

  /** What a request returns, the URL it fetched (if any) and the cache afterwards. */
  datatype RequestResult = RequestResult(result: Result<Json, RssHubError>, fetched: Option<string>, cache: map<string, Json>)

  /** `_request`: a truthy cached value wins when caching is on; otherwise fetch, caching a success. */
  function RequestOutcome(baseURL: string, enableCache: bool, cache: map<string, Json>, path: string, keyPrefix: string,
                          suffix: string, query: string, fetch: string -> FetchReply): (r: RequestResult)
    ensures r.fetched.None? ==> r.result.Ok?
    ensures r.fetched.Some? ==> r.fetched.value == FullPath(baseURL, path, suffix, query)
    ensures r.result.Err? ==> r.fetched.Some? && r.result.error.endpoint == FullPath(baseURL, path, suffix, query)
    ensures !enableCache || r.fetched.None? || r.result.Err? ==> r.cache == cache
    ensures enableCache && r.fetched.Some? && r.result.Ok? ==> r.cache == cache[CacheKey(keyPrefix, suffix, query) := r.result.value]
  {
    var url := FullPath(baseURL, path, suffix, query);
    var key := CacheKey(keyPrefix, suffix, query);
    if enableCache && key in cache && JsTruthy(cache[key]) then RequestResult(Ok(cache[key]), None, cache)
    else match fetch(url)
      case FetchOk(data) => RequestResult(Ok(data), Some(url), if enableCache then cache[key := data] else cache)
      case FetchError(message, status) => RequestResult(Err(HandleError(message, status, url)), Some(url), cache)
  }

  /** A cache hit returns the stored data without a request and changes nothing. */
  lemma CacheHitSkipsFetch(baseURL: string, cache: map<string, Json>, path: string, keyPrefix: string,
                           suffix: string, query: string, fetch: string -> FetchReply)
    requires CacheKey(keyPrefix, suffix, query) in cache && JsTruthy(cache[CacheKey(keyPrefix, suffix, query)])
    ensures var r := RequestOutcome(baseURL, true, cache, path, keyPrefix, suffix, query, fetch);
      r.result == Ok(cache[CacheKey(keyPrefix, suffix, query)]) && r.fetched.None? && r.cache == cache
  {
  }

  /**
   * Otherwise the full URL is fetched; a success is returned and, with the
   * cache on, stored under the key; a failure names the URL and stores nothing.
   */
  lemma MissFetchesFullPath(baseURL: string, enableCache: bool, cache: map<string, Json>, path: string, keyPrefix: string,
                            suffix: string, query: string, fetch: string -> FetchReply)
    requires !(enableCache && CacheKey(keyPrefix, suffix, query) in cache && JsTruthy(cache[CacheKey(keyPrefix, suffix, query)]))
    ensures var r := RequestOutcome(baseURL, enableCache, cache, path, keyPrefix, suffix, query, fetch);
      var url := FullPath(baseURL, path, suffix, query);
      var key := CacheKey(keyPrefix, suffix, query);
      r.fetched == Some(url)
      && (fetch(url).FetchOk? ==>
            (r.result == Ok(fetch(url).data)
             && (enableCache ==> key in r.cache && r.cache[key] == fetch(url).data)
             && (forall k :: k != key ==> (k in r.cache <==> k in cache) && (k in cache ==> r.cache[k] == cache[k]))))
      && (fetch(url).FetchError? ==> r.result.Err? && r.result.error.endpoint == url && r.cache == cache)
  {
  }

  /** The URL carries a "?" exactly when there are parameters. */
  lemma QueryMarkIffParams(baseURL: string, path: string, suffix: string, params: seq<Param>, encode: string -> string)
    ensures FullPath(baseURL, path, suffix, Query(params, encode)) ==
      baseURL + path + suffix + (if |params| > 0 then "?" + Query(params, encode) else "")
  {
    QueryEmptyIff(params, encode);
  }

  // ---------------------------------------------------------------------
  // clearCache
  // ---------------------------------------------------------------------

  /** The cache without the keys starting with `prefix`. */
  function WithoutPrefix(cache: map<string, Json>, prefix: string): (r: map<string, Json>)
    ensures forall k :: k in r <==> k in cache && !StartsWith(k, prefix)
    ensures forall k :: k in r ==> r[k] == cache[k]
  {
    map k | k in cache && !StartsWith(k, prefix) :: cache[k]
  }

  /**
   * The prefix test also matches the keys of a longer path that extends
   * this one: clearing "/a" clears the cached responses of "/ab".
   */
  lemma ClearCacheReachesLongerPaths(path: string, longer: string, suffix: string, query: string)
    requires StartsWith(longer, path)
    ensures StartsWith(CacheKey("rsshub:" + longer, suffix, query), "rsshub:" + path)
  {
    var key := CacheKey("rsshub:" + longer, suffix, query);
    assert key == "rsshub:" + longer + (suffix + ":" + query);
    assert ("rsshub:" + longer)[..|"rsshub:" + path|] == "rsshub:" + path;
  }

  /** The same builder's keys are always cleared, whatever the suffix and query. */
  lemma ClearCacheReachesOwnKeys(path: string, suffix: string, query: string)
    ensures StartsWith(CacheKey("rsshub:" + path, suffix, query), "rsshub:" + path)
  {
    ClearCacheReachesLongerPaths(path, path, suffix, query);
  }

  // ---------------------------------------------------------------------
  // RequestSetup
  // ---------------------------------------------------------------------

  datatype FeedFormat = Rss | Atom | JsonFeed | Rss3

  function FormatName(f: FeedFormat): string {
    match f
    case Rss => "rss"
    case Atom => "atom"
    case JsonFeed => "json"
    case Rss3 => "rss3"
  }

  datatype OpenCC = S2T | T2S

  /** How booleans are written into the query. */
  function BoolText(b: bool): (r: string)
    ensures r == "true" <==> b
    ensures r == "false" <==> !b
  {
    if b then "true" else "false"
  }

  /** The `format` parameter `get()` ends up with: the one set, else "rss". */
  function FormatAfterGet(params: seq<Param>): seq<Param> {
    if Has(params, "format") then params else SetParam(params, "format", "rss")
  }

  /** After `get()` a format is always present, and a format set before is kept. */
  lemma GetKeepsChosenFormat(params: seq<Param>)
    requires DistinctNames(params)
    ensures Has(FormatAfterGet(params), "format")
    ensures Has(params, "format") ==> Lookup(FormatAfterGet(params), "format") == Lookup(params, "format")
    ensures !Has(params, "format") ==> Lookup(FormatAfterGet(params), "format") == Some("rss")
  {
    SetParamLookup(params, "format", "rss", "format");
  }

  /** `rss2`/`atom`/`json`/`rss3` force their format, which `get()` then keeps. */
  lemma ForcedFormatWins(params: seq<Param>, f: FeedFormat)
    requires DistinctNames(params)
    ensures Lookup(FormatAfterGet(SetParam(params, "format", FormatName(f))), "format") == Some(FormatName(f))
  {
    SetParamLookup(params, "format", FormatName(f), "format");
  }

  /** A request for one feed path, collecting the RSSHub query parameters. */
  class RequestSetup {
    const path: string
    const cacheKey: string
    var params: seq<Param>

    /** The parameters only ever change through `set`, so their names stay distinct. */
    predicate Valid()
      reads this
    {
      DistinctNames(params)
    }

    constructor (path: string)
      ensures this.path == path && cacheKey == "rsshub:" + path && params == [] && Valid()
    {
      this.path := path;
      cacheKey := "rsshub:" + path;
      params := [];
    }

    method Set(name: string, value: string)
      requires Valid()
      modifies this
      ensures params == SetParam(old(params), name, value) && Valid()
    {
      SetParamDistinct(params, name, value);
      params := SetParam(params, name, value);
    }

    method Filter(pattern: string) returns (r: RequestSetup)
      requires Valid()
      modifies this
      ensures Valid()
      ensures params == SetParam(old(params), "filter", pattern) && r == this
    {
      Set("filter", pattern);
      r := this;
    }

    method FilterTitle(pattern: string) returns (r: RequestSetup)
      requires Valid()
      modifies this
      ensures Valid()
      ensures params == SetParam(old(params), "filter_title", pattern) && r == this
    {
      Set("filter_title", pattern);
      r := this;
    }

    method FilterDescription(pattern: string) returns (r: RequestSetup)
      requires Valid()
      modifies this
      ensures Valid()
      ensures params == SetParam(old(params), "filter_description", pattern) && r == this
    {
      Set("filter_description", pattern);
      r := this;
    }

    method FilterAuthor(pattern: string) returns (r: RequestSetup)
      requires Valid()
      modifies this
      ensures Valid()
      ensures params == SetParam(old(params), "filter_author", pattern) && r == this
    {
      Set("filter_author", pattern);
      r := this;
    }

    method FilterCategory(pattern: string) returns (r: RequestSetup)
      requires Valid()
      modifies this
      ensures Valid()
      ensures params == SetParam(old(params), "filter_category", pattern) && r == this
    {
      Set("filter_category", pattern);
      r := this;
    }

    /** `filterTime(seconds)` for a whole number of seconds. */
    method FilterTime(seconds: int) returns (r: RequestSetup)
      requires Valid()
      modifies this
      ensures Valid()
      ensures params == SetParam(old(params), "filter_time", IntToString(seconds)) && r == this
    {
      Set("filter_time", IntToString(seconds));
      r := this;
    }

    method FilterOut(pattern: string) returns (r: RequestSetup)
      requires Valid()
      modifies this
      ensures Valid()
      ensures params == SetParam(old(params), "filterout", pattern) && r == this
    {
      Set("filterout", pattern);
      r := this;
    }

    method FilterOutTitle(pattern: string) returns (r: RequestSetup)
      requires Valid()
      modifies this
      ensures Valid()
      ensures params == SetParam(old(params), "filterout_title", pattern) && r == this
    {
      Set("filterout_title", pattern);
      r := this;
    }

    method FilterOutDescription(pattern: string) returns (r: RequestSetup)
      requires Valid()
      modifies this
      ensures Valid()
      ensures params == SetParam(old(params), "filterout_description", pattern) && r == this
    {
      Set("filterout_description", pattern);
      r := this;
    }

    method FilterOutAuthor(pattern: string) returns (r: RequestSetup)
      requires Valid()
      modifies this
      ensures Valid()
      ensures params == SetParam(old(params), "filterout_author", pattern) && r == this
    {
      Set("filterout_author", pattern);
      r := this;
    }

    method FilterOutCategory(pattern: string) returns (r: RequestSetup)
      requires Valid()
      modifies this
      ensures Valid()
      ensures params == SetParam(old(params), "filterout_category", pattern) && r == this
    {
      Set("filterout_category", pattern);
      r := this;
    }

    method FilterCaseSensitive(sensitive: bool) returns (r: RequestSetup)
      requires Valid()
      modifies this
      ensures Valid()
      ensures params == SetParam(old(params), "filter_case_sensitive", BoolText(sensitive)) && r == this
    {
      Set("filter_case_sensitive", BoolText(sensitive));
      r := this;
    }

    method Limit(count: int) returns (r: RequestSetup)
      requires Valid()
      modifies this
      ensures Valid()
      ensures params == SetParam(old(params), "limit", IntToString(count)) && r == this
    {
      Set("limit", IntToString(count));
      r := this;
    }

    method Sorted(sort: bool) returns (r: RequestSetup)
      requires Valid()
      modifies this
      ensures Valid()
      ensures params == SetParam(old(params), "sorted", BoolText(sort)) && r == this
    {
      Set("sorted", BoolText(sort));
      r := this;
    }

    method Fulltext() returns (r: RequestSetup)
      requires Valid()
      modifies this
      ensures Valid()
      ensures params == SetParam(old(params), "mode", "fulltext") && r == this
    {
      Set("mode", "fulltext");
      r := this;
    }

    method Format(f: FeedFormat) returns (r: RequestSetup)
      requires Valid()
      modifies this
      ensures Valid()
      ensures params == SetParam(old(params), "format", FormatName(f)) && r == this
    {
      Set("format", FormatName(f));
      r := this;
    }

    method OpenChinese(conversion: OpenCC) returns (r: RequestSetup)
      requires Valid()
      modifies this
      ensures Valid()
      ensures params == SetParam(old(params), "opencc", if conversion == S2T then "s2t" else "t2s") && r == this
    {
      Set("opencc", if conversion == S2T then "s2t" else "t2s");
      r := this;
    }

    /** `brief(wordCount)`: only counts from 100 on are sent. */
    method Brief(wordCount: int) returns (r: RequestSetup)
      requires Valid()
      modifies this
      ensures Valid()
      ensures wordCount >= 100 ==> params == SetParam(old(params), "brief", IntToString(wordCount))
      ensures wordCount < 100 ==> params == old(params)
      ensures r == this
    {
      if wordCount >= 100 {
        Set("brief", IntToString(wordCount));
      }
      r := this;
    }

    /** `_request(suffix)`. */
    method Request(hub: RssHub, suffix: string, fetch: string -> FetchReply, encode: string -> string) returns (r: Result<Json, RssHubError>, fetched: Option<string>)
      modifies hub
      ensures var o := RequestOutcome(hub.baseURL, hub.enableCache, old(hub.cache), path, cacheKey, suffix, Query(params, encode), fetch);
        r == o.result && fetched == o.fetched && hub.cache == o.cache
      ensures hub.Config() == old(hub.Config())
    {
      var fullPath := hub.baseURL + path + suffix;
      var query := Query(params, encode);
      if query != "" {
        fullPath := fullPath + "?" + query;
      }
      var key := cacheKey + suffix + ":" + query;
      assert fullPath == FullPath(hub.baseURL, path, suffix, query);
      assert key == CacheKey(cacheKey, suffix, query);
      if hub.enableCache && key in hub.cache && JsTruthy(hub.cache[key]) {
        return Ok(hub.cache[key]), None;
      }
      fetched := Some(fullPath);
      match fetch(fullPath)
      case FetchOk(data) =>
        if hub.enableCache {
          hub.cache := hub.cache[key := data];
        }
        r := Ok(data);
      case FetchError(message, status) =>
        r := Err(HandleError(message, status, fullPath));
    }

    /** `get()`: "rss" unless a format was chosen, then a request without suffix. */
    method Get(hub: RssHub, fetch: string -> FetchReply, encode: string -> string) returns (r: Result<Json, RssHubError>, fetched: Option<string>)
      requires Valid()
      modifies this, hub
      ensures params == FormatAfterGet(old(params)) && Valid()
      ensures var o := RequestOutcome(hub.baseURL, hub.enableCache, old(hub.cache), path, cacheKey, "", Query(params, encode), fetch);
        r == o.result && fetched == o.fetched && hub.cache == o.cache
      ensures hub.Config() == old(hub.Config())
    {
      if !Has(params, "format") {
        Set("format", "rss");
      }
      r, fetched := Request(hub, "", fetch, encode);
    }

    /** `rss2()`, `atom()`, `json()` and `rss3()`: force the format, then `get()`. */
    method Fetch(f: FeedFormat, hub: RssHub, fetch: string -> FetchReply, encode: string -> string) returns (r: Result<Json, RssHubError>, fetched: Option<string>)
      requires Valid()
      modifies this, hub
      ensures params == SetParam(old(params), "format", FormatName(f)) && Valid()
      ensures var o := RequestOutcome(hub.baseURL, hub.enableCache, old(hub.cache), path, cacheKey, "", Query(params, encode), fetch);
        r == o.result && fetched == o.fetched && hub.cache == o.cache
      ensures hub.Config() == old(hub.Config())
    {
      ghost var before := params;
      Set("format", FormatName(f));
      SetParamLookup(before, "format", FormatName(f), "format");
      r, fetched := Get(hub, fetch, encode);
    }

    /** `clearCache()`: with caching on, delete every key that starts with this builder's key. */
    method ClearCache(hub: RssHub)
      modifies hub
      ensures hub.cache == if old(hub.enableCache) then WithoutPrefix(old(hub.cache), cacheKey) else old(hub.cache)
      ensures hub.Config() == old(hub.Config())
    {
      if hub.enableCache {
        var keys := hub.cache.Keys;
        ghost var visited: set<string> := {};
        while keys != {}
          invariant keys + visited == old(hub.cache).Keys && keys !! visited
          invariant hub.Config() == old(hub.Config())
          invariant forall k :: k in hub.cache <==> k in keys || (k in visited && !StartsWith(k, cacheKey))
          invariant forall k :: k in hub.cache ==> hub.cache[k] == old(hub.cache)[k]
          decreases keys
        {
          var k :| k in keys;
          if StartsWith(k, cacheKey) {
            hub.cache := map j | j in hub.cache && j != k :: hub.cache[j];
          }
          keys := keys - {k};
          visited := visited + {k};
        }
      }
    }
  }
}
