/**
 * What the LLM factory and the embedding factory share: the
 * `"PROVIDER"` / `"PROVIDER:model"` configuration string, the cache key a
 * provider is kept under, and the cache-then-initialise lookup of
 * `getLLMProvider` / `getProvider`, generic in the provider type.
 */
module ProviderConfig {
  import opened Optional
  import opened JsText

  /** `ParsedLLMConfig` / `ParsedEmbeddingConfig`. */
  datatype ParsedConfig = ParsedConfig(providerType: string, model: Option<string>)

  /** The argument of `getLLMProvider` / `getProvider`: a configuration string or an already parsed object. */
  datatype TypeOrConfig = ConfigString(text: string) | ConfigObject(config: ParsedConfig)

  /** The errors the factories throw. */
  datatype FactoryError =
    | Unsupported(providerType: string)              // the `default:` branch of the provider switch
    | InitializeFailed(cacheKey: string, message: string) // `initialize()` threw; re-thrown with the cache key
    | RefreshFailed(message: string)                 // `refresh()` of a cached provider threw; not caught

  predicate NoColon(s: string) {
    forall k :: 0 <= k < |s| ==> s[k] != ':'
  }

  /**
   * `parseLLMConfig` / `parseConfig`: `config.split(":")`, the first piece is
   * the provider type and the second, when there is one, the model; any
   * further pieces are dropped.
   */
  function ParseConfig(config: string): (c: ParsedConfig)
    ensures NoColon(c.providerType)
    ensures c.model.None? <==> NoColon(config)
    ensures c.model.None? ==> c.providerType == config
    ensures c.model.Some? ==>
      NoColon(c.model.value)
      && StartsWith(config, c.providerType + ":" + c.model.value)
      && (|config| == |c.providerType| + 1 + |c.model.value| || config[|c.providerType| + 1 + |c.model.value|] == ':')
  {
    var parts := SplitOn(config, ':');
    ParsedFromParts(config, parts);
    ParsedConfig(parts[0], if |parts| > 1 then Some(parts[1]) else None)
  }

  /** The facts `ParseConfig` states, read off the pieces of a split on ':'. */
  lemma ParsedFromParts(config: string, parts: seq<string>)
    requires |parts| >= 1 && Join(parts, ":") == config
    requires forall i, k :: 0 <= i < |parts| && 0 <= k < |parts[i]| ==> parts[i][k] != ':'
    ensures NoColon(parts[0])
    ensures |parts| == 1 <==> NoColon(config)
    ensures |parts| == 1 ==> parts[0] == config
    ensures |parts| > 1 ==>
      NoColon(parts[1])
      && StartsWith(config, parts[0] + ":" + parts[1])
      && (|config| == |parts[0]| + 1 + |parts[1]| || config[|parts[0]| + 1 + |parts[1]|] == ':')
  {
    assert NoColon(parts[0]) by {
      forall k | 0 <= k < |parts[0]| ensures parts[0][k] != ':' {
        assert parts[0][k] != ':';
      }
    }
    if |parts| > 1 {
      assert NoColon(parts[1]) by {
        forall k | 0 <= k < |parts[1]| ensures parts[1][k] != ':' {
          assert parts[1][k] != ':';
        }
      }
      var tail := Join(parts[1..], ":");
      assert config == parts[0] + ":" + tail;
      assert config[|parts[0]|] == ':';
      var head := parts[0] + ":" + parts[1];
      if |parts| == 2 {
        assert tail == parts[1];
        assert config == head;
      } else {
        assert tail == parts[1..][0] + ":" + Join(parts[2..], ":") by {
          assert parts[1..][1..] == parts[2..];
        }
        assert config == head + ":" + Join(parts[2..], ":");
        assert config[|head|] == ':';
      }
      assert config[..|head|] == head;
    } else {
      assert config == parts[0];
    }
  }

  /** `getProviderCacheKey`: `"type:model"` when the model is truthy, else the type. */
  function CacheKey(c: ParsedConfig): (key: string)
    ensures StartsWith(key, c.providerType)
    ensures |key| == |c.providerType| <==> !Truthy(c.model)
  {
    if Truthy(c.model) then c.providerType + ":" + c.model.value else c.providerType
  }

  /** The `typeof typeOrConfig === "string"` choice. */
  function Resolve(typeOrConfig: TypeOrConfig): ParsedConfig {
    match typeOrConfig
    case ConfigString(s) => ParseConfig(s)
    case ConfigObject(c) => c
  }

  /** `"a:b"` followed by nothing or by a further ':' piece parses into `a` and `b`. */
  lemma ParseHead(a: string, b: string, tail: string)
    requires NoColon(a) && NoColon(b)
    requires tail == "" || tail[0] == ':'
    ensures ParseConfig(a + ":" + b + tail) == ParsedConfig(a, Some(b))
  {
    var s := a + ":" + b + tail;
    var c := ParseConfig(s);
    assert s[|a|] == ':';
    assert s[..|a|] == a;
    assert |c.providerType| == |a|;
    assert c.providerType == s[..|a|];
    var n := |a| + 1;
    assert s[n..n + |b|] == b;
    assert tail != "" ==> s[n + |b|] == ':';
    assert |c.model.value| == |b|;
    assert c.model.value == s[n..n + |b|];
  }

  /** `"a:b"` with neither part holding a ':' parses into exactly those parts. */
  lemma ParseTwo(a: string, b: string)
    requires NoColon(a) && NoColon(b)
    ensures ParseConfig(a + ":" + b) == ParsedConfig(a, Some(b))
  {
    assert a + ":" + b == a + ":" + b + "";
    ParseHead(a, b, "");
  }

  /** A string with at most one ':' whose model part, if any, is non-empty is its own cache key. */
  lemma CacheKeyOfParsed(s: string, a: string, b: string)
    requires NoColon(a) && NoColon(b) && b != ""
    requires s == a || s == a + ":" + b
    ensures CacheKey(ParseConfig(s)) == s
  {
    if s != a {
      ParseTwo(a, b);
    }
  }

  /** A config with a type free of ':' and a non-empty model free of ':' survives the key and a re-parse. */
  lemma ParseOfCacheKey(c: ParsedConfig)
    requires NoColon(c.providerType)
    requires c.model.None? || (c.model.value != "" && NoColon(c.model.value))
    ensures ParseConfig(CacheKey(c)) == c
  {
    if c.model.Some? {
      ParseTwo(c.providerType, c.model.value);
    }
  }

  /** `"TYPE:"` names the same provider as `"TYPE"`: an empty model drops out of the key. */
  lemma EmptyModelKeysByType(a: string)
    requires NoColon(a)
    ensures ParseConfig(a + ":").model == Some("")
    ensures CacheKey(ParseConfig(a + ":")) == a
  {
    assert a + ":" == a + ":" + "";
    ParseTwo(a, "");
  }

  // ---------------------------------------------------------------------
  // Model lists
  // ---------------------------------------------------------------------

  /** `modelConfig.split("|").map(model => model.trim())`, as both OpenAI-compatible providers read it. */
  function ModelList(modelConfig: string): (models: seq<string>)
    ensures |models| == |SplitOn(modelConfig, '|')| >= 1
    ensures forall i :: 0 <= i < |models| ==> IsTrimmed(models[i])
  {
    var pieces := SplitOn(modelConfig, '|');
    seq(|pieces|, i requires 0 <= i < |pieces| => Trim(pieces[i]))
  }

  /** Trimmed names free of '|' joined by '|' are read back as the same list. */
  lemma ModelListOfJoin(names: seq<string>)
    requires |names| >= 1
    requires forall i :: 0 <= i < |names| ==> IsTrimmed(names[i])
    requires forall i, k :: 0 <= i < |names| && 0 <= k < |names[i]| ==> names[i][k] != '|'
    ensures ModelList(Join(names, "|")) == names
  {
    SplitOnJoin(names, '|');
  }

  /** A single trimmed name free of '|' is a list of one model. */
  lemma ModelListSingle(name: string)
    requires IsTrimmed(name)
    requires forall k :: 0 <= k < |name| ==> name[k] != '|'
    ensures ModelList(name) == [name]
  {
    ModelListOfJoin([name]);
    assert Join([name], "|") == name;
  }

  // ---------------------------------------------------------------------
  // The cache-then-initialise lookup
  // ---------------------------------------------------------------------

  /**
   * What one `getLLMProvider` / `getProvider` call returns and the provider
   * map afterwards:
   * - a cached provider without `needRefresh` is returned as it is;
   * - a cached provider with `needRefresh` is refreshed first, and a refresh
   *   error escapes unwrapped;
   * - otherwise the provider is constructed (`created`, which is an error for
   *   an unknown type, thrown before the `try`), initialised, and stored under
   *   its key only when `initialize` succeeds.
   * `initialize(p)` / `refresh(key)` give the message they throw, if any.
   */
  function Lookup<P>(providers: map<string, P>, key: string, needRefresh: bool, created: Result<P, FactoryError>,
                     initialize: P -> Option<string>, refresh: string -> Option<string>): (Result<P, FactoryError>, map<string, P>)
  {
    if key in providers && !needRefresh then (Ok(providers[key]), providers)
    else if key in providers then
      (if refresh(key).Some? then Err(RefreshFailed(refresh(key).value)) else Ok(providers[key]), providers)
    else match created
      case Err(e) => (Err(e), providers)
      case Ok(p) =>
        if initialize(p).Some? then (Err(InitializeFailed(key, initialize(p).value)), providers)
        else (Ok(p), providers[key := p])
  }

  /** A cached provider is never replaced: it is what the lookup returns, unless its refresh throws. */
  lemma CachedIsReused<P>(providers: map<string, P>, key: string, needRefresh: bool, created: Result<P, FactoryError>,
                          initialize: P -> Option<string>, refresh: string -> Option<string>)
    requires key in providers
    ensures var (r, after) := Lookup(providers, key, needRefresh, created, initialize, refresh);
      after == providers
      && (r.Ok? <==> !needRefresh || refresh(key).None?)
      && (r.Ok? ==> r.value == providers[key])
  {
  }

  /**
   * The map changes only by storing a newly created provider under its key,
   * and only after its `initialize` succeeded; every error leaves the map as
   * it was.
   */
  lemma StoredOnlyAfterInitialize<P>(providers: map<string, P>, key: string, needRefresh: bool, created: Result<P, FactoryError>,
                                     initialize: P -> Option<string>, refresh: string -> Option<string>)
    ensures var (r, after) := Lookup(providers, key, needRefresh, created, initialize, refresh);
      (r.Err? ==> after == providers)
      && (after != providers ==>
            key !in providers && created.Ok? && initialize(created.value).None?
            && r == Ok(created.value) && after == providers[key := created.value])
  {
  }

  /** A construction error (an unknown provider type) is thrown as it is and stores nothing. */
  lemma UnsupportedStoresNothing<P>(providers: map<string, P>, key: string, needRefresh: bool, providerType: string,
                                    initialize: P -> Option<string>, refresh: string -> Option<string>)
    requires key !in providers
    ensures Lookup(providers, key, needRefresh, Err(Unsupported(providerType)), initialize, refresh)
      == (Err(Unsupported(providerType)), providers)
  {
  }

  /** After a successful lookup the key is cached, so the next lookup without refresh returns the same provider. */
  lemma LookupThenCached<P>(providers: map<string, P>, key: string, needRefresh: bool, created: Result<P, FactoryError>,
                            initialize: P -> Option<string>, refresh: string -> Option<string>,
                            created2: Result<P, FactoryError>)
    ensures var (r, after) := Lookup(providers, key, needRefresh, created, initialize, refresh);
      r.Ok? ==>
        key in after
        && Lookup(after, key, false, created2, initialize, refresh) == (r, after)
  {
  }
}
