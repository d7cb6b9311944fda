/**
 * `EmbeddingFactory`: embedding providers created from a
 * `"PROVIDER[:model]"` string by `createProvider`, initialised, and cached by
 * their cache key in the `providers` map. A provider is represented by how it
 * was constructed; its own state is modelled in `CompatibleEmbedding`.
 */
module EmbeddingFactory {
  import opened Optional
  import opened JsText
  import opened ProviderConfig

  /** The values of `EmbeddingProviderType`. */
  const EmbeddingProviderTypes: set<string> := {"OPENAI", "DASHSCOPE", "CUSTOM"}

  /** An `OpenAICompatibleEmbedding` with its key prefix and model. */
  datatype EmbeddingProvider = OpenAiCompatibleEmbedding(configKeyPrefix: string, specifiedModel: Option<string>)

  /** `createProvider`: the provider for one of the three types; any other type throws. */
  function CreateProvider(c: ParsedConfig): (r: Result<EmbeddingProvider, FactoryError>)
    ensures r.Err? <==> c.providerType !in EmbeddingProviderTypes
    ensures r.Err? ==> r.error == Unsupported(c.providerType)
    ensures r.Ok? ==> r.value == OpenAiCompatibleEmbedding(c.providerType + "_", c.model)
  {
    match c.providerType
    case "OPENAI" => Ok(OpenAiCompatibleEmbedding("OPENAI_", c.model))
    case "DASHSCOPE" => Ok(OpenAiCompatibleEmbedding("DASHSCOPE_", c.model))
    case "CUSTOM" => Ok(OpenAiCompatibleEmbedding("CUSTOM_", c.model))
    case _ => Err(Unsupported(c.providerType))
  }

  /** The outcome of `getProvider(typeOrConfig, needRefresh)` on the map `providers`. */
  function GetOutcome(providers: map<string, EmbeddingProvider>, typeOrConfig: TypeOrConfig, needRefresh: bool,
                      initialize: EmbeddingProvider -> Option<string>, refresh: string -> Option<string>)
    : (Result<EmbeddingProvider, FactoryError>, map<string, EmbeddingProvider>)
  {
    var config := Resolve(typeOrConfig);
    Lookup(providers, CacheKey(config), needRefresh, CreateProvider(config), initialize, refresh)
  }

  class Factory {
    var providers: map<string, EmbeddingProvider>

    constructor ()
      ensures providers == map[]
    {
      providers := map[];
    }

    /** `getProvider`. */
    method GetProvider(typeOrConfig: TypeOrConfig, needRefresh: bool,
                       initialize: EmbeddingProvider -> Option<string>, refresh: string -> Option<string>)
      returns (r: Result<EmbeddingProvider, FactoryError>)
      modifies this
      ensures (r, providers) == GetOutcome(old(providers), typeOrConfig, needRefresh, initialize, refresh)
    {
      var config := Resolve(typeOrConfig);
      var cacheKey := CacheKey(config);
      if cacheKey in providers && !needRefresh {
        return Ok(providers[cacheKey]);
      }
      if needRefresh && cacheKey in providers {
        var thrown := refresh(cacheKey);
        if thrown.Some? {
          return Err(RefreshFailed(thrown.value));
        }
        return Ok(providers[cacheKey]);
      }
      var created := CreateProvider(config);
      if created.Err? {
        return Err(created.error);
      }
      var provider := created.value;
      var failed := initialize(provider);
      if failed.Some? {
        return Err(InitializeFailed(cacheKey, failed.value));
      }
      providers := providers[cacheKey := provider];
      r := Ok(provider);
    }
  }

  /**
   * Two strings that differ only in pieces after the second ':' name the same
   * cached provider: `"DASHSCOPE:m:x"` after `"DASHSCOPE:m"` reuses it.
   */
  lemma ExtraSegmentsShareProvider(providers: map<string, EmbeddingProvider>, t: string, model: string, extra: string,
                                   initialize: EmbeddingProvider -> Option<string>, refresh: string -> Option<string>)
    requires NoColon(t) && NoColon(model) && model != ""
    requires t + ":" + model in providers
    ensures GetOutcome(providers, ConfigString(t + ":" + model + ":" + extra), false, initialize, refresh)
      == (Ok(providers[t + ":" + model]), providers)
  {
    ParseHead(t, model, ":" + extra);
    assert t + ":" + model + ":" + extra == t + ":" + model + (":" + extra);
  }

  /** An unknown provider type is thrown by `createProvider` and never enters the map. */
  lemma UnknownTypeNeverCached(providers: map<string, EmbeddingProvider>, s: string, needRefresh: bool,
                               initialize: EmbeddingProvider -> Option<string>, refresh: string -> Option<string>)
    requires ParseConfig(s).providerType !in EmbeddingProviderTypes
    requires CacheKey(ParseConfig(s)) !in providers
    ensures GetOutcome(providers, ConfigString(s), needRefresh, initialize, refresh)
      == (Err(Unsupported(ParseConfig(s).providerType)), providers)
  {
  }
}
