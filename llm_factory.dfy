/**
 * `LLMFactory`: providers are created from a `"PROVIDER[:model]"` string,
 * initialised, and cached by their cache key in the `providers` map.
 * A provider is represented by how it was constructed; its own state is
 * modelled in `CompatibleLlm`. What `initialize()` and `refresh()`
 * throw is given as a parameter.
 */
module LlmFactory {
  import opened Optional
  import opened JsText
  import opened ProviderConfig

  /** The values of `LLMProviderType`. */
  const LlmProviderTypes: set<string> := {"OPENAI", "DEEPSEEK", "XUNFEI", "CUSTOM", "QWEN"}

  /** A provider instance: an `OpenAICompatibleLLM` with its key prefix and model, or a `XunfeiLLM`. */
  datatype LlmProvider = OpenAiCompatibleLlm(configKeyPrefix: string, specifiedModel: Option<string>) | XunfeiLlm

  /** The key prefix each OpenAI-compatible provider type reads its settings under. */
  function PrefixOf(providerType: string): string {
    if providerType == "OPENAI" then "OPENAI_"
    else if providerType == "DEEPSEEK" then "DEEPSEEK_"
    else if providerType == "QWEN" then "QWEN_"
    else "CUSTOM_LLM_"
  }

  /** The `switch (config.providerType)` of `getLLMProvider`; Xunfei ignores the model. */
  function CreateLlmProvider(c: ParsedConfig): (r: Result<LlmProvider, FactoryError>)
    ensures r.Err? <==> c.providerType !in LlmProviderTypes
    ensures r.Err? ==> r.error == Unsupported(c.providerType)
    ensures r == Ok(XunfeiLlm) <==> c.providerType == "XUNFEI"
    ensures r.Ok? && c.providerType != "XUNFEI" ==>
      r.value == OpenAiCompatibleLlm(PrefixOf(c.providerType), c.model)
      && EndsWithUnderscore(r.value.configKeyPrefix)
  {
    match c.providerType
    case "OPENAI" => Ok(OpenAiCompatibleLlm("OPENAI_", c.model))
    case "DEEPSEEK" => Ok(OpenAiCompatibleLlm("DEEPSEEK_", c.model))
    case "XUNFEI" => Ok(XunfeiLlm)
    case "QWEN" => Ok(OpenAiCompatibleLlm("QWEN_", c.model))
    case "CUSTOM" => Ok(OpenAiCompatibleLlm("CUSTOM_LLM_", c.model))
    case _ => Err(Unsupported(c.providerType))
  }

  predicate EndsWithUnderscore(s: string) {
    |s| > 0 && s[|s| - 1] == '_'
  }

  /** The configuration `getDefaultProvider` asks for: `DEFAULT_LLM_PROVIDER || "OPENAI"`, and `"OPENAI"` when the lookup throws. */
  function DefaultConfig(setting: Result<string, string>): (config: string)
    ensures config == "OPENAI" <==> setting.Err? || setting.value == "" || setting.value == "OPENAI"
    ensures config != "OPENAI" ==> setting == Ok(config)
  {
    match setting
    case Ok(v) => if v != "" then v else "OPENAI"
    case Err(_) => "OPENAI"
  }

  /** The outcome of `getLLMProvider(typeOrConfig, needRefresh)` on the map `providers`. */
  function GetOutcome(providers: map<string, LlmProvider>, typeOrConfig: TypeOrConfig, needRefresh: bool,
                      initialize: LlmProvider -> Option<string>, refresh: string -> Option<string>)
    : (Result<LlmProvider, FactoryError>, map<string, LlmProvider>)
  {
    var config := Resolve(typeOrConfig);
    Lookup(providers, CacheKey(config), needRefresh, CreateLlmProvider(config), initialize, refresh)
  }

  class Factory {
    var providers: map<string, LlmProvider>

    constructor ()
      ensures providers == map[]
    {
      providers := map[];
    }

    /** `getLLMProvider`. */
    method GetLlmProvider(typeOrConfig: TypeOrConfig, needRefresh: bool,
                          initialize: LlmProvider -> Option<string>, refresh: string -> Option<string>)
      returns (r: Result<LlmProvider, FactoryError>)
      modifies this
      ensures (r, providers) == GetOutcome(old(providers), typeOrConfig, needRefresh, initialize, refresh)
    {
      var config := Resolve(typeOrConfig);
      var cacheKey := CacheKey(config);
      if cacheKey in providers && !needRefresh {
        return Ok(providers[cacheKey]);
      }
      if needRefresh && cacheKey in providers {
        var thrown := refresh(cacheKey);
        if thrown.Some? {
          return Err(RefreshFailed(thrown.value));
        }
        return Ok(providers[cacheKey]);
      }
      var created := CreateLlmProvider(config);
      if created.Err? {
        return Err(created.error);
      }
      var provider := created.value;
      var failed := initialize(provider);
      if failed.Some? {
        return Err(InitializeFailed(cacheKey, failed.value));
      }
      providers := providers[cacheKey := provider];
      r := Ok(provider);
    }

    /**
     * `getDefaultProvider`: the configured provider, refreshed if cached.
     * Only a failing configuration lookup falls back to `"OPENAI"`; an error of
     * the provider lookup itself escapes, since its promise is returned
     * without being awaited inside the `try`.
     */
    method GetDefaultProvider(setting: Result<string, string>,
                              initialize: LlmProvider -> Option<string>, refresh: string -> Option<string>)
      returns (r: Result<LlmProvider, FactoryError>)
      modifies this
      ensures (r, providers) == GetOutcome(old(providers), ConfigString(DefaultConfig(setting)), true, initialize, refresh)
    {
      var config := if setting.Ok? && setting.value != "" then setting.value else "OPENAI";
      r := GetLlmProvider(ConfigString(config), true, initialize, refresh);
    }
  }

  /** Asking for `"TYPE:model"` with a known type creates a provider for that model, keyed `"TYPE:model"`. */
  lemma ModelSelectsProvider(providers: map<string, LlmProvider>, t: string, model: string,
                             initialize: LlmProvider -> Option<string>, refresh: string -> Option<string>)
    requires t in LlmProviderTypes && t != "XUNFEI" && model != "" && NoColon(model)
    requires t + ":" + model !in providers
    requires initialize(OpenAiCompatibleLlm(PrefixOf(t), Some(model))).None?
    ensures GetOutcome(providers, ConfigString(t + ":" + model), true, initialize, refresh)
      == (Ok(OpenAiCompatibleLlm(PrefixOf(t), Some(model))), providers[t + ":" + model := OpenAiCompatibleLlm(PrefixOf(t), Some(model))])
  {
    assert NoColon(t);
    ParseTwo(t, model);
  }

  /** An unknown provider type never enters the map, whatever the rest of the string. */
  lemma UnknownTypeNeverCached(providers: map<string, LlmProvider>, s: string, needRefresh: bool,
                               initialize: LlmProvider -> Option<string>, refresh: string -> Option<string>)
    requires ParseConfig(s).providerType !in LlmProviderTypes
    requires CacheKey(ParseConfig(s)) !in providers
    ensures GetOutcome(providers, ConfigString(s), needRefresh, initialize, refresh)
      == (Err(Unsupported(ParseConfig(s).providerType)), providers)
  {
  }
}
