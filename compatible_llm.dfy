/**
 * `OpenAICompatibleLLM`: settings read by `refresh` from the configuration
 * (`<prefix>BASE_URL`, `<prefix>API_KEY`, `<prefix>MODEL`), a guarded
 * `setModel`, and the request `createChatCompletion` sends. The configuration
 * lookup is a parameter (`Err` is the message `configManager.get` throws);
 * the HTTP client is a parameter too.
 */
module CompatibleLlm {
  import opened Optional
  import opened JsText
  import opened ProviderConfig
  import opened JsonValue

  /** The model list used when `<prefix>MODEL` is configured as an empty string. */
  const FallbackModel := "gpt-3.5-turbo"
  const DefaultTemperature: real := 0.7
  const DefaultTopP: real := 1.0
  const DefaultMaxTokens := 2000
  const RequestTimeoutMs := 60000
  const RequestRetries := 3
  const RequestRetryDelayMs := 1000

  /** The fields `refresh` assigns; `None` is a field that was never assigned. */
  datatype Settings = Settings(baseURL: Option<string>, token: Option<string>, defaultModel: Option<string>, availableModels: seq<string>)

  const Unset := Settings(None, None, None, [])

  /** `specifiedModel || models[0]`. */
  function ChooseDefault(specifiedModel: Option<string>, models: seq<string>): (m: string)
    requires |models| >= 1
    ensures Truthy(specifiedModel) ==> m == specifiedModel.value
    ensures !Truthy(specifiedModel) ==> m == models[0]
  {
    if Truthy(specifiedModel) then specifiedModel.value else models[0]
  }

  /**
   * The settings after `refresh` and what it throws, given what the lookups
   * of `<prefix>BASE_URL`, `<prefix>API_KEY` and `<prefix>MODEL` give. Each
   * lookup that throws stops `refresh` with the fields it has already
   * assigned; the "is not set" checks come after the model list is assigned.
   */
  function Refreshed(prefix: string, specifiedModel: Option<string>, url: Result<string, string>, key: Result<string, string>,
                     model: Result<string, string>, before: Settings): (Settings, Option<string>)
  {
    if url.Err? then (before, Some(url.error))
    else if key.Err? then (before.(baseURL := Some(url.value)), Some(key.error))
    else if model.Err? then (before.(baseURL := Some(url.value), token := Some(key.value)), Some(model.error))
    else
      var models := ModelList(if model.value != "" then model.value else FallbackModel);
      var after := Settings(Some(url.value), Some(key.value), Some(ChooseDefault(specifiedModel, models)), models);
      if url.value == "" then (after, Some(prefix + "BASE_URL is not set"))
      else if key.value == "" then (after, Some(prefix + "API_KEY is not set"))
      else (after, None)
  }

  /** A chat message as the API takes it. */
  datatype ChatMessage = ChatMessage(role: string, content: string)

  /** `ChatCompletionOptions`; an absent field is `None`. */
  datatype ChatOptions = ChatOptions(model: Option<string>, temperature: Option<real>, topP: Option<real>,
                                     maxTokens: Option<int>, stream: Option<bool>, responseFormat: Option<Json>)

  /** The JSON body of a chat completion request; `None` is a field `JSON.stringify` leaves out. */
  datatype ChatBody = ChatBody(model: Option<string>, messages: seq<ChatMessage>, temperature: real, topP: real, maxTokens: int, stream: bool,
                               responseFormat: Option<Json>)

  /** The HTTP request: POST to `url` with `Bearer <token>`, a 60 s timeout and up to three retries one second apart. */
  datatype ChatRequest = ChatRequest(url: string, authorization: string, body: ChatBody, timeoutMs: int, retries: int, retryDelayMs: int)

  /** `createChatCompletion`'s request: `model ||` the default, the other options `??` their defaults. */
  function ChatRequestFor(s: Settings, messages: seq<ChatMessage>, options: ChatOptions): (req: ChatRequest)
    requires s.baseURL.Some? && s.token.Some?
    ensures req.url == s.baseURL.value + "/chat/completions"
    ensures req.authorization == "Bearer " + s.token.value
    ensures req.body.messages == messages
    ensures req.body.model == (if Truthy(options.model) then options.model else s.defaultModel)
    ensures options.temperature.Some? ==> req.body.temperature == options.temperature.value
    ensures options.temperature.None? ==> req.body.temperature == DefaultTemperature
    ensures req.body.topP == options.topP.GetOr(DefaultTopP)
    ensures req.body.maxTokens == options.maxTokens.GetOr(DefaultMaxTokens)
    ensures req.body.stream == options.stream.GetOr(false)
    ensures req.body.responseFormat == options.responseFormat
    ensures req.timeoutMs == RequestTimeoutMs && req.retries == RequestRetries && req.retryDelayMs == RequestRetryDelayMs
  {
    var body := ChatBody(
      OrElse(options.model, s.defaultModel), messages,
      options.temperature.GetOr(DefaultTemperature), options.topP.GetOr(DefaultTopP),
      options.maxTokens.GetOr(DefaultMaxTokens), options.stream.GetOr(false), options.responseFormat);
    ChatRequest(s.baseURL.value + "/chat/completions", "Bearer " + s.token.value, body,
                RequestTimeoutMs, RequestRetries, RequestRetryDelayMs)
  }

  /** The error `createChatCompletion` rethrows, holding the client's message. */
  datatype ChatError = ChatFailed(message: string)

  class Provider {
    const configKeyPrefix: string
    const specifiedModel: Option<string>
    var baseURL: Option<string>
    var token: Option<string>
    var defaultModel: Option<string>
    var availableModels: seq<string>

    function Current(): Settings
      reads this
    {
      Settings(baseURL, token, defaultModel, availableModels)
    }

    constructor (configKeyPrefix: string, specifiedModel: Option<string>)
      ensures this.configKeyPrefix == configKeyPrefix && this.specifiedModel == specifiedModel
      ensures Current() == Unset
    {
      this.configKeyPrefix := configKeyPrefix;
      this.specifiedModel := specifiedModel;
      baseURL, token, defaultModel, availableModels := None, None, None, [];
    }

    /** `refresh` (and `initialize`, which only calls it); the health check only warns and is left out. */
    method Refresh(lookup: string -> Result<string, string>) returns (thrown: Option<string>)
      modifies this
      ensures (Current(), thrown) == Refreshed(configKeyPrefix, specifiedModel, lookup(configKeyPrefix + "BASE_URL"),
        lookup(configKeyPrefix + "API_KEY"), lookup(configKeyPrefix + "MODEL"), old(Current()))
    {
      var url := lookup(configKeyPrefix + "BASE_URL");
      if url.Err? {
        return Some(url.error);
      }
      baseURL := Some(url.value);
      var key := lookup(configKeyPrefix + "API_KEY");
      if key.Err? {
        return Some(key.error);
      }
      token := Some(key.value);
      var model := lookup(configKeyPrefix + "MODEL");
      if model.Err? {
        return Some(model.error);
      }
      var modelConfig := if model.value != "" then model.value else FallbackModel;
      availableModels := ModelList(modelConfig);
      defaultModel := Some(ChooseDefault(specifiedModel, availableModels));
      if baseURL.value == "" {
        return Some(configKeyPrefix + "BASE_URL is not set");
      }
      if token.value == "" {
        return Some(configKeyPrefix + "API_KEY is not set");
      }
      thrown := None;
    }

    /** `setModel`: only a listed model becomes the default; otherwise a warning and no change. */
    method SetModel(model: string)
      modifies this
      ensures model in old(availableModels) ==> defaultModel == Some(model)
      ensures model !in old(availableModels) ==> defaultModel == old(defaultModel)
      ensures baseURL == old(baseURL) && token == old(token) && availableModels == old(availableModels)
    {
      if model in availableModels {
        defaultModel := Some(model);
      }
    }

    method GetModel() returns (model: Option<string>)
      ensures model == defaultModel
    {
      model := defaultModel;
    }

    /** `getAvailableModels`: a copy; a sequence value cannot be changed through it. */
    method GetAvailableModels() returns (models: seq<string>)
      ensures models == availableModels
    {
      models := availableModels;
    }

    /** `createChatCompletion`: send the request, rethrowing any client error wrapped. */
    method CreateChatCompletion<R>(messages: seq<ChatMessage>, options: ChatOptions, send: ChatRequest -> Result<R, string>)
      returns (r: Result<R, ChatError>)
      requires baseURL.Some? && token.Some?
      ensures var sent := send(ChatRequestFor(Current(), messages, options));
        (sent.Ok? ==> r == Ok(sent.value)) && (sent.Err? ==> r == Err(ChatFailed(sent.error)))
    {
      var request := ChatRequestFor(Current(), messages, options);
      var sent := send(request);
      if sent.Err? {
        return Err(ChatFailed(sent.error));
      }
      r := Ok(sent.value);
    }
  }

  /** `refresh` completes exactly when all three settings are found and neither the URL nor the key is empty. */
  lemma RefreshSucceedsIff(prefix: string, specifiedModel: Option<string>, url: Result<string, string>, key: Result<string, string>,
                           model: Result<string, string>, before: Settings)
    ensures Refreshed(prefix, specifiedModel, url, key, model, before).1.None? <==>
      url.Ok? && key.Ok? && model.Ok? && url.value != "" && key.value != ""
    ensures url.Ok? && key.Ok? && model.Ok? && url.value == "" ==>
      Refreshed(prefix, specifiedModel, url, key, model, before).1 == Some(prefix + "BASE_URL is not set")
    ensures url.Ok? && key.Ok? && model.Ok? && url.value != "" && key.value == "" ==>
      Refreshed(prefix, specifiedModel, url, key, model, before).1 == Some(prefix + "API_KEY is not set")
  {
  }

  /**
   * Once the model setting is read, the list is that setting split on '|'
   * (or `"gpt-3.5-turbo"` for an empty setting) and the default is the
   * specified model or the first listed one, even when `refresh` then throws
   * because the URL or the key is empty.
   */
  lemma ModelsOnceRead(prefix: string, specifiedModel: Option<string>, url: Result<string, string>, key: Result<string, string>,
                       model: Result<string, string>, before: Settings)
    requires url.Ok? && key.Ok? && model.Ok?
    ensures var after := Refreshed(prefix, specifiedModel, url, key, model, before).0;
      after.availableModels == ModelList(if model.value == "" then FallbackModel else model.value)
      && after.defaultModel.Some?
      && (Truthy(specifiedModel) ==> after.defaultModel == specifiedModel)
      && (!Truthy(specifiedModel) ==> after.defaultModel.value in after.availableModels)
      && after.baseURL == Some(url.value) && after.token == Some(key.value)
  {
    var models := ModelList(if model.value == "" then FallbackModel else model.value);
    AllFoundAssigns(prefix, specifiedModel, url, key, model, before);
    var m := ChooseDefault(specifiedModel, models);
    assert !Truthy(specifiedModel) ==> m == models[0] && m in models;
  }

  /** With all three settings found, `refresh` assigns all four fields, whatever it throws afterwards. */
  lemma AllFoundAssigns(prefix: string, specifiedModel: Option<string>, url: Result<string, string>, key: Result<string, string>,
                        model: Result<string, string>, before: Settings)
    requires url.Ok? && key.Ok? && model.Ok?
    ensures var models := ModelList(if model.value == "" then FallbackModel else model.value);
      Refreshed(prefix, specifiedModel, url, key, model, before).0
        == Settings(Some(url.value), Some(key.value), Some(ChooseDefault(specifiedModel, models)), models)
  {
  }

  /** A lookup that throws ends `refresh` with its message and keeps everything not yet assigned. */
  lemma MissingSettingKeepsRest(prefix: string, specifiedModel: Option<string>, url: Result<string, string>, key: Result<string, string>,
                                model: Result<string, string>, before: Settings)
    ensures var (after, thrown) := Refreshed(prefix, specifiedModel, url, key, model, before);
      (url.Err? ==> after == before && thrown == Some(url.error))
      && (url.Ok? && key.Err? ==> after == before.(baseURL := Some(url.value)) && thrown == Some(key.error))
      && (url.Ok? && key.Ok? && model.Err? ==>
            after.availableModels == before.availableModels && after.defaultModel == before.defaultModel && thrown == Some(model.error))
  {
  }

  /** An empty model setting lists only the fallback model, which becomes the default unless one is specified. */
  lemma EmptySettingFallsBack(prefix: string, url: Result<string, string>, key: Result<string, string>, before: Settings)
    requires url.Ok? && key.Ok?
    ensures var after := Refreshed(prefix, None, url, key, Ok(""), before).0;
      after.availableModels == [FallbackModel] && after.defaultModel == Some(FallbackModel)
  {
    assert IsTrimmed(FallbackModel);
    assert forall k :: 0 <= k < |FallbackModel| ==> FallbackModel[k] != '|';
    ModelListSingle(FallbackModel);
  }

  /** `??` keeps explicit zeros and `false`; only an absent option takes its default. */
  lemma ExplicitZerosKept(s: Settings, messages: seq<ChatMessage>, options: ChatOptions)
    requires s.baseURL.Some? && s.token.Some?
    requires options.temperature == Some(0.0) && options.topP == Some(0.0) && options.maxTokens == Some(0)
    ensures var body := ChatRequestFor(s, messages, options).body;
      body.temperature == 0.0 && body.topP == 0.0 && body.maxTokens == 0
  {
  }

  /** An empty `model` option does not override the default: `||` treats "" as absent. */
  lemma EmptyModelOptionUsesDefault(s: Settings, messages: seq<ChatMessage>, options: ChatOptions)
    requires s.baseURL.Some? && s.token.Some? && options.model == Some("")
    ensures ChatRequestFor(s, messages, options).body.model == s.defaultModel
  {
  }
}
