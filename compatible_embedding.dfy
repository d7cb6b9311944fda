/**
 * `OpenAICompatibleEmbedding`: settings read by `refresh` from
 * `<prefix>EMBEDDING_BASE_URL`, `<prefix>EMBEDDING_API_KEY` and
 * `<prefix>EMBEDDING_MODEL`, `setBaseURL`, a guarded `setModel`, and the
 * defaults and result of `createEmbedding`. The configuration lookup and the
 * embeddings API are parameters.
 */
module CompatibleEmbedding {
  import opened Optional
  import opened JsText
  import opened ProviderConfig

  const DefaultDimensions := 1024
  const DefaultEncoding := "float"
  const ErrorPrefix := "Failed to create embedding: "
  const InvalidResponse := "Invalid response from API"

  /** The fields `refresh` assigns; `None` is a field that was never assigned. */
  datatype Settings = Settings(baseURL: Option<string>, apiKey: Option<string>, defaultModel: Option<string>, availableModels: seq<string>)

  /**
   * The settings after `refresh` and what it throws, given what the three
   * lookups of `<prefix>EMBEDDING_BASE_URL`, `<prefix>EMBEDDING_API_KEY` and
   * `<prefix>EMBEDDING_MODEL` give: each lookup that throws stops `refresh`
   * with the fields already assigned. There is no fallback model list and no
   * check for empty settings.
   */
  function Refreshed(specifiedModel: Option<string>, url: Result<string, string>, key: Result<string, string>,
                     model: Result<string, string>, before: Settings): (Settings, Option<string>)
  {
    if url.Err? then (before, Some(url.error))
    else if key.Err? then (before.(baseURL := Some(url.value)), Some(key.error))
    else if model.Err? then (before.(baseURL := Some(url.value), apiKey := Some(key.value)), Some(model.error))
    else
      var models := ModelList(model.value);
      var chosen := if Truthy(specifiedModel) then specifiedModel.value else models[0];
      (Settings(Some(url.value), Some(key.value), Some(chosen), models), None)
  }

  /** `EmbeddingOptions`; `options` itself being absent is every field absent. */
  datatype EmbeddingOptions = EmbeddingOptions(model: Option<string>, dimensions: Option<int>, encodingFormat: Option<string>)

  /** The arguments of `client.embeddings.create`. */
  datatype EmbeddingRequest = EmbeddingRequest(model: Option<string>, input: string, dimensions: int, encodingFormat: string)

  /**
   * What the API call gives: a response whose `data` may be missing and
   * whose entries may lack an `embedding`, or a thrown message.
   */
  datatype ApiReply = Response(data: Option<seq<Option<seq<real>>>>, model: string) | ApiThrew(message: string)

  /** `EmbeddingResult`. */
  datatype EmbeddingResult = EmbeddingResult(embedding: seq<real>, model: string, dimensions: int)

  /** The request: `||` defaults, so a zero dimension count or an empty model or format also takes the default. */
  function RequestFor(defaultModel: Option<string>, text: string, options: EmbeddingOptions): (req: EmbeddingRequest)
    ensures req.input == text
    ensures req.model == (if Truthy(options.model) then options.model else defaultModel)
    ensures options.dimensions.Some? && options.dimensions.value != 0 ==> req.dimensions == options.dimensions.value
    ensures options.dimensions.None? || options.dimensions.value == 0 ==> req.dimensions == DefaultDimensions
    ensures req.encodingFormat == (if Truthy(options.encodingFormat) then options.encodingFormat.value else DefaultEncoding)
  {
    EmbeddingRequest(
      OrElse(options.model, defaultModel), text,
      if options.dimensions.Some? && options.dimensions.value != 0 then options.dimensions.value else DefaultDimensions,
      if Truthy(options.encodingFormat) then options.encodingFormat.value else DefaultEncoding)
  }

  /** The first embedding of a response, when `response.data?.[0]?.embedding` is present. */
  function FirstEmbedding(data: Option<seq<Option<seq<real>>>>): Option<seq<real>> {
    if data.Some? && |data.value| > 0 then data.value[0] else None
  }

  /** What `createEmbedding` resolves to or throws, given the request it sent and the reply. */
  function EmbeddingOutcome(req: EmbeddingRequest, reply: ApiReply): (r: Result<EmbeddingResult, string>)
    ensures r.Ok? <==> reply.Response? && FirstEmbedding(reply.data).Some?
    ensures r.Ok? ==>
      r.value.embedding == FirstEmbedding(reply.data).value
      && r.value.model == reply.model
      && r.value.dimensions == req.dimensions
    ensures r.Err? ==> StartsWith(r.error, ErrorPrefix)
    ensures reply.ApiThrew? ==> r == Err(ErrorPrefix + reply.message)
  {
    match reply
    case ApiThrew(m) => Err(ErrorPrefix + m)
    case Response(data, model) =>
      match FirstEmbedding(data)
      case None => Err(ErrorPrefix + InvalidResponse)
      case Some(e) => Ok(EmbeddingResult(e, model, req.dimensions))
  }

  class Provider {
    const configKeyPrefix: string
    const specifiedModel: Option<string>
    var baseURL: Option<string>
    var apiKey: Option<string>
    var defaultModel: Option<string>
    var availableModels: seq<string>

    function Current(): Settings
      reads this
    {
      Settings(baseURL, apiKey, defaultModel, availableModels)
    }

    constructor (configKeyPrefix: string, specifiedModel: Option<string>)
      ensures this.configKeyPrefix == configKeyPrefix && this.specifiedModel == specifiedModel
      ensures Current() == Settings(None, None, None, [])
    {
      this.configKeyPrefix := configKeyPrefix;
      this.specifiedModel := specifiedModel;
      baseURL, apiKey, defaultModel, availableModels := None, None, None, [];
    }

    /** `refresh` (and `initialize`); the OpenAI client it constructs is left out. */
    method Refresh(lookup: string -> Result<string, string>) returns (thrown: Option<string>)
      modifies this
      ensures (Current(), thrown) == Refreshed(specifiedModel, lookup(configKeyPrefix + "EMBEDDING_BASE_URL"),
        lookup(configKeyPrefix + "EMBEDDING_API_KEY"), lookup(configKeyPrefix + "EMBEDDING_MODEL"), old(Current()))
    {
      var url := lookup(configKeyPrefix + "EMBEDDING_BASE_URL");
      if url.Err? {
        return Some(url.error);
      }
      baseURL := Some(url.value);
      var key := lookup(configKeyPrefix + "EMBEDDING_API_KEY");
      if key.Err? {
        return Some(key.error);
      }
      apiKey := Some(key.value);
      var model := lookup(configKeyPrefix + "EMBEDDING_MODEL");
      if model.Err? {
        return Some(model.error);
      }
      availableModels := ModelList(model.value);
      defaultModel := Some(if Truthy(specifiedModel) then specifiedModel.value else availableModels[0]);
      thrown := None;
    }

    method SetBaseURL(url: string)
      modifies this
      ensures Current() == old(Current()).(baseURL := Some(url))
    {
      baseURL := Some(url);
    }

    /** `setModel`: only a listed model becomes the default. */
    method SetModel(model: string)
      modifies this
      ensures Current() == if model in old(availableModels) then old(Current()).(defaultModel := Some(model)) else old(Current())
    {
      if model in availableModels {
        defaultModel := Some(model);
      }
    }

    method GetModel() returns (model: Option<string>)
      ensures model == defaultModel
    {
      model := defaultModel;
    }

    /** `getAvailableModels`: a copy; a sequence value cannot be changed through it. */
    method GetAvailableModels() returns (models: seq<string>)
      ensures models == availableModels
    {
      models := availableModels;
    }

    /** `createEmbedding`: the request it sends and what it returns or throws. */
    method CreateEmbedding(text: string, options: EmbeddingOptions, api: EmbeddingRequest -> ApiReply)
      returns (sent: EmbeddingRequest, r: Result<EmbeddingResult, string>)
      ensures sent == RequestFor(defaultModel, text, options)
      ensures r == EmbeddingOutcome(sent, api(sent))
    {
      var model := if options.model.Some? && options.model.value != "" then options.model else defaultModel;
      var dimensions := if options.dimensions.Some? && options.dimensions.value != 0 then options.dimensions.value else DefaultDimensions;
      var encoding := if options.encodingFormat.Some? && options.encodingFormat.value != "" then options.encodingFormat.value else DefaultEncoding;
      sent := EmbeddingRequest(model, text, dimensions, encoding);
      var reply := api(sent);
      if reply.ApiThrew? {
        return sent, Err(ErrorPrefix + reply.message);
      }
      if reply.data.None? || |reply.data.value| == 0 || reply.data.value[0].None? {
        return sent, Err(ErrorPrefix + InvalidResponse);
      }
      r := Ok(EmbeddingResult(reply.data.value[0].value, reply.model, dimensions));
    }
  }

  /** Once the model setting is read, the list is that setting split on '|' and the default is the specified model or the first listed one. */
  lemma DefaultIsSpecifiedOrListed(specifiedModel: Option<string>, url: Result<string, string>, key: Result<string, string>,
                                   model: Result<string, string>, before: Settings)
    requires url.Ok? && key.Ok? && model.Ok?
    ensures var after := Refreshed(specifiedModel, url, key, model, before).0;
      after.availableModels == ModelList(model.value)
      && after.defaultModel.Some?
      && (Truthy(specifiedModel) ==> after.defaultModel == specifiedModel)
      && (!Truthy(specifiedModel) ==> after.defaultModel.value == after.availableModels[0])
      && after.baseURL == Some(url.value) && after.apiKey == Some(key.value)
  {
  }

  /** `refresh` throws exactly when one of the three lookups throws, with the first such message, keeping the fields not yet reached. */
  lemma RefreshThrowsIff(specifiedModel: Option<string>, url: Result<string, string>, key: Result<string, string>,
                         model: Result<string, string>, before: Settings)
    ensures var (after, thrown) := Refreshed(specifiedModel, url, key, model, before);
      (thrown.None? <==> url.Ok? && key.Ok? && model.Ok?)
      && (url.Err? ==> thrown == Some(url.error) && after == before)
      && (url.Ok? && key.Err? ==> thrown == Some(key.error) && after == before.(baseURL := Some(url.value)))
      && (url.Ok? && key.Ok? && model.Err? ==>
            thrown == Some(model.error) && after.availableModels == before.availableModels && after.defaultModel == before.defaultModel)
  {
  }

  /**
   * The result's `dimensions` is the requested count, not the length of the
   * returned vector: a 3-element vector for a default request reports 1024.
   */
  lemma DimensionsAreRequested(defaultModel: Option<string>, text: string, v: seq<real>, model: string)
    requires |v| == 3
    ensures var req := RequestFor(defaultModel, text, EmbeddingOptions(None, None, None));
      var r := EmbeddingOutcome(req, Response(Some([Some(v)]), model));
      r.Ok? && r.value.dimensions == DefaultDimensions && r.value.dimensions != |r.value.embedding|
  {
  }

  /** A response without data, with empty data, or whose first entry has no embedding is an invalid response. */
  lemma MissingEmbeddingRejected(req: EmbeddingRequest, data: Option<seq<Option<seq<real>>>>, model: string)
    requires data.None? || |data.value| == 0 || data.value[0].None?
    ensures EmbeddingOutcome(req, Response(data, model)) == Err(ErrorPrefix + InvalidResponse)
  {
  }
}
