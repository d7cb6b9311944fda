/**
 * `JinaRerankerProvider`: the API-key check and default model of the
 * constructor, the request `rerank` sends, the message of a failed request,
 * the mapping of the reply's results to `RerankedDocument`s, and the prefix
 * every error is rethrown with. The HTTP exchange is a parameter.
 */
module JinaReranker {
  import opened Optional
  import opened JsText
  import opened JsonValue

  const DefaultModel := "jina-reranker-v2-base-multilingual"
  const ApiKeyMissing := "JINA_API_KEY environment variable is not set. Get your Jina AI API key for free: https://jina.ai/?sui=apikey"
  const ErrorPrefix := "Failed to rerank documents using Jina: "
  const UnknownError := "Unknown error"
  const InvalidStructure := "Jina Reranker API returned an invalid response structure. "

  /** The provider after its constructor: the key and the default model. */
  datatype Provider = Provider(apiKey: string, defaultModel: string)

  /** The constructor, given `JINA_API_KEY` and `config?.model`. */
  function Construct(apiKey: Option<string>, configModel: Option<string>): (r: Result<Provider, string>)
    ensures r.Err? <==> !Truthy(apiKey)
    ensures r.Err? ==> r.error == ApiKeyMissing
    ensures r.Ok? ==> r.value.apiKey == apiKey.value
    ensures r.Ok? && Truthy(configModel) ==> r.value.defaultModel == configModel.value
    ensures r.Ok? && !Truthy(configModel) ==> r.value.defaultModel == DefaultModel
  {
    if !Truthy(apiKey) then Err(ApiKeyMissing)
    else Ok(Provider(apiKey.value, if Truthy(configModel) then configModel.value else DefaultModel))
  }

  /** `RerankerOptions`; `options` being absent is every field absent. */
  datatype RerankOptions = RerankOptions(model: Option<string>, topN: Option<int>, returnDocuments: Option<bool>)

  /** The request body. */
  datatype RerankRequest = RerankRequest(model: string, query: string, documents: seq<string>, topN: Option<int>, returnDocuments: bool)

  /** The body `rerank` sends: `options.model || defaultModel`, and `returnDocuments ?? false`. */
  function RequestFor(p: Provider, query: string, documents: seq<string>, options: RerankOptions): (req: RerankRequest)
    ensures req.model == (if Truthy(options.model) then options.model.value else p.defaultModel)
    ensures req.returnDocuments <==> options.returnDocuments == Some(true)
    ensures req.query == query && req.documents == documents && req.topN == options.topN
  {
    RerankRequest(if Truthy(options.model) then options.model.value else p.defaultModel,
      query, documents, options.topN, options.returnDocuments.GetOr(false))
  }

  /** One entry of the reply's `results`; `index` is taken to be an integer. */
  datatype ApiResult = ApiResult(index: int, relevanceScore: real, documentText: Option<string>)

  /** A `RerankedDocument`. */
  datatype RerankedDocument = RerankedDocument(document: string, index: int, relevanceScore: real)

  /** The text of one result: the API's text when asked for and non-empty, else the input document at `index`, else "". */
  function DocumentText(documents: seq<string>, returnDocuments: bool, res: ApiResult): (text: string)
    ensures returnDocuments && Truthy(res.documentText) ==> text == res.documentText.value
    ensures !(returnDocuments && Truthy(res.documentText)) && 0 <= res.index < |documents| ==> text == documents[res.index]
    ensures !(returnDocuments && Truthy(res.documentText)) && !(0 <= res.index < |documents|) ==> text == ""
  {
    if returnDocuments && Truthy(res.documentText) then res.documentText.value
    else if 0 <= res.index < |documents| then documents[res.index]
    else ""
  }

  /** `apiData.results.map(...)`. */
  function MapResults(documents: seq<string>, returnDocuments: bool, results: seq<ApiResult>): (docs: seq<RerankedDocument>)
    ensures |docs| == |results|
    ensures forall i :: 0 <= i < |docs| ==>
      docs[i].index == results[i].index && docs[i].relevanceScore == results[i].relevanceScore
      && docs[i].document == DocumentText(documents, returnDocuments, results[i])
  {
    seq(|results|, i requires 0 <= i < |results| => RerankedDocument(DocumentText(documents, returnDocuments, results[i]), results[i].index, results[i].relevanceScore))
  }

  /** A property of a JSON object, `undefined` for anything else. */
  function Field(v: Json, name: string): Option<Json> {
    if v.JObj? && name in v.fields then Some(v.fields[name]) else None
  }

  predicate TruthyField(v: Json, name: string) {
    Field(v, name).Some? && JsTruthy(Field(v, name).value)
  }

  /** A value in a template literal: a string as it is, anything else as `show` renders it. */
  function Text(v: Json, show: Json -> string): string {
    if v.JStr? then v.s else show(v)
  }

  const ApiErrorHead := "Jina Reranker API Error: "

  function ApiError(detail: string, status: int): string {
    ApiErrorHead + detail + " (Status: " + IntToString(status) + ")"
  }

  function StatusFailure(status: int): string {
    "Jina Reranker API request failed with status " + IntToString(status)
  }

  /** Whether the parsed error body has a field the message is taken from: a string `detail`, a `detail.msg` or a `message`, all truthy. */
  predicate HasApiDetail(parsed: Option<Json>) {
    parsed.Some? && !parsed.value.JNull? &&
    var e := parsed.value;
    (TruthyField(e, "detail") && Field(e, "detail").value.JStr?)
    || (TruthyField(e, "detail") && TruthyField(Field(e, "detail").value, "msg"))
    || TruthyField(e, "message")
  }

  /** The two forms of the message differ at their 19th character. */
  lemma FormsDiffer(status: int, errorBody: string, detail: string)
    ensures StartsWith(ApiError(detail, status), ApiErrorHead)
    ensures !StartsWith(StatusFailure(status) + ": " + errorBody, ApiErrorHead)
  {
    var f := StatusFailure(status) + ": " + errorBody;
    assert f[18] == 'r';
    assert ApiErrorHead[18] == 'E';
  }

  /**
   * The message of a failed request as the code builds it: a non-empty
   * string `detail`, else a truthy `detail.msg`, else a truthy `message`, else
   * the raw body appended. `parsed` is `JSON.parse(errorBody)`, `None` when
   * it throws; `null` throws at the property access and also ends in the
   * raw body.
   */
  function ErrorMessageAsWritten(status: int, errorBody: string, parsed: Option<Json>, show: Json -> string): (m: string)
    ensures HasApiDetail(parsed) <==> StartsWith(m, ApiErrorHead)
    ensures !HasApiDetail(parsed) ==> m == StatusFailure(status) + ": " + errorBody
  {
    var fallback := StatusFailure(status) + ": " + errorBody;
    FormsDiffer(status, errorBody, "");
    if parsed.None? || parsed.value.JNull? then fallback
    else
      var e := parsed.value;
      if TruthyField(e, "detail") && Field(e, "detail").value.JStr? then
        FormsDiffer(status, errorBody, Field(e, "detail").value.s);
        ApiError(Field(e, "detail").value.s, status)
      else if TruthyField(e, "detail") && TruthyField(Field(e, "detail").value, "msg") then
        FormsDiffer(status, errorBody, Text(Field(Field(e, "detail").value, "msg").value, show));
        ApiError(Text(Field(Field(e, "detail").value, "msg").value, show), status)
      else if TruthyField(e, "message") then
        FormsDiffer(status, errorBody, Text(Field(e, "message").value, show));
        ApiError(Text(Field(e, "message").value, show), status)
      else fallback
  }

  /** FastAPI's validation error: `detail` is an array of objects with a `msg`. */
  predicate ValidationDetail(e: Json) {
    TruthyField(e, "detail") && Field(e, "detail").value.JArr? && |Field(e, "detail").value.elems| > 0
    && TruthyField(Field(e, "detail").value.elems[0], "msg")
  }

  /** The message as intended: the array-shaped `detail` gives the `msg` of its first entry. */
  function ErrorMessage(status: int, errorBody: string, parsed: Option<Json>, show: Json -> string): (m: string)
    ensures parsed.Some? && ValidationDetail(parsed.value) ==>
      m == ApiError(Text(Field(Field(parsed.value, "detail").value.elems[0], "msg").value, show), status)
    ensures !(parsed.Some? && ValidationDetail(parsed.value)) ==> m == ErrorMessageAsWritten(status, errorBody, parsed, show)
  {
    if parsed.Some? && ValidationDetail(parsed.value) then
      ApiError(Text(Field(Field(parsed.value, "detail").value.elems[0], "msg").value, show), status)
    else ErrorMessageAsWritten(status, errorBody, parsed, show)
  }

  /**
   * What the HTTP exchange gives. `Replied` is a reply whose body is JSON:
   * `results` is its `results` array, absent when the field is missing, and
   * `schemaError` is the text `safeParse` reports when it rejects the reply.
   * `Invalid` is a reply that fails the schema in some other way.
   */
  datatype Exchange =
    | FetchThrew(thrown: Option<string>)
    | NotOk(status: int, errorBody: string, parsed: Option<Json>)
    | BadJson(message: string)
    | Invalid(zodError: string)
    | Replied(results: Option<seq<ApiResult>>, schemaError: string)

  /**
   * The outcome of `rerank` for the request `req` and the exchange's answer
   * `ex`; `failure` builds the message of a failed request.
   */
  function Outcome(documents: seq<string>, req: RerankRequest, ex: Exchange,
                   failure: (int, string, Option<Json>) -> string): (r: Result<seq<RerankedDocument>, string>)
    ensures r.Err? ==> StartsWith(r.error, ErrorPrefix)
    ensures r.Ok? <==> ex.Replied? && ex.results.Some?
    ensures r.Ok? ==> r.value == MapResults(documents, req.returnDocuments, ex.results.value)
    ensures ex.NotOk? ==> r == Err(ErrorPrefix + failure(ex.status, ex.errorBody, ex.parsed))
    ensures ex.Replied? && ex.results.None? ==> r == Err(ErrorPrefix + InvalidStructure + ex.schemaError)
  {
    match ex
    case FetchThrew(thrown) => Err(ErrorPrefix + thrown.GetOr(UnknownError))
    case NotOk(status, body, parsed) => Err(ErrorPrefix + failure(status, body, parsed))
    case BadJson(m) => Err(ErrorPrefix + m)
    case Invalid(z) => Err(ErrorPrefix + InvalidStructure + z)
    case Replied(None, z) => Err(ErrorPrefix + InvalidStructure + z)
    case Replied(Some(results), _) => Ok(MapResults(documents, req.returnDocuments, results))
  }

  /** `rerank` as the code is written: a failed request's message is `ErrorMessageAsWritten`. */
  function Rerank(p: Provider, query: string, documents: seq<string>, options: RerankOptions,
                  exchange: RerankRequest -> Exchange, show: Json -> string): (r: Result<seq<RerankedDocument>, string>)
    ensures r.Err? ==> StartsWith(r.error, ErrorPrefix)
    ensures var req := RequestFor(p, query, documents, options);
      r.Ok? <==> exchange(req).Replied? && exchange(req).results.Some?
    ensures var ex := exchange(RequestFor(p, query, documents, options));
      ex.NotOk? ==> r == Err(ErrorPrefix + ErrorMessageAsWritten(ex.status, ex.errorBody, ex.parsed, show))
  {
    Outcome(documents, RequestFor(p, query, documents, options), exchange(RequestFor(p, query, documents, options)),
            (status, body, parsed) => ErrorMessageAsWritten(status, body, parsed, show))
  }

  /** `rerank` with the intended message of a failed request, `ErrorMessage`. */
  function RerankIntended(p: Provider, query: string, documents: seq<string>, options: RerankOptions,
                          exchange: RerankRequest -> Exchange, show: Json -> string): (r: Result<seq<RerankedDocument>, string>)
    ensures r.Err? ==> StartsWith(r.error, ErrorPrefix)
    ensures var req := RequestFor(p, query, documents, options);
      r.Ok? <==> exchange(req).Replied? && exchange(req).results.Some?
    ensures var ex := exchange(RequestFor(p, query, documents, options));
      ex.NotOk? ==> r == Err(ErrorPrefix + ErrorMessage(ex.status, ex.errorBody, ex.parsed, show))
    ensures var ex := exchange(RequestFor(p, query, documents, options));
      !ex.NotOk? ==> r == Rerank(p, query, documents, options, exchange, show)
  {
    Outcome(documents, RequestFor(p, query, documents, options), exchange(RequestFor(p, query, documents, options)),
            (status, body, parsed) => ErrorMessage(status, body, parsed, show))
  }

  /** A reply without `results` fails the schema: it is rethrown as an invalid response structure, never the empty list. */
  lemma MissingResultsInvalid(p: Provider, query: string, documents: seq<string>, options: RerankOptions,
                              exchange: RerankRequest -> Exchange, show: Json -> string, z: string)
    requires exchange(RequestFor(p, query, documents, options)) == Replied(None, z)
    ensures Rerank(p, query, documents, options, exchange, show) == Err(ErrorPrefix + InvalidStructure + z)
  {
  }

  /** An empty `results` array gives no documents and no error. */
  lemma EmptyResultsEmpty(p: Provider, query: string, documents: seq<string>, options: RerankOptions,
                          exchange: RerankRequest -> Exchange, show: Json -> string, z: string)
    requires exchange(RequestFor(p, query, documents, options)) == Replied(Some([]), z)
    ensures Rerank(p, query, documents, options, exchange, show) == Ok([])
  {
  }

  /** Without `returnDocuments` the API's texts are ignored: the texts are the input documents at the reported indices. */
  lemma InputTextsWithoutReturnDocuments(documents: seq<string>, results: seq<ApiResult>)
    requires forall i :: 0 <= i < |results| ==> 0 <= results[i].index < |documents|
    ensures forall i :: 0 <= i < |results| ==> MapResults(documents, false, results)[i].document == documents[results[i].index]
  {
  }

  /** The API's order is kept: results sorted by decreasing score stay sorted. */
  lemma OrderPreserved(documents: seq<string>, returnDocuments: bool, results: seq<ApiResult>)
    requires forall i, j :: 0 <= i < j < |results| ==> results[i].relevanceScore >= results[j].relevanceScore
    ensures var docs := MapResults(documents, returnDocuments, results);
      forall i, j :: 0 <= i < j < |docs| ==> docs[i].relevanceScore >= docs[j].relevanceScore
  {
  }

  /**
   * Every input document the API reports appears among the reranked
   * documents, at the position the API gives it, with its own text.
   */
  lemma EveryDocumentReported(documents: seq<string>, results: seq<ApiResult>, k: nat)
    requires forall i :: 0 <= i < |results| ==> 0 <= results[i].index < |documents|
    requires k < |documents| && exists i :: 0 <= i < |results| && results[i].index == k
    ensures exists i :: 0 <= i < |results| &&
                         MapResults(documents, false, results)[i] == RerankedDocument(documents[k], k, results[i].relevanceScore)
  {
    var i :| 0 <= i < |results| && results[i].index == k;
    assert MapResults(documents, false, results)[i] == RerankedDocument(documents[k], k, results[i].relevanceScore);
  }

  /** A string `detail` wins over `message`. */
  lemma StringDetailFirst(status: int, body: string, d: string, m: Json, show: Json -> string)
    requires d != ""
    ensures ErrorMessage(status, body, Some(JObj(map["detail" := JStr(d), "message" := m])), show) == ApiError(d, status)
  {
    var e := JObj(map["detail" := JStr(d), "message" := m]);
    assert Field(e, "detail") == Some(JStr(d));
    assert !ValidationDetail(e);
  }

  /** An object `detail` gives its `msg`. */
  lemma ObjectDetailMsg(status: int, body: string, msg: string, show: Json -> string)
    requires msg != ""
    ensures ErrorMessage(status, body, Some(JObj(map["detail" := JObj(map["msg" := JStr(msg)])])), show) == ApiError(msg, status)
  {
    var d := JObj(map["msg" := JStr(msg)]);
    var e := JObj(map["detail" := d]);
    assert Field(e, "detail") == Some(d);
    assert Field(d, "msg") == Some(JStr(msg));
  }

  /** A body that is not JSON, or has none of the fields, is appended to the status line. */
  lemma RawBodyAppended(status: int, body: string, parsed: Option<Json>, show: Json -> string)
    requires parsed.None? || parsed.value == JObj(map[])
    ensures ErrorMessage(status, body, parsed, show) == StatusFailure(status) + ": " + body
  {
  }

  /** The test's validation error as the code is written: the array is not unwrapped and the raw body is appended. */
  lemma ArrayDetailNotUnwrapped(body: string, show: Json -> string)
    ensures var detail := JArr([JObj(map["msg" := JStr("field required")])]);
      ErrorMessageAsWritten(422, body, Some(JObj(map["detail" := detail])), show) == StatusFailure(422) + ": " + body
  {
    var detail := JArr([JObj(map["msg" := JStr("field required")])]);
    var e := JObj(map["detail" := detail]);
    assert Field(e, "detail") == Some(detail);
    assert Field(detail, "msg").None?;
    assert Field(e, "message").None?;
  }

  /** The same error with the intended message: the first entry's `msg`. */
  lemma ArrayDetailUnwrapped(body: string, show: Json -> string)
    ensures var detail := JArr([JObj(map["msg" := JStr("field required")])]);
      ErrorMessage(422, body, Some(JObj(map["detail" := detail])), show) == ApiError("field required", 422)
  {
    var entry := JObj(map["msg" := JStr("field required")]);
    var detail := JArr([entry]);
    var e := JObj(map["detail" := detail]);
    assert Field(e, "detail") == Some(detail);
    assert Field(entry, "msg") == Some(JStr("field required"));
    assert ValidationDetail(e);
  }

  /** A failing status whose body is not JSON is reported with its code and body, under the common prefix. */
  lemma UnparsedFailureMessage(p: Provider, query: string, documents: seq<string>, options: RerankOptions,
                               exchange: RerankRequest -> Exchange, show: Json -> string, status: int, body: string)
    requires exchange(RequestFor(p, query, documents, options)) == NotOk(status, body, None)
    ensures Rerank(p, query, documents, options, exchange, show) == Err(ErrorPrefix + (StatusFailure(status) + ": " + body))
  {
    RawBodyAppended(status, body, None, show);
  }

  /** The test's 422 validation error through `rerank` as written: the status line and the raw body under the common prefix. */
  lemma ValidationErrorAsRethrown(p: Provider, query: string, documents: seq<string>, options: RerankOptions,
                                  exchange: RerankRequest -> Exchange, show: Json -> string, body: string)
    requires exchange(RequestFor(p, query, documents, options)) ==
             NotOk(422, body, Some(JObj(map["detail" := JArr([JObj(map["msg" := JStr("field required")])])])))
    ensures Rerank(p, query, documents, options, exchange, show) == Err(ErrorPrefix + (StatusFailure(422) + ": " + body))
  {
    ArrayDetailNotUnwrapped(body, show);
  }

  /** The same error through the intended `rerank`: the message the test expects. */
  lemma ValidationErrorAsIntended(p: Provider, query: string, documents: seq<string>, options: RerankOptions,
                                  exchange: RerankRequest -> Exchange, show: Json -> string, body: string)
    requires exchange(RequestFor(p, query, documents, options)) ==
             NotOk(422, body, Some(JObj(map["detail" := JArr([JObj(map["msg" := JStr("field required")])])])))
    ensures RerankIntended(p, query, documents, options, exchange, show) == Err(ErrorPrefix + ApiError("field required", 422))
  {
    ArrayDetailUnwrapped(body, show);
  }
}
