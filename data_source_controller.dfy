/**
 * The data-source HTTP controllers: `normalizePlatform`, and what the
 * create, update and delete controllers check before they hand a request to
 * `DataSourceService`. A controller's answer is either a 400 error or the
 * service call it makes, whose result becomes the JSON response.
 */
module DataSourceController {
  import opened Optional
  import opened JsText

  /** `SUPPORTED_PLATFORMS`. */
  const SupportedPlatforms: set<string> := {"firecrawl", "twitter"}

  const InvalidParams := -32602
  const CreateMessage := "platform must be firecrawl or twitter, identifier required"
  const InvalidId := "Invalid id"
  const InvalidPlatform := "Invalid platform"

  /** A JavaScript number as far as the controllers look at it. */
  datatype JsNumber = NaN | Num(value: real)

  /** `!id || Number.isNaN(id)` fails: a number other than 0 and NaN. */
  predicate ValidId(id: JsNumber) {
    id.Num? && id.value != 0.0
  }

  predicate IsDigits(s: string) {
    forall i :: 0 <= i < |s| ==> '0' <= s[i] <= '9'
  }

  /**
   * `Number(idParam)`: `undefined` is NaN, "" is 0, a string of decimal
   * digits is its value; every other string is converted by `convert`.
   */
  function NumberOf(idParam: Option<string>, convert: string -> JsNumber): (n: JsNumber)
    ensures idParam.None? ==> n == NaN
    ensures idParam == Some("") ==> n == Num(0.0)
    ensures idParam.Some? && IsDigits(idParam.value) ==> n == Num(ParseDigits(idParam.value) as real)
  {
    match idParam
    case None => NaN
    case Some(s) => if IsDigits(s) then Num(ParseDigits(s) as real) else convert(s)
  }

  /** `normalizePlatform`: the lower-cased value when it is a supported platform. */
  function NormalizePlatform(value: Option<string>): (r: Option<string>)
    ensures r.Some? <==> Truthy(value) && ToLower(value.value) in SupportedPlatforms
    ensures r.Some? ==> r.value == ToLower(value.value) && r.value in SupportedPlatforms
  {
    if !Truthy(value) then None
    else
      var normalized := ToLower(value.value);
      if normalized in SupportedPlatforms then Some(normalized) else None
  }

  /** The request body of create and update. */
  datatype Payload = Payload(platform: Option<string>, identifier: Option<string>)

  /** The fields an update sets; an absent field is left as it is. */
  datatype Patch = Patch(platform: Option<string>, identifier: Option<string>)

  /** The `DataSourceService` call a controller makes. */
  datatype ServiceCall =
    | Create(platform: string, identifier: string)
    | Update(id: real, patch: Patch)
    | Remove(id: real)

  /** A 400 `errorResponse`, or the call whose result is sent as JSON. */
  datatype Reply = Rejected(status: int, code: int, message: string) | Forwarded(call: ServiceCall)

  function BadRequest(message: string): Reply {
    Rejected(400, InvalidParams, message)
  }

  /** `createDataSourceController`. */
  function CreateController(payload: Payload): (reply: Reply)
    ensures reply.Rejected? <==> NormalizePlatform(payload.platform).None? || !Truthy(payload.identifier)
    ensures reply.Rejected? ==> reply == BadRequest(CreateMessage)
    ensures reply.Forwarded? ==>
      reply.call == Create(ToLower(payload.platform.value), payload.identifier.value)
      && reply.call.platform in SupportedPlatforms && reply.call.identifier != ""
  {
    var platform := NormalizePlatform(payload.platform);
    if platform.None? || !Truthy(payload.identifier) then BadRequest(CreateMessage)
    else Forwarded(Create(platform.value, payload.identifier.value))
  }

  /** `updateDataSourceController`. */
  function UpdateController(id: JsNumber, payload: Payload): (reply: Reply)
    ensures !ValidId(id) ==> reply == BadRequest(InvalidId)
    ensures ValidId(id) && Truthy(payload.platform) && NormalizePlatform(payload.platform).None? ==>
      reply == BadRequest(InvalidPlatform)
    ensures reply.Forwarded? <==> ValidId(id) && (!Truthy(payload.platform) || NormalizePlatform(payload.platform).Some?)
    ensures reply.Forwarded? ==>
      reply.call.Update? && reply.call.id == id.value
      && reply.call.patch.platform == NormalizePlatform(payload.platform)
      && reply.call.patch.identifier == payload.identifier
  {
    if !ValidId(id) then BadRequest(InvalidId)
    else
      var platform := if Truthy(payload.platform) then NormalizePlatform(payload.platform) else None;
      if Truthy(payload.platform) && platform.None? then BadRequest(InvalidPlatform)
      else Forwarded(Update(id.value, Patch(platform, payload.identifier)))
  }

  /** `deleteDataSourceController`. */
  function DeleteController(id: JsNumber): (reply: Reply)
    ensures reply.Rejected? <==> !ValidId(id)
    ensures reply.Rejected? ==> reply == BadRequest(InvalidId)
    ensures reply.Forwarded? ==> reply.call == Remove(id.value)
  {
    if !ValidId(id) then BadRequest(InvalidId) else Forwarded(Remove(id.value))
  }

  /** Normalising a normalised platform gives it back. */
  lemma NormalizeIdempotent(value: Option<string>)
    requires NormalizePlatform(value).Some?
    ensures NormalizePlatform(NormalizePlatform(value)) == NormalizePlatform(value)
  {
    ToLowerIdempotent(value.value);
  }

  /** Case does not matter: a value normalises as its lower-cased form does, so every spelling of a platform is that platform. */
  lemma PlatformCaseInsensitive(s: string)
    ensures NormalizePlatform(Some(s)) == NormalizePlatform(Some(ToLower(s)))
    ensures ToLower(s) in SupportedPlatforms ==> NormalizePlatform(Some(s)) == Some(ToLower(s))
  {
    ToLowerIdempotent(s);
  }

  /** "Twitter" is the platform "twitter"; "rss" is no platform. */
  lemma PlatformExamples()
    ensures NormalizePlatform(Some("Twitter")) == Some("twitter")
    ensures NormalizePlatform(Some("rss")).None?
  {
    assert ToLower("Twitter") == "twitter";
    assert |ToLower("rss")| == 3;
    assert ToLower("rss") != "twitter";
    assert ToLower("rss") == "rss";
  }

  /** A missing, empty or zero id is refused by update and delete alike, before any service call. */
  lemma ZeroOrMissingIdRejected(idParam: Option<string>, convert: string -> JsNumber, payload: Payload)
    requires idParam.None? || idParam == Some("") || idParam == Some("0")
    ensures UpdateController(NumberOf(idParam, convert), payload) == BadRequest(InvalidId)
    ensures DeleteController(NumberOf(idParam, convert)) == BadRequest(InvalidId)
  {
    if idParam == Some("0") {
      assert ParseDigits("0") == ParseDigits("") * 10 + DigitValue('0');
    }
  }

  /** A decimal id other than zero is accepted and passed on as that number. */
  lemma DigitIdAccepted(n: nat, convert: string -> JsNumber)
    requires n > 0
    ensures DeleteController(NumberOf(Some(NatToString(n)), convert)) == Forwarded(Remove(n as real))
  {
    NatToStringRoundTrip(n);
  }

  /**
   * An update without a platform never fails on the platform: an empty
   * identifier is still written, and an absent one is left untouched.
   */
  lemma EmptyIdentifierStillPatched(id: JsNumber, identifier: Option<string>)
    requires ValidId(id)
    ensures UpdateController(id, Payload(None, identifier)) == Forwarded(Update(id.value, Patch(None, identifier)))
    ensures UpdateController(id, Payload(Some(""), identifier)) == Forwarded(Update(id.value, Patch(None, identifier)))
  {
  }

  /** Create and update agree on which platforms exist: a platform create accepts is accepted by update too. */
  lemma CreateAndUpdateAgreeOnPlatform(payload: Payload, id: JsNumber)
    requires ValidId(id) && CreateController(payload).Forwarded?
    ensures UpdateController(id, payload).Forwarded?
    ensures UpdateController(id, payload).call.patch.platform == Some(CreateController(payload).call.platform)
  {
  }
}
