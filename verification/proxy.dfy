/**
 * The decisions of the proxy server (server.ts): which credential a request
 * uses, whether a route answers from the speech service or from the mock
 * catalogs, how it falls back after a failed upstream call, and how an
 * upstream synthesis error becomes the `{error}` body sent to the browser.
 *
 * Each route handler is a pure function of the request, the configured
 * default credential and the abstract outcome of each outbound call it may
 * make; the outcome of a call the handler does not make is never consulted.
 */
module Proxy {
  import opened Wrappers
  import opened Json
  import Text
  import Catalog

  newtype byte = b: int | 0 <= b < 256

  /** What the handler sends: a JSON body with a status, or `audio/mpeg` bytes with status 200. */
  datatype Response =
    | JsonBody(status: int, body: Value)
    | AudioBody(audio: seq<byte>)

  /** The response payload of an upstream call that failed with an HTTP status. */
  datatype ErrData =
    | Binary(parsed: Option<Value>)   // a Buffer/ArrayBuffer; None when decoding or JSON parsing it throws
    | Decoded(value: Value)           // any other payload, already decoded (Null when absent)

  /** The outcome of one outbound HTTP call (an axios request). */
  datatype Upstream<T> =
    | Ok(data: T)                                           // 2xx
    | HttpErr(status: int, payload: ErrData, message: string)  // a response outside 2xx; `message` is the error's message
    | NetErr(message: string)                               // no response: network error or timeout

  /** The placeholder marker that disqualifies a credential. */
  const Placeholder: string := "YOUR_API_KEY"

  /** `isKeyValid`: present, longer than 20 characters, and free of the placeholder. */
  function IsKeyValid(key: Option<string>): (valid: bool)
    ensures valid ==> key.Some? && |key.value| > 20 && !Text.Contains(key.value, Placeholder)
    ensures key.Some? && |key.value| > 20 && !Text.Contains(key.value, Placeholder) ==> valid
  {
    key.Some? && key.value != "" && |key.value| > 20 && !Text.Contains(key.value, Placeholder)
  }

  /** `customKey || ELEVENLABS_API_KEY`: the request header unless it is absent or empty. */
  function ResolveKey(header: Option<string>, default: Option<string>): (key: Option<string>)
    ensures header.Some? && header.value != "" ==> key == header
    ensures !(header.Some? && header.value != "") ==> key == default
  {
    if header.Some? && header.value != "" then header else default
  }

  /** A value given and non-empty: the JavaScript truthiness of an optional string. */
  predicate Present(s: Option<string>) {
    s.Some? && s.value != ""
  }

  // ---------------------------------------------------------------- GET /api/voices

  /** `{voices: MOCK_VOICES, is_mock: true}`. */
  function MockVoicesBody(): (b: Value)
    ensures b.Obj? && b.fields.Keys == {"voices", "is_mock"}
    ensures b.fields["voices"] == Arr(Catalog.MockVoicesJson()) && |b.fields["voices"].items| == |Catalog.MockVoices|
    ensures b.fields["is_mock"] == Bool(true)
  {
    Obj(map["voices" := Arr(Catalog.MockVoicesJson()), "is_mock" := Bool(true)])
  }

  /**
   * GET /api/voices. Always status 200: the mock catalog when the credential
   * is not usable or the upstream call failed in any way (a 401/403 is only
   * logged differently), else the upstream object with `is_mock: false`
   * overriding any `is_mock` it carried.
   */
  function HandleVoices(header: Option<string>, default: Option<string>, upstream: Upstream<map<string, Value>>): (r: Response)
    ensures r.JsonBody? && r.status == 200
    ensures r.body.Obj? && "is_mock" in r.body.fields
  {
    var key := ResolveKey(header, default);
    if !IsKeyValid(key) then JsonBody(200, MockVoicesBody())
    else match upstream
      case Ok(data) => JsonBody(200, Obj(data["is_mock" := Bool(false)]))
      case _ => JsonBody(200, MockVoicesBody())
  }

  // ---------------------------------------------------------------- GET /api/models

  /** `{...m, is_mock: true}` for a catalog model. */
  function TaggedModelJson(m: Catalog.Model): (j: Value)
    ensures j.Obj? && j.fields.Keys == {"model_id", "name", "is_mock"}
  {
    Obj(Catalog.ModelJson(m).fields["is_mock" := Bool(true)])
  }

  /** `MOCK_MODELS.map(m => ({...m, is_mock: true}))`. */
  function TaggedMockModels(): (j: seq<Value>)
    ensures |j| == |Catalog.MockModels|
    ensures forall i :: 0 <= i < |j| ==> j[i] == TaggedModelJson(Catalog.MockModels[i])
  {
    seq(|Catalog.MockModels|, i requires 0 <= i < |Catalog.MockModels| => TaggedModelJson(Catalog.MockModels[i]))
  }

  /**
   * GET /api/models. Always status 200: the tagged catalog when the
   * credential is not usable, the upstream payload unchanged on success,
   * and the catalog WITHOUT the tag after an upstream failure.
   */
  function HandleModels(header: Option<string>, default: Option<string>, upstream: Upstream<Value>): (r: Response)
    ensures r.JsonBody? && r.status == 200
  {
    var key := ResolveKey(header, default);
    if !IsKeyValid(key) then JsonBody(200, Arr(TaggedMockModels()))
    else match upstream
      case Ok(data) => JsonBody(200, data)
      case _ => JsonBody(200, Arr(Catalog.MockModelsJson()))
  }

  // ---------------------------------------------------------------- POST /api/tts

  /** The JSON body of a synthesis request; absent fields are `None`. */
  datatype TtsRequest = TtsRequest(text: Option<string>, voiceId: Option<string>, modelId: Option<string>, settings: Option<Value>)

  /** The synthesis call forwarded to the speech service. */
  datatype UpstreamCall = UpstreamCall(voiceId: string, key: string, text: string, modelId: string, settings: Value)

  /** What the handler decides before any outbound call. */
  datatype TtsPlan =
    | Reject(response: Response)   // answered at once, no outbound call
    | MockPath                     // serve the sample audio
    | UpstreamPath(call: UpstreamCall)

  const MockVoicePrefix: string := "vi_vn_"
  const DefaultModel: string := "eleven_multilingual_v2"
  const MissingFieldsMessage: string := "Missing text or voiceId"
  const MockFetchFailedMessage: string := "Không thể tải âm thanh mẫu."
  const GenericTtsError: string := "Failed to generate speech"

  /** The voice settings sent when the request has none. */
  const DefaultSettings: Value :=
    Obj(map["stability" := Num(0.5), "similarity_boost" := Num(0.5), "style" := Num(0.0), "use_speaker_boost" := Bool(true)])

  /** `{error: message}`. */
  function ErrorBody(message: Value): (j: Value)
    ensures j.Obj? && j.fields.Keys == {"error"} && j.fields["error"] == message
  {
    Obj(map["error" := message])
  }

  /**
   * Validation and the mock-or-upstream choice of POST /api/tts: missing or
   * empty text or voice id is a 400; the mock path is taken when the
   * resolved key is absent or empty (NOT `isKeyValid`) or the voice id has
   * the reserved prefix; otherwise the call carries the model id (defaulted
   * when absent or empty) and the settings (defaulted when absent or falsy).
   */
  function PlanTts(req: TtsRequest, header: Option<string>, default: Option<string>): (plan: TtsPlan)
    ensures plan.Reject? <==> !Present(req.text) || !Present(req.voiceId)
    ensures plan.Reject? ==> plan.response == JsonBody(400, ErrorBody(Str(MissingFieldsMessage)))
    ensures plan.UpstreamPath? ==>
      && Present(req.voiceId) && plan.call.voiceId == req.voiceId.value
      && Present(req.text) && plan.call.text == req.text.value
      && plan.call.key != "" && Some(plan.call.key) == ResolveKey(header, default)
    ensures plan.UpstreamPath? ==>
      && plan.call.modelId != ""
      && (Present(req.modelId) ==> plan.call.modelId == req.modelId.value)
      && (!Present(req.modelId) ==> plan.call.modelId == DefaultModel)
    ensures plan.UpstreamPath? ==>
      && (req.settings.Some? && Truthy(req.settings.value) ==> plan.call.settings == req.settings.value)
      && (req.settings.None? || !Truthy(req.settings.value) ==> plan.call.settings == DefaultSettings)
  {
    var key := ResolveKey(header, default);
    if !Present(req.text) || !Present(req.voiceId) then
      Reject(JsonBody(400, ErrorBody(Str(MissingFieldsMessage))))
    else if !Present(key) || Text.IsPrefix(MockVoicePrefix, req.voiceId.value) then
      MockPath
    else
      var model := if Present(req.modelId) then req.modelId.value else DefaultModel;
      var settings := if req.settings.Some? && Truthy(req.settings.value) then req.settings.value else DefaultSettings;
      UpstreamPath(UpstreamCall(req.voiceId.value, key.value, req.text.value, model, settings))
  }

  /** `serveMockAudio`: the sample's bytes, or a 500 with a fixed message when fetching it failed. */
  function ServeMockAudio(sample: Upstream<seq<byte>>): (r: Response)
    ensures sample.Ok? <==> r.AudioBody?
    ensures sample.Ok? ==> r.audio == sample.data
    ensures !sample.Ok? ==> r == JsonBody(500, ErrorBody(Str(MockFetchFailedMessage)))
  {
    match sample
    case Ok(audio) => AudioBody(audio)
    case _ => JsonBody(500, ErrorBody(Str(MockFetchFailedMessage)))
  }

  /**
   * The message of a failed synthesis call with a response: a binary payload
   * is decoded and parsed, then `detail.message || error.message || default`;
   * a failure to decode or parse, or a `null` document (whose `.detail`
   * throws), gives the error's own message. Any other payload gives its
   * `error` field when truthy, else the error's own message.
   */
  function ErrorMessage(data: ErrData, message: string): (m: Value)
    ensures m == Str(message) || m == Str(GenericTtsError) || Truthy(m)
    ensures data.Decoded? ==> m == Str(message) || Truthy(m)
    ensures data.Decoded? ==> m == Str(message) || Member(Some(data.value), "error") == Some(m)
    ensures data.Binary? && (data.parsed.None? || data.parsed == Some(Null)) ==> m == Str(message)
    ensures data.Binary? && data.parsed.Some? && data.parsed.value != Null ==>
      var doc := Some(data.parsed.value);
      || Member(Member(doc, "detail"), "message") == Some(m)
      || Member(Member(doc, "error"), "message") == Some(m)
      || m == Str(GenericTtsError)
  {
    match data
    case Binary(None) => Str(message)
    case Binary(Some(Null)) => Str(message)
    case Binary(Some(doc)) =>
      OrElse(Member(Member(Some(doc), "detail"), "message"),
        OrElse(Member(Member(Some(doc), "error"), "message"), Str(GenericTtsError)))
    case Decoded(v) => OrElse(Member(Some(v), "error"), Str(message))
  }

  /** `error.response?.status || 500` for a call that got a response. */
  function FailureStatus(status: int): (s: int)
    ensures s != 0
    ensures status != 0 ==> s == status
  {
    if status != 0 then status else 500
  }

  /**
   * POST /api/tts. `upstream` is the outcome of the synthesis call and
   * `sample` that of the sample-audio fetch; each is consulted only when the
   * handler makes that call.
   */
  function HandleTts(req: TtsRequest, header: Option<string>, default: Option<string>,
                     upstream: Upstream<seq<byte>>, sample: Upstream<seq<byte>>): (r: Response)
    ensures r.JsonBody? ==> r.status != 0 && r.body.Obj? && r.body.fields.Keys == {"error"}
  {
    match PlanTts(req, header, default)
    case Reject(response) => response
    case MockPath => ServeMockAudio(sample)
    case UpstreamPath(_) =>
      match upstream
      case Ok(audio) => AudioBody(audio)
      case HttpErr(status, data, message) =>
        if status == 404 then ServeMockAudio(sample)
        else JsonBody(FailureStatus(status), ErrorBody(ErrorMessage(data, message)))
      case NetErr(message) => JsonBody(500, ErrorBody(Str(message)))
  }
}
