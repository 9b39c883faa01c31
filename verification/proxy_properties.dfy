/**
 * What the proxy promises its callers, proved about the route functions of
 * module Proxy: the credential check, header precedence, the never-failing
 * catalog routes and their fallbacks, and the synthesis route's validation,
 * mock selection, 404 fallback and error normalisation.
 */
module ProxyProperties {
  import opened Wrappers
  import opened Json
  import Text
  import Catalog
  import opened Proxy

  // ---------------------------------------------------------------- credential check

  /** A credential is usable exactly when it is longer than 20 characters and free of the placeholder. */
  lemma KeyValidIff(key: Option<string>)
    ensures IsKeyValid(key) <==> key.Some? && |key.value| > 20 && !Text.Contains(key.value, Placeholder)
    ensures !IsKeyValid(None) && !IsKeyValid(Some(""))
  {
  }

  /** The placeholder anywhere in a credential disqualifies it, however long it is. */
  lemma {:induction false} PlaceholderAnywhereRejected(before: string, after: string)
    ensures !IsKeyValid(Some(before + Placeholder + after))
  {
    var k := before + Placeholder + after;
    assert k[|before|..|before| + |Placeholder|] == Placeholder;
    assert Text.OccursAt(k, Placeholder, |before|);
  }

  /** A string without the letter 'Y' cannot contain the placeholder. */
  lemma NoPlaceholderWithoutY(k: string)
    requires forall i :: 0 <= i < |k| ==> k[i] != 'Y'
    ensures !Text.Contains(k, Placeholder)
  {
    forall i: nat | i <= |k| ensures !Text.OccursAt(k, Placeholder, i) {
      if i + |Placeholder| <= |k| {
        assert k[i..i + |Placeholder|][0] == k[i];
      }
    }
  }

  /** The length threshold is strict: 20 characters are rejected, 21 clean characters accepted. */
  lemma LengthThreshold()
    ensures !IsKeyValid(Some(Text.Repeat('a', 20)))
    ensures IsKeyValid(Some(Text.Repeat('a', 21)))
  {
    NoPlaceholderWithoutY(Text.Repeat('a', 21));
  }

  /** Every route uses the header key when it is non-empty, else the configured default. */
  lemma HeaderTakesPrecedence(header: string, default: Option<string>)
    ensures header != "" ==> ResolveKey(Some(header), default) == Some(header)
    ensures ResolveKey(Some(""), default) == default && ResolveKey(None, default) == default
  {
  }

  // ---------------------------------------------------------------- GET /api/voices

  /**
   * The voices route flags mock data exactly when it serves the mock
   * catalog: the credential is unusable or the upstream call failed.
   * Otherwise the body is the upstream object with `is_mock: false`.
   */
  lemma VoicesMockIff(header: Option<string>, default: Option<string>, upstream: Upstream<map<string, Value>>)
    ensures var r := HandleVoices(header, default, upstream);
      var mock := !IsKeyValid(ResolveKey(header, default)) || !upstream.Ok?;
      && (r.body.fields["is_mock"] == Bool(true) <==> mock)
      && (mock ==> r.body == MockVoicesBody())
      && (!mock ==> r.body == Obj(upstream.data["is_mock" := Bool(false)]))
  {
  }

  /** With no credential at all, GET /api/voices is exactly the 39-entry mock catalog with `is_mock: true`. */
  lemma VoicesWithoutCredential(upstream: Upstream<map<string, Value>>)
    ensures HandleVoices(None, None, upstream) == JsonBody(200, MockVoicesBody())
    ensures |MockVoicesBody().fields["voices"].items| == 39
  {
  }

  /** An authentication rejection (401 or 403) degrades exactly like a network failure. */
  lemma VoicesAuthRejectionIsMock(header: Option<string>, default: Option<string>, status: int,
                                  data: ErrData, message: string, netMessage: string)
    requires status == 401 || status == 403
    ensures HandleVoices(header, default, HttpErr(status, data, message))
         == HandleVoices(header, default, NetErr(netMessage))
         == JsonBody(200, MockVoicesBody())
  {
  }

  /** Without a usable credential no upstream call is made: its outcome does not matter. */
  lemma VoicesNoCallWithoutKey(header: Option<string>, default: Option<string>,
                               u1: Upstream<map<string, Value>>, u2: Upstream<map<string, Value>>)
    requires !IsKeyValid(ResolveKey(header, default))
    ensures HandleVoices(header, default, u1) == HandleVoices(header, default, u2)
  {
  }

  // ---------------------------------------------------------------- GET /api/models

  /** Without a usable credential every catalog model is served, in order, tagged `is_mock: true`. */
  lemma ModelsWithoutKeyTagged(header: Option<string>, default: Option<string>, upstream: Upstream<Value>)
    requires !IsKeyValid(ResolveKey(header, default))
    ensures var r := HandleModels(header, default, upstream);
      && r.body.Arr? && |r.body.items| == |Catalog.MockModels| == 5
      && forall i :: 0 <= i < 5 ==>
           && r.body.items[i].Obj?
           && r.body.items[i].fields["is_mock"] == Bool(true)
           && r.body.items[i].fields["model_id"] == Str(Catalog.MockModels[i].modelId)
           && r.body.items[i].fields["name"] == Str(Catalog.MockModels[i].name)
  {
  }

  /** After an upstream failure the catalog is served untagged; on success the payload is passed on unchanged. */
  lemma ModelsAfterUpstream(header: Option<string>, default: Option<string>, upstream: Upstream<Value>)
    requires IsKeyValid(ResolveKey(header, default))
    ensures upstream.Ok? ==> HandleModels(header, default, upstream).body == upstream.data
    ensures !upstream.Ok? ==>
      var r := HandleModels(header, default, upstream);
      && r.body == Arr(Catalog.MockModelsJson())
      && forall i :: 0 <= i < |r.body.items| ==> "is_mock" !in r.body.items[i].fields
  {
  }

  /** The two mock answers of GET /api/models differ: after a failure the entries lack the mock tag. */
  lemma ModelsFallbackUntagged(h1: Option<string>, d1: Option<string>, u1: Upstream<Value>,
                               h2: Option<string>, d2: Option<string>, u2: Upstream<Value>)
    requires !IsKeyValid(ResolveKey(h1, d1))
    requires IsKeyValid(ResolveKey(h2, d2)) && !u2.Ok?
    ensures HandleModels(h1, d1, u1) != HandleModels(h2, d2, u2)
  {
    var tagged := HandleModels(h1, d1, u1).body.items[0];
    var plain := HandleModels(h2, d2, u2).body.items[0];
    assert "is_mock" in tagged.fields && "is_mock" !in plain.fields;
  }

  // ---------------------------------------------------------------- POST /api/tts

  /** Missing or empty text or voice id: a 400 with a fixed message, whatever any outbound call would have done. */
  lemma TtsMissingFieldsRejected(req: TtsRequest, header: Option<string>, default: Option<string>,
                                 upstream: Upstream<seq<byte>>, sample: Upstream<seq<byte>>)
    requires !Present(req.text) || !Present(req.voiceId)
    ensures PlanTts(req, header, default).Reject?
    ensures HandleTts(req, header, default, upstream, sample) == JsonBody(400, ErrorBody(Str(MissingFieldsMessage)))
  {
  }

  /** The mock path is chosen exactly when the fields are present and the key is absent or empty, or the voice id is reserved. */
  lemma TtsMockPathIff(req: TtsRequest, header: Option<string>, default: Option<string>,
                       upstream: Upstream<seq<byte>>, sample: Upstream<seq<byte>>)
    ensures PlanTts(req, header, default).MockPath? <==>
      && Present(req.text) && Present(req.voiceId)
      && (!Present(ResolveKey(header, default)) || Text.IsPrefix(MockVoicePrefix, req.voiceId.value))
    ensures PlanTts(req, header, default).MockPath? ==> HandleTts(req, header, default, upstream, sample) == ServeMockAudio(sample)
  {
  }

  /** A voice id with the reserved prefix is always answered from the sample, whatever the credential. */
  lemma TtsReservedVoiceAlwaysMock(req: TtsRequest, header: Option<string>, default: Option<string>,
                                   upstream: Upstream<seq<byte>>, sample: Upstream<seq<byte>>)
    requires Present(req.text) && req.voiceId.Some?
    requires Text.IsPrefix(MockVoicePrefix, req.voiceId.value)
    ensures HandleTts(req, header, default, upstream, sample) == ServeMockAudio(sample)
  {
  }

  /**
   * The synthesis route does not use the credential check: a short
   * non-empty key is rejected by `isKeyValid` yet still goes upstream.
   */
  lemma TtsShortKeyGoesUpstream()
    ensures !IsKeyValid(Some("short"))
    ensures PlanTts(TtsRequest(Some("hi"), Some("21m00Tcm4TlvDq8ikWAM"), None, None), Some("short"), None).UpstreamPath?
  {
    assert !Text.IsPrefix(MockVoicePrefix, "21m00Tcm4TlvDq8ikWAM") by {
      assert "21m00Tcm4TlvDq8ikWAM"[..6] != MockVoicePrefix by {
        assert "21m00Tcm4TlvDq8ikWAM"[0] == '2';
      }
    }
  }

  /** On the upstream path: success passes the audio through, and a 404 falls back to the sample. */
  lemma TtsUpstreamSuccessAnd404(req: TtsRequest, header: Option<string>, default: Option<string>,
                                 upstream: Upstream<seq<byte>>, sample: Upstream<seq<byte>>)
    requires PlanTts(req, header, default).UpstreamPath?
    ensures upstream.Ok? ==> HandleTts(req, header, default, upstream, sample) == AudioBody(upstream.data)
    ensures upstream.HttpErr? && upstream.status == 404 ==>
      HandleTts(req, header, default, upstream, sample) == ServeMockAudio(sample)
  {
  }

  /**
   * Any other upstream failure is surfaced as `{error}` with the upstream
   * status (500 when there is none or it is 0), never as audio, and the
   * sample is not fetched.
   */
  lemma TtsOtherFailureSurfaced(req: TtsRequest, header: Option<string>, default: Option<string>,
                                upstream: Upstream<seq<byte>>, s1: Upstream<seq<byte>>, s2: Upstream<seq<byte>>)
    requires PlanTts(req, header, default).UpstreamPath?
    requires upstream.NetErr? || (upstream.HttpErr? && upstream.status != 404)
    ensures var r := HandleTts(req, header, default, upstream, s1);
      && r == HandleTts(req, header, default, upstream, s2)
      && r.JsonBody?
      && r.status == (if upstream.HttpErr? && upstream.status != 0 then upstream.status else 500)
      && r.body.fields["error"] == (if upstream.HttpErr? then ErrorMessage(upstream.payload, upstream.message) else Str(upstream.message))
  {
  }

  /** A binary body `{"detail":{"message":X}}` with a non-empty X becomes `{error: X}` with the upstream status. */
  lemma TtsDetailMessageDecoded(req: TtsRequest, header: Option<string>, default: Option<string>,
                                status: int, x: string, message: string, sample: Upstream<seq<byte>>)
    requires PlanTts(req, header, default).UpstreamPath?
    requires status != 404 && status != 0 && x != ""
    ensures var doc := Obj(map["detail" := Obj(map["message" := Str(x)])]);
      HandleTts(req, header, default, HttpErr(status, Binary(Some(doc)), message), sample)
        == JsonBody(status, ErrorBody(Str(x)))
  {
  }

  /**
   * Message selection for a binary error body: `detail.message` before
   * `error.message` before the generic text; an undecodable body or a JSON
   * `null` gives the error's own message. Any other payload gives its truthy
   * `error` field, else the error's own message.
   */
  lemma ErrorMessagePrecedence(doc: Value, message: string)
    ensures ErrorMessage(Binary(None), message) == Str(message)
    ensures ErrorMessage(Binary(Some(Null)), message) == Str(message)
    ensures var d := Member(Member(Some(doc), "detail"), "message");
      var e := Member(Member(Some(doc), "error"), "message");
      && (d.Some? && Truthy(d.value) ==> ErrorMessage(Binary(Some(doc)), message) == d.value)
      && (!(d.Some? && Truthy(d.value)) && e.Some? && Truthy(e.value) ==> ErrorMessage(Binary(Some(doc)), message) == e.value)
      && (doc != Null && !(d.Some? && Truthy(d.value)) && !(e.Some? && Truthy(e.value)) ==>
            ErrorMessage(Binary(Some(doc)), message) == Str(GenericTtsError))
    ensures var f := Member(Some(doc), "error");
      && (f.Some? && Truthy(f.value) ==> ErrorMessage(Decoded(doc), message) == f.value)
      && (!(f.Some? && Truthy(f.value)) ==> ErrorMessage(Decoded(doc), message) == Str(message))
  {
  }

  /** Every JSON answer of the synthesis route has status 400, 500 or the upstream's own status. */
  lemma TtsStatusOrigin(req: TtsRequest, header: Option<string>, default: Option<string>,
                        upstream: Upstream<seq<byte>>, sample: Upstream<seq<byte>>)
    ensures var r := HandleTts(req, header, default, upstream, sample);
      r.JsonBody? ==> r.status == 400 || r.status == 500 || (upstream.HttpErr? && r.status == upstream.status)
  {
  }

  // ---------------------------------------------------------------- catalogs

  /** The mock voices the synthesis route always mocks are exactly the last four of the 39. */
  lemma ReservedMockVoices()
    ensures |Catalog.MockVoices| == 39
    ensures forall i :: 0 <= i < 39 ==> (Text.IsPrefix(MockVoicePrefix, Catalog.MockVoices[i].voiceId) <==> i >= 35)
  {
    forall i | 0 <= i < 35
      ensures !Text.IsPrefix(MockVoicePrefix, Catalog.MockVoices[i].voiceId)
    {
      var id := Catalog.MockVoices[i].voiceId;
      assert id[0] != 'v';
    }
  }
}
