/**
 * The proxy and the client together: what the browser shows for an error
 * answer of POST /api/tts. The proxy's JSON answers arrive at the client as
 * replies whose text parses back to the body the proxy sent. Their type is
 * whatever `res.json` labels them with (`application/json; charset=utf-8`),
 * which the client's exact comparison with `application/json` need not
 * match, so an answer is read as an error for its status of 400 or more.
 */
module EndToEnd {
  import opened Wrappers
  import opened Json
  import Text
  import Proxy
  import opened Client
  import ClientProperties

  /**
   * A JSON answer of the proxy with a status from 400 to 499, whatever its
   * content type, or below 400 when typed exactly `application/json`
   * (statuses of 500 and more make the request throw before the client
   * reads the body), makes
   * `generateTTS` throw for any affordable non-blank input: the fixed key
   * rejection exactly at 401 (which also raises the mock flag), and
   * otherwise the proxy's `error` text itself when it is a non-empty string
   * (the missing-fields message, or the speech service's own message).
   */
  lemma ProxyTtsErrorReachesUser(req: Proxy.TtsRequest, header: Option<string>, default: Option<string>,
                                 upstream: Proxy.Upstream<seq<Proxy.byte>>, sample: Proxy.Upstream<seq<Proxy.byte>>,
                                 status: int, body: Value, bodyText: string, d: Delivery,
                                 input: string, autoDownload: bool, budget: int, model: string, voiceName: string,
                                 counter: nat, r: GenResult)
    requires Proxy.HandleTts(req, header, default, upstream, sample) == Proxy.JsonBody(status, body) && status < 500
    requires d.reply.Received? && d.reply.status == status && d.reply.bodyText == bodyText && d.reply.parsed == Some(body)
    requires 400 <= status || d.reply.contentType == "application/json"
    requires !Text.IsBlank(input) && TotalCost(input, model) <= budget
    requires r == GenerateOutcome(input, autoDownload, budget, model, voiceName, d, counter)
    ensures r.Failed? && (r.authRejected <==> status == 401)
    ensures status == 401 ==> r.error == Plain(RejectedKeyMessage)
    ensures status != 401 && body.fields["error"].Str? && body.fields["error"].s != "" ==>
      r.error == Plain(body.fields["error"].s)
  {
    ClientProperties.GenerateOutcomeSpec(input, autoDownload, budget, model, voiceName, d, counter, r);
    assert r == Failed(ReplyError(status, bodyText, Some(body)), status == 401);
    assert body != Null;
  }

  /** A synthesis request without text is answered 400 by the proxy and shown to the user as the proxy's message. */
  lemma MissingTextShownToUser(req: Proxy.TtsRequest, header: Option<string>, default: Option<string>,
                               upstream: Proxy.Upstream<seq<Proxy.byte>>, sample: Proxy.Upstream<seq<Proxy.byte>>,
                               d: Delivery, input: string, budget: int, model: string, voiceName: string,
                               counter: nat)
    requires req.text.None?
    requires d.reply.Received? && d.reply.status == 400 && d.reply.parsed == Some(Proxy.ErrorBody(Str(Proxy.MissingFieldsMessage)))
    requires !Text.IsBlank(input) && TotalCost(input, model) <= budget
    ensures Proxy.HandleTts(req, header, default, upstream, sample) == Proxy.JsonBody(400, Proxy.ErrorBody(Str(Proxy.MissingFieldsMessage)))
    ensures GenerateOutcome(input, false, budget, model, voiceName, d, counter) == Failed(Plain(Proxy.MissingFieldsMessage), false)
  {
    ProxyTtsErrorReachesUser(req, header, default, upstream, sample, 400, Proxy.ErrorBody(Str(Proxy.MissingFieldsMessage)),
                             d.reply.bodyText, d, input, false, budget, model, voiceName, counter,
                             GenerateOutcome(input, false, budget, model, voiceName, d, counter));
  }
}
