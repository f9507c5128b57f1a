/**
 * sendGimpedPayload.ts: the envelope of an event posted to one fixed
 * endpoint, as JSON, with the no-secret signature.
 */
module GimpedPayload {
  import opened Wrappers
  import opened Json
  import opened Platform
  import opened WebhookEnvelope
  import SchedulePayload

  const SubscriberUrl := "https://calcom-webhooks.porter.oneshop.com/api/webhook"

  /** The request `sendGimpedPayload` hands to fetch. */
  function GimpedRequest(formatNumber: real -> NonEmptyString, triggerEvent: string, createdAt: string, data: Json): (req: Request)
    ensures req.url == SubscriberUrl && req.verb == "POST"
    ensures Header(req, ContentTypeHeader) == Some("application/json")
    ensures Header(req, SignatureHeader) == Some(NoSecretSignature)
    ensures req.body == Serialize(formatNumber, Envelope(triggerEvent, createdAt, data)) && req.body != ""
  {
    var body := Serialize(formatNumber, Envelope(triggerEvent, createdAt, data));
    WebhookHeaders(SubscriberUrl, ApplicationJson, NoSecretSignature, body);
    Request(SubscriberUrl, "POST", Headers(ApplicationJson, NoSecretSignature), body)
  }

  /** `sendGimpedPayload`: post the request and settle the response. */
  function SendGimpedPayload(rt: Runtime, triggerEvent: string, createdAt: string, data: Json): (r: Result<Delivery, SendError>)
    ensures r.Success? <==> rt.fetch(GimpedRequest(rt.formatNumber, triggerEvent, createdAt, data)).Responded?
    ensures r.Failure? ==> r.error.FetchFailed?
  {
    Settle(rt.fetch(GimpedRequest(rt.formatNumber, triggerEvent, createdAt, data)))
  }

  /** Only the body depends on the event: any two requests have the same
      URL, method and headers. */
  lemma GimpedRequestsDifferOnlyInBody(formatNumber: real -> NonEmptyString, t1: string, c1: string, d1: Json,
                                       t2: string, c2: string, d2: Json)
    ensures var r1 := GimpedRequest(formatNumber, t1, c1, d1);
            var r2 := GimpedRequest(formatNumber, t2, c2, d2);
            r1.url == r2.url && r1.verb == r2.verb && r1.headers == r2.headers
  {
  }

  /** Any HTTP response, whatever its status, resolves to a record carrying
      its `ok`, status and text. */
  lemma GimpedResponseIsNotAnError(rt: Runtime, triggerEvent: string, createdAt: string, data: Json)
    requires rt.fetch(GimpedRequest(rt.formatNumber, triggerEvent, createdAt, data)).Responded?
    ensures var fetched := rt.fetch(GimpedRequest(rt.formatNumber, triggerEvent, createdAt, data));
            SendGimpedPayload(rt, triggerEvent, createdAt, data) == Success(Delivery(fetched.ok, fetched.status, fetched.text))
  {
  }

  /** The body is the same envelope a schedule webhook without a template
      gets for the same event, time and data. */
  lemma GimpedBodyIsDefaultScheduleBody(rt: Runtime, triggerEvent: string, createdAt: string, data: SchedulePayload.ScheduleData)
    ensures SchedulePayload.RenderSchedulePayload(rt, triggerEvent, createdAt, None, data)
         == Success(SchedulePayload.Rendered(GimpedRequest(rt.formatNumber, triggerEvent, createdAt, SchedulePayload.ScheduleDataJson(data)).body, ApplicationJson))
  {
  }
}
