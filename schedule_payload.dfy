/**
 * sendSchedulePayload.ts: how a schedule event is rendered for one webhook
 * (content type, body), checked, signed and handed to fetch.
 */
module SchedulePayload {
  import opened Wrappers
  import opened Json
  import opened Platform
  import opened WebhookEnvelope

  /** ScheduleWebhookDataType.  Its `user`, `eventType` and `availability`
      fields are always null. */
  datatype ScheduleData = ScheduleData(id: Option<int>, userId: Option<int>, name: Option<string>, timeZone: Option<string>)

  function NumberOrNull(x: Option<int>): Json
  {
    match x
    case Some(n) => JNum(n as real)
    case None => JNull
  }

  function StringOrNull(x: Option<string>): Json
  {
    match x
    case Some(s) => JStr(s)
    case None => JNull
  }

  /** The schedule data as the JSON object handed to Handlebars and to
      JSON.stringify: all seven fields, the always-null ones as null. */
  function ScheduleDataJson(d: ScheduleData): (v: Json)
    ensures v.JObj? && Keys(v.members) == ["id", "user", "userId", "eventType", "name", "timeZone", "availability"]
  {
    JObj([("id", NumberOrNull(d.id)), ("user", JNull), ("userId", NumberOrNull(d.userId)),
          ("eventType", JNull), ("name", StringOrNull(d.name)), ("timeZone", StringOrNull(d.timeZone)),
          ("availability", JNull)])
  }

  /** The conversion to JSON loses nothing: different schedule data give
      different objects, so the payload determines the data it came from. */
  lemma ScheduleDataJsonLosesNothing(d1: ScheduleData, d2: ScheduleData)
    requires ScheduleDataJson(d1) == ScheduleDataJson(d2)
    ensures d1 == d2
  {
    var m1, m2 := ScheduleDataJson(d1).members, ScheduleDataJson(d2).members;
    assert m1[0].1 == m2[0].1 && m1[2].1 == m2[2].1 && m1[4].1 == m2[4].1 && m1[5].1 == m2[5].1;
  }

  /** The fields of a webhook record the send reads. */
  datatype Webhook = Webhook(subscriberUrl: string, appId: Option<string>, payloadTemplate: Option<string>)

  /** JavaScript truthiness of a `string | null`: set and not empty. */
  predicate Present(s: Option<string>)
  {
    s.Some? && s.value != ""
  }

  // ---------------------------------------------------------------------
  // The `&quot;` clean-up after Handlebars

  const QuotEntity := "&quot;"

  /** `s` holds `&quot;` starting at index i. */
  predicate EntityAt(s: string, i: int)
  {
    0 <= i && i + 6 <= |s| && s[i..i + 6] == QuotEntity
  }

  predicate HasEntity(s: string)
  {
    exists i :: 0 <= i <= |s| && EntityAt(s, i)
  }

  /** `s.replace(/&quot;/g, '"')`: scanning left to right, each `&quot;` is
      replaced by a double quote and the scan resumes after it. */
  function UnescapeQuotes(s: string): (r: string)
    ensures |r| <= |s|
  {
    if |s| < 6 then s
    else if s[..6] == QuotEntity then "\"" + UnescapeQuotes(s[6..])
    else [s[0]] + UnescapeQuotes(s[1..])
  }

  /** `t` starts with `p`. */
  predicate StartsWith(t: string, p: string)
  {
    |p| <= |t| && t[..|p|] == p
  }

  /** Unescaping cannot create a prefix free of double quotes: if the text
      does not start with one, neither does its unescaped form. */
  lemma {:induction false} UnescapeKeepsMissingPrefix(t: string, p: string)
    requires forall k :: 0 <= k < |p| ==> p[k] != '"'
    requires !StartsWith(t, p)
    ensures !StartsWith(UnescapeQuotes(t), p)
  {
    if p != [] && |t| >= 6 {
      var r := UnescapeQuotes(t);
      if t[..6] == QuotEntity {
        assert r[0] == '"' != p[0];
      } else if t[0] != p[0] {
        assert r[0] == t[0];
      } else {
        assert !StartsWith(t[1..], p[1..]) by {
          if |p| <= |t| {
            assert t[..|p|] == [t[0]] + t[1..][..|p| - 1];
            assert p == [p[0]] + p[1..];
          }
        }
        UnescapeKeepsMissingPrefix(t[1..], p[1..]);
        assert r == [t[0]] + UnescapeQuotes(t[1..]);
        if |p| <= |r| {
          assert r[..|p|][1..] == UnescapeQuotes(t[1..])[..|p| - 1];
        }
      }
    }
  }

  /** After the replacement no `&quot;` is left, even where one could be
      spelled across a replaced entity. */
  lemma {:induction false} UnescapeLeavesNoEntity(s: string)
    ensures !HasEntity(UnescapeQuotes(s))
  {
    var r := UnescapeQuotes(s);
    if |s| >= 6 {
      var k := if s[..6] == QuotEntity then 6 else 1;
      var rest := UnescapeQuotes(s[k..]);
      UnescapeLeavesNoEntity(s[k..]);
      assert r == r[..1] + rest;
      forall i | 0 <= i <= |r| ensures !EntityAt(r, i) {
        if i == 0 {
          if k == 6 {
            assert r[0] == '"';
          } else if s[0] != '&' {
            assert r[0] == s[0];
          } else {
            assert s[..6] == [s[0]] + s[1..][..5];
            assert !StartsWith(s[1..], "quot;");
            UnescapeKeepsMissingPrefix(s[1..], "quot;");
            if |r| >= 6 {
              assert r[..6] == [s[0]] + rest[..5];
              assert rest[..5] != "quot;";
              assert QuotEntity == ['&'] + "quot;";
            }
          }
        } else if i + 6 <= |r| {
          assert r[i..i + 6] == rest[i - 1..i + 5];
          assert !EntityAt(rest, i - 1);
        }
      }
    }
  }

  /** Text without `&quot;` is left as it is. */
  lemma {:induction false} UnescapeKeepsEntityFreeText(s: string)
    requires !HasEntity(s)
    ensures UnescapeQuotes(s) == s
  {
    if |s| >= 6 {
      assert !EntityAt(s, 0);
      NoEntityInTail(s);
      UnescapeKeepsEntityFreeText(s[1..]);
      assert s == [s[0]] + s[1..];
    }
  }

  lemma NoEntityInTail(s: string)
    requires s != [] && !HasEntity(s)
    ensures !HasEntity(s[1..])
  {
    forall i | 0 <= i <= |s[1..]| ensures !EntityAt(s[1..], i) {
      assert !EntityAt(s, i + 1);
      if i + 6 <= |s[1..]| {
        assert s[1..][i..i + 6] == s[i + 1..i + 7];
      }
    }
  }

  /** Every `&quot;` becomes a double quote: the replacement splits at each
      occurrence, whatever precedes and follows it. */
  lemma {:induction false} UnescapeAtEntity(a: string, b: string)
    ensures UnescapeQuotes(a + QuotEntity + b) == UnescapeQuotes(a) + "\"" + UnescapeQuotes(b)
  {
    var x := a + QuotEntity + b;
    if a == [] {
      assert x == QuotEntity + b;
      assert x[..6] == QuotEntity && x[6..] == b;
    } else if |a| >= 6 && a[..6] == QuotEntity {
      assert x[..6] == QuotEntity;
      assert x[6..] == a[6..] + QuotEntity + b;
      UnescapeAtEntity(a[6..], b);
    } else {
      assert x[..6] != QuotEntity by {
        if |a| < 6 {
          assert x[|a|] == '&';
          assert QuotEntity[|a|] != '&';
        } else {
          assert x[..6] == a[..6];
        }
      }
      assert x[1..] == a[1..] + QuotEntity + b;
      UnescapeAtEntity(a[1..], b);
      if |a| < 6 {
        assert UnescapeQuotes(a[1..]) == a[1..];
        assert a == [a[0]] + a[1..];
      }
    }
  }

  /** Handlebars' escaping of double quotes in an interpolated value. */
  function EncodeQuotes(s: string): (r: string)
    ensures |r| >= |s|
  {
    if s == [] then [] else (if s[0] == '"' then QuotEntity else [s[0]]) + EncodeQuotes(s[1..])
  }

  /** Encoding cannot create a prefix free of `&`: if the text does not
      start with one, neither does its encoded form. */
  lemma {:induction false} EncodeKeepsMissingPrefix(t: string, p: string)
    requires forall k :: 0 <= k < |p| ==> p[k] != '&'
    requires !StartsWith(t, p)
    ensures !StartsWith(EncodeQuotes(t), p)
  {
    if p != [] && t != [] {
      var r := EncodeQuotes(t);
      if t[0] == '"' {
        assert r[0] == '&' != p[0];
      } else if t[0] != p[0] {
        assert r[0] == t[0];
      } else {
        assert !StartsWith(t[1..], p[1..]) by {
          if |p| <= |t| {
            assert t[..|p|] == [t[0]] + t[1..][..|p| - 1];
            assert p == [p[0]] + p[1..];
          }
        }
        EncodeKeepsMissingPrefix(t[1..], p[1..]);
        assert r == [t[0]] + EncodeQuotes(t[1..]);
        if |p| <= |r| {
          assert r[..|p|][1..] == EncodeQuotes(t[1..])[..|p| - 1];
        }
      }
    }
  }

  /** A character that does not begin `&quot;` is copied and the scan moves on. */
  lemma UnescapeCons(c: char, t: string)
    requires !StartsWith([c] + t, QuotEntity)
    ensures UnescapeQuotes([c] + t) == [c] + UnescapeQuotes(t)
  {
  }

  /** Encoding a text that does not begin with `&quot;` and does not begin
      with a double quote gives a text that does not begin with `&quot;`. */
  lemma EncodedHead(s: string)
    requires s != [] && s[0] != '"' && !EntityAt(s, 0)
    ensures !StartsWith([s[0]] + EncodeQuotes(s[1..]), QuotEntity)
  {
    var e := EncodeQuotes(s[1..]);
    var x := [s[0]] + e;
    if s[0] != '&' {
      assert x[0] == s[0];
    } else if |x| >= 6 {
      if |s| >= 6 {
        assert s[..6] == [s[0]] + s[1..][..5];
      }
      assert !StartsWith(s[1..], "quot;");
      EncodeKeepsMissingPrefix(s[1..], "quot;");
      assert x[..6][1..] == e[..5] != "quot;" == QuotEntity[1..];
    }
  }

  /** The clean-up undoes Handlebars' escaping of double quotes in any text
      that did not already hold `&quot;`. */
  lemma {:induction false} UnescapeUndoesEncode(s: string)
    requires !HasEntity(s)
    ensures UnescapeQuotes(EncodeQuotes(s)) == s
  {
    if s != [] {
      NoEntityInTail(s);
      UnescapeUndoesEncode(s[1..]);
      var e := EncodeQuotes(s[1..]);
      if s[0] == '"' {
        assert EncodeQuotes(s) == [] + QuotEntity + e;
        UnescapeAtEntity([], e);
      } else {
        assert EncodeQuotes(s) == [s[0]] + e;
        assert !EntityAt(s, 0);
        EncodedHead(s);
        UnescapeCons(s[0], e);
        assert s == [s[0]] + s[1..];
      }
    }
  }

  // ---------------------------------------------------------------------
  // Content type and body

  /** `jsonParse`: JSON.parse that never throws, giving `false` when the text
      does not parse, so a failure and the text `false` look alike. */
  function JsonParse(rt: Runtime, text: string): (v: Json)
    ensures rt.parse(text).Some? ==> v == rt.parse(text).value
    ensures v == JBool(false) <==> rt.parse(text) == None || rt.parse(text) == Some(JBool(false))
  {
    match rt.parse(text)
    case Some(v) => v
    case None => JBool(false)
  }

  /** The content type is JSON exactly when there is no template, or when the
      raw template parses as JSON to a truthy value; a template that does not
      parse, or parses to false, 0, null or "", makes the body form-encoded. */
  function SelectContentType(rt: Runtime, template: Option<string>): (ct: ContentType)
    ensures ct == ApplicationJson <==>
      !Present(template) || (rt.parse(template.value).Some? && Truthy(rt.parse(template.value).value))
  {
    if !Present(template) || Truthy(JsonParse(rt, template.value)) then ApplicationJson else FormUrlEncoded
  }

  /** `applyScheduleTemplate`: Handlebars output with `&quot;` turned back into
      double quotes; for JSON, the output re-serialized after jsonParse. */
  function ApplyScheduleTemplate(rt: Runtime, template: string, data: ScheduleData, ct: ContentType): (r: Result<string, SendError>)
    ensures rt.compile(template, ScheduleDataJson(data)).Failure? <==> r.Failure?
    ensures r.Failure? ==> r.error == TemplateError(rt.compile(template, ScheduleDataJson(data)).error)
    ensures r.Success? && ct == FormUrlEncoded ==>
      r.value == UnescapeQuotes(rt.compile(template, ScheduleDataJson(data)).value)
    ensures r.Success? && ct == ApplicationJson ==> r.value != ""
    ensures r.Success? && ct == ApplicationJson ==>
      r.value == Serialize(rt.formatNumber, JsonParse(rt, UnescapeQuotes(rt.compile(template, ScheduleDataJson(data)).value)))
  {
    match rt.compile(template, ScheduleDataJson(data))
    case Failure(reason) => Failure(TemplateError(reason))
    case Success(text) =>
      var compiled := UnescapeQuotes(text);
      if ct == ApplicationJson then Success(Serialize(rt.formatNumber, JsonParse(rt, compiled)))
      else Success(compiled)
  }

  /** A body together with the content type it is sent with. */
  datatype Rendered = Rendered(body: string, contentType: ContentType)

  /** Lines 44-59 of `sendSchedulePayload`: the content type, then the body,
      from the template when there is one and the envelope otherwise. */
  function RenderSchedulePayload(rt: Runtime, triggerEvent: string, createdAt: string, template: Option<string>,
                                 data: ScheduleData): (r: Result<Rendered, SendError>)
    ensures r.Success? ==> r.value.contentType == SelectContentType(rt, template)
    ensures r.Failure? <==> Present(template) && rt.compile(template.value, ScheduleDataJson(data)).Failure?
    ensures r.Success? && r.value.contentType == ApplicationJson ==> r.value.body != ""
    ensures !Present(template) ==>
      r == Success(Rendered(Serialize(rt.formatNumber, Envelope(triggerEvent, createdAt, ScheduleDataJson(data))), ApplicationJson))
    ensures Present(template) && r.Success? ==>
      r.value.body == ApplyScheduleTemplate(rt, template.value, data, r.value.contentType).value
  {
    var ct := SelectContentType(rt, template);
    if Present(template) then
      match ApplyScheduleTemplate(rt, template.value, data, ct)
      case Failure(e) => Failure(e)
      case Success(body) => Success(Rendered(body, ct))
    else
      Success(Rendered(Serialize(rt.formatNumber, Envelope(triggerEvent, createdAt, ScheduleDataJson(data))), ct))
  }

  /** With JSON content type, a template whose output does not parse yields
      the body `false`. */
  lemma UnparsableTemplateOutputSendsFalse(rt: Runtime, triggerEvent: string, createdAt: string, template: string,
                                           data: ScheduleData, text: string)
    requires template != "" && SelectContentType(rt, Some(template)) == ApplicationJson
    requires rt.compile(template, ScheduleDataJson(data)) == Success(text)
    requires rt.parse(UnescapeQuotes(text)) == None
    ensures RenderSchedulePayload(rt, triggerEvent, createdAt, Some(template), data) == Success(Rendered("false", ApplicationJson))
  {
  }

  /** With JSON content type, a template whose cleaned-up output parses is
      sent as the re-serialization of what it parses to. */
  lemma ParsedTemplateOutputIsReserialized(rt: Runtime, triggerEvent: string, createdAt: string, template: string,
                                           data: ScheduleData, text: string, v: Json)
    requires template != "" && SelectContentType(rt, Some(template)) == ApplicationJson
    requires rt.compile(template, ScheduleDataJson(data)) == Success(text)
    requires rt.parse(UnescapeQuotes(text)) == Some(v)
    ensures RenderSchedulePayload(rt, triggerEvent, createdAt, Some(template), data) ==
      Success(Rendered(Serialize(rt.formatNumber, v), ApplicationJson))
  {
  }

  /** With the form content type, the body is the cleaned-up template output
      itself, holding no `&quot;`. */
  lemma FormBodyIsTemplateOutput(rt: Runtime, triggerEvent: string, createdAt: string, template: string,
                                 data: ScheduleData, text: string)
    requires SelectContentType(rt, Some(template)) == FormUrlEncoded
    requires rt.compile(template, ScheduleDataJson(data)) == Success(text)
    ensures RenderSchedulePayload(rt, triggerEvent, createdAt, Some(template), data) == Success(Rendered(UnescapeQuotes(text), FormUrlEncoded))
    ensures !HasEntity(RenderSchedulePayload(rt, triggerEvent, createdAt, Some(template), data).value.body)
  {
    UnescapeLeavesNoEntity(text);
  }

  // ---------------------------------------------------------------------
  // Checking, signing and sending

  /** `secretSignature`: the hex HMAC-SHA256 of the body under the secret when
      there is one, the sentinel otherwise. */
  function Sign(rt: Runtime, secretKey: Option<string>, body: string): (signature: string)
    ensures Present(secretKey) ==> signature == rt.hmacSha256Hex(secretKey.value, body)
    ensures !Present(secretKey) ==> signature == NoSecretSignature
  {
    if Present(secretKey) then rt.hmacSha256Hex(secretKey.value, body) else NoSecretSignature
  }

  /** The part of `_sendPayload` before the network: the check that URL and
      body are set, the signature and the request handed to fetch. */
  function BuildRequest(rt: Runtime, secretKey: Option<string>, subscriberUrl: string, body: string, ct: ContentType): (r: Result<Request, SendError>)
    ensures r.Failure? <==> subscriberUrl == "" || body == ""
    ensures r.Failure? ==> r.error == MissingElements
    ensures r.Success? ==> r.value.url == subscriberUrl && r.value.verb == "POST" && r.value.body == body
    ensures r.Success? ==> Header(r.value, ContentTypeHeader) == Some(MediaType(ct))
    ensures r.Success? && Present(secretKey) ==> Header(r.value, SignatureHeader) == Some(rt.hmacSha256Hex(secretKey.value, body))
    ensures r.Success? && !Present(secretKey) ==> Header(r.value, SignatureHeader) == Some(NoSecretSignature)
  {
    if subscriberUrl == "" || body == "" then Failure(MissingElements)
    else
      var signature := Sign(rt, secretKey, body);
      WebhookHeaders(subscriberUrl, ct, signature, body);
      Success(Request(subscriberUrl, "POST", Headers(ct, signature), body))
  }

  /** `_sendPayload`: build the request, fetch, and settle the response. */
  function SendPayload(rt: Runtime, secretKey: Option<string>, webhook: Webhook, body: string, ct: ContentType): (r: Result<Delivery, SendError>)
    ensures r.Failure? ==> r.error.MissingElements? || r.error.FetchFailed?
    ensures webhook.subscriberUrl == "" || body == "" ==> r == Failure(MissingElements)
    ensures webhook.subscriberUrl != "" && body != "" ==>
      r == Settle(rt.fetch(BuildRequest(rt, secretKey, webhook.subscriberUrl, body, ct).value))
  {
    match BuildRequest(rt, secretKey, webhook.subscriberUrl, body, ct)
    case Failure(e) => Failure(e)
    case Success(req) => Settle(rt.fetch(req))
  }

  /** The missing-elements error is raised before the network: the outcome
      does not depend on what fetch would do. */
  lemma MissingElementsBeforeFetch(rt: Runtime, fetch: Request -> FetchResult, secretKey: Option<string>,
                                   webhook: Webhook, body: string, ct: ContentType)
    requires webhook.subscriberUrl == "" || body == ""
    ensures SendPayload(rt, secretKey, webhook, body, ct) == SendPayload(rt.(fetch := fetch), secretKey, webhook, body, ct) == Failure(MissingElements)
  {
  }

  /** Any HTTP response, whatever its status, resolves to a record carrying
      the status and text; only a network error rejects. */
  lemma ResponseStatusIsNotAnError(rt: Runtime, secretKey: Option<string>, webhook: Webhook, body: string, ct: ContentType,
                                   req: Request)
    requires BuildRequest(rt, secretKey, webhook.subscriberUrl, body, ct) == Success(req)
    ensures rt.fetch(req).Responded? ==>
      SendPayload(rt, secretKey, webhook, body, ct) == Success(Delivery(rt.fetch(req).ok, rt.fetch(req).status, rt.fetch(req).text))
    ensures rt.fetch(req).NetworkError? ==>
      SendPayload(rt, secretKey, webhook, body, ct) == Failure(FetchFailed(rt.fetch(req).reason))
  {
  }

  /** `sendSchedulePayload`: render for the webhook, then `_sendPayload`. */
  function SendSchedulePayload(rt: Runtime, secretKey: Option<string>, triggerEvent: string, createdAt: string,
                               webhook: Webhook, data: ScheduleData): (r: Result<Delivery, SendError>)
    ensures r.Failure? && r.error.TemplateError? <==>
      Present(webhook.payloadTemplate) && rt.compile(webhook.payloadTemplate.value, ScheduleDataJson(data)).Failure?
  {
    match RenderSchedulePayload(rt, triggerEvent, createdAt, webhook.payloadTemplate, data)
    case Failure(e) => Failure(e)
    case Success(rendered) => SendPayload(rt, secretKey, webhook, rendered.body, rendered.contentType)
  }

  /** When the missing-elements error is raised: with no template, or with a
      JSON template, only for an empty URL, since a serialized body is never
      empty; with a form template, also when the cleaned-up output is empty. */
  lemma MissingElementsCases(rt: Runtime, secretKey: Option<string>, triggerEvent: string, createdAt: string,
                             webhook: Webhook, data: ScheduleData)
    ensures !Present(webhook.payloadTemplate) ==>
      (SendSchedulePayload(rt, secretKey, triggerEvent, createdAt, webhook, data) == Failure(MissingElements)
       <==> webhook.subscriberUrl == "")
    ensures Present(webhook.payloadTemplate) && SelectContentType(rt, webhook.payloadTemplate) == ApplicationJson
            && rt.compile(webhook.payloadTemplate.value, ScheduleDataJson(data)).Success? ==>
      (SendSchedulePayload(rt, secretKey, triggerEvent, createdAt, webhook, data) == Failure(MissingElements)
       <==> webhook.subscriberUrl == "")
    ensures Present(webhook.payloadTemplate) && SelectContentType(rt, webhook.payloadTemplate) == FormUrlEncoded
            && rt.compile(webhook.payloadTemplate.value, ScheduleDataJson(data)).Success? ==>
      (SendSchedulePayload(rt, secretKey, triggerEvent, createdAt, webhook, data) == Failure(MissingElements)
       <==> webhook.subscriberUrl == "" || UnescapeQuotes(rt.compile(webhook.payloadTemplate.value, ScheduleDataJson(data)).value) == "")
  {
  }

  /** The signature is computed over exactly the body that is sent, so the
      receiver can check it against the raw body it gets. */
  lemma SignatureCoversSentBody(rt: Runtime, secretKey: Option<string>, triggerEvent: string, createdAt: string,
                                webhook: Webhook, data: ScheduleData, rendered: Rendered, req: Request)
    requires RenderSchedulePayload(rt, triggerEvent, createdAt, webhook.payloadTemplate, data) == Success(rendered)
    requires BuildRequest(rt, secretKey, webhook.subscriberUrl, rendered.body, rendered.contentType) == Success(req)
    ensures SendSchedulePayload(rt, secretKey, triggerEvent, createdAt, webhook, data) == Settle(rt.fetch(req))
    ensures Present(secretKey) ==> Header(req, SignatureHeader) == Some(rt.hmacSha256Hex(secretKey.value, req.body))
    ensures !Present(secretKey) ==> Header(req, SignatureHeader) == Some(NoSecretSignature)
    ensures Header(req, ContentTypeHeader) == Some(MediaType(SelectContentType(rt, webhook.payloadTemplate)))
  {
  }

  /** `sendGenericWebhookPayload`: the data serialized as it is, with no
      envelope and no template, always as JSON. */
  function SendGenericWebhookPayload(rt: Runtime, secretKey: Option<string>, triggerEvent: string, createdAt: string,
                                     webhook: Webhook, data: Json): (r: Result<Delivery, SendError>)
    ensures r == Failure(MissingElements) <==> webhook.subscriberUrl == ""
    ensures webhook.subscriberUrl != "" ==>
      var req := Request(webhook.subscriberUrl, "POST", Headers(ApplicationJson, Sign(rt, secretKey, Serialize(rt.formatNumber, data))),
                         Serialize(rt.formatNumber, data));
      BuildRequest(rt, secretKey, webhook.subscriberUrl, Serialize(rt.formatNumber, data), ApplicationJson) == Success(req) &&
      r == Settle(rt.fetch(req))
  {
    SendPayload(rt, secretKey, webhook, Serialize(rt.formatNumber, data), ApplicationJson)
  }
}
