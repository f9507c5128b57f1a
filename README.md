# Schedule webhook dispatch, modelled in Dafny

This project models how cal.com delivers a schedule webhook. When a schedule
event fires, `handleScheduleWebhookTrigger` asks the subscriber resolver for
the matching webhooks. It then sends the payload to each one, and each send
has its own error handler. For each subscriber, `sendSchedulePayload` does
the following:

- picks a content type from the subscriber's template;
- renders the body, either as the JSON envelope `{triggerEvent, createdAt, payload}` or through the Handlebars template;
- turns `&quot;` back into `"`;
- re-serializes the body when the content type is JSON;
- checks that the URL and the body are set;
- signs the body with HMAC-SHA256 when there is a secret, and otherwise uses the sentinel `no-secret-provided`;
- posts the request and returns the response's `ok`, status and text.

`sendGimpedPayload` is the fixed-endpoint variant: it posts the envelope as
JSON to one constant URL, always with the sentinel signature.

Everything is pure here, so the model is made of datatypes, functions and
lemmas:

- `wrappers.dfy`: `Option` and `Result`, the latter for errors that are thrown.
- `json.dfy`: JSON values and JavaScript truthiness on them. It also holds
  `JSON.stringify`, written out as section 25.5.2 of ECMA-262 defines it
  (objects, arrays, literals, and string quoting with its escapes). The text of
  a number is the one thing left to the runtime.
- `platform.dfy`: the outgoing request, its headers and the settled response.
  `Runtime` is a record of the foreign calls as plain functions, and nothing is
  assumed about them: Handlebars `compile(template)(data)`, which may throw;
  `JSON.parse`, which may fail; number formatting; `createHmac("sha256", key)`
  in hex; and `fetch`, which may fail with a network error.
- `envelope.dfy`: the default body.
- `schedule_payload.dfy`: `sendSchedulePayload.ts`.
- `schedule_trigger.dfy`: `handleScheduleWebhookTrigger.ts`.
- `gimped_payload.dfy`: `sendGimpedPayload.ts`.

Four behaviours of the code are easy to misread; the model follows the code:

- The content type is chosen from the RAW template: JSON when the template
  parses to a truthy value. It is not chosen from the interpolated output.
- In JSON mode, an interpolated output that does not parse is sent as the body
  `false`. It is not sent form-encoded.
- `createdAt` is read from the clock once per subscriber, not once per
  dispatch. Here it is `clock(i)` for the i-th subscriber.
- Only `&quot;` is undone after Handlebars' HTML escaping. Its other entities
  (`&amp;`, `&lt;`, `&#x27;`, …) stay in the body.

## Model

| member | source | states |
|---|---|---|
| `Json.Truthy` | packages/features/webhooks/lib/sendSchedulePayload.ts:47 | a parsed JSON value is falsy exactly when it is null, false, 0 or "" |
| `Json.Serialize` | packages/features/webhooks/lib/sendSchedulePayload.ts:23 | JSON.stringify of any JSON value is a non-empty text |
| `WebhookEnvelope.Envelope` | packages/features/webhooks/lib/sendSchedulePayload.ts:54-58 | the envelope has exactly the keys triggerEvent, createdAt, payload, in that order, holding the event, the time and the data unchanged |
| `SchedulePayload.ScheduleDataJson` | packages/features/webhooks/lib/sendSchedulePayload.ts:7-15 | the schedule data is an object with all seven fields of ScheduleWebhookDataType |
| `SchedulePayload.ScheduleDataJsonLosesNothing` | packages/features/webhooks/lib/sendSchedulePayload.ts:7-15 | different schedule data give different JSON objects: the payload determines id, userId, name and timeZone |
| `SchedulePayload.UnescapeQuotes` | packages/features/webhooks/lib/sendSchedulePayload.ts:20 | the replacement never lengthens the text |
| `SchedulePayload.UnescapeLeavesNoEntity` | packages/features/webhooks/lib/sendSchedulePayload.ts:20 | after the global replace no `&quot;` is left in the text, not even one spelled across a replaced entity |
| `SchedulePayload.UnescapeKeepsEntityFreeText` | packages/features/webhooks/lib/sendSchedulePayload.ts:20 | text with no `&quot;` is left unchanged |
| `SchedulePayload.UnescapeAtEntity` | packages/features/webhooks/lib/sendSchedulePayload.ts:20 | every `&quot;` becomes `"`: the replace splits at any occurrence, whatever surrounds it |
| `SchedulePayload.UnescapeUndoesEncode` | packages/features/webhooks/lib/sendSchedulePayload.ts:20 | the replace undoes the escaping of double quotes as `&quot;` for any text that held no `&quot;` before |
| `SchedulePayload.JsonParse` | packages/features/webhooks/lib/sendSchedulePayload.ts:28-35 | jsonParse never fails: it gives the parsed value, and false exactly when parsing fails or the text parses to `false` |
| `SchedulePayload.SelectContentType` | packages/features/webhooks/lib/sendSchedulePayload.ts:46-47 | JSON exactly when there is no template (null or "") or the raw template parses to a truthy value; otherwise form-encoded |
| `SchedulePayload.ApplyScheduleTemplate` | packages/features/webhooks/lib/sendSchedulePayload.ts:17-26 | a template error is thrown exactly when Handlebars throws; form body is the unescaped output; JSON body is the re-serialization of jsonParse of the unescaped output and is never empty |
| `SchedulePayload.RenderSchedulePayload` | packages/features/webhooks/lib/sendSchedulePayload.ts:44-59 | without a template the body is the serialized envelope sent as JSON; with one it is the template applied under the selected content type; the content type is the one selected from the template; a JSON body is never empty; rendering fails only when the template throws |
| `SchedulePayload.UnparsableTemplateOutputSendsFalse` | packages/features/webhooks/lib/sendSchedulePayload.ts:20-24 | with JSON content type, template output that does not parse yields the body `false` |
| `SchedulePayload.ParsedTemplateOutputIsReserialized` | packages/features/webhooks/lib/sendSchedulePayload.ts:20-24 | with JSON content type, template output that parses to a value is sent as JSON.stringify of that value |
| `SchedulePayload.FormBodyIsTemplateOutput` | packages/features/webhooks/lib/sendSchedulePayload.ts:20-25 | with the form content type the body is the unescaped template output, which holds no `&quot;` |
| `SchedulePayload.BuildRequest` | packages/features/webhooks/lib/sendSchedulePayload.ts:83-99 | "Missing required elements" exactly when URL or body is empty; otherwise a POST to the URL with the body, the content type header, and the HMAC of the body under a non-empty secret or `no-secret-provided` |
| `SchedulePayload.Sign` | packages/features/webhooks/lib/sendSchedulePayload.ts:88-90 | the signature is the hex HMAC-SHA256 of the body under a non-empty secret, and `no-secret-provided` when the secret is missing or empty |
| `SchedulePayload.SendPayload` | packages/features/webhooks/lib/sendSchedulePayload.ts:75-108 | an empty URL or body raises the missing-elements error; otherwise the outcome is what fetch gives for the signed request, settled; the only errors are these two |
| `SchedulePayload.MissingElementsBeforeFetch` | packages/features/webhooks/lib/sendSchedulePayload.ts:83-92 | the missing-elements error does not depend on fetch at all, because it comes before the network call |
| `SchedulePayload.ResponseStatusIsNotAnError` | packages/features/webhooks/lib/sendSchedulePayload.ts:92-107 | any HTTP response, whatever its status, resolves to its ok flag, status and text; only a network error rejects |
| `SchedulePayload.SendSchedulePayload` | packages/features/webhooks/lib/sendSchedulePayload.ts:37-62 | a template error is raised exactly when the subscriber has a template and Handlebars throws on it |
| `SchedulePayload.MissingElementsCases` | packages/features/webhooks/lib/sendSchedulePayload.ts:46-86 | with no template or a JSON template the missing-elements error arises exactly for an empty URL; with a form template also when the unescaped output is empty |
| `SchedulePayload.SignatureCoversSentBody` | packages/features/webhooks/lib/sendSchedulePayload.ts:88-98 | the signature header is the HMAC of exactly the body sent (or the sentinel when there is no secret), and the content type header is the selected type |
| `SchedulePayload.SendGenericWebhookPayload` | packages/features/webhooks/lib/sendSchedulePayload.ts:64-73 | the body is the data serialized without envelope, sent as JSON; the missing-elements error arises exactly for an empty URL |
| `Platform.Settle` | packages/features/webhooks/lib/sendSchedulePayload.ts:101-107 | the send resolves exactly when fetch gave a response, copying its ok, status and text; a network error is rethrown |
| `Platform.WebhookHeaders` | packages/features/webhooks/lib/sendSchedulePayload.ts:92-97 | a webhook POST carries its content type as Content-Type and its signature as X-Cal-Signature-256 |
| `ScheduleTrigger.SendTo` | packages/features/bookings/lib/handleScheduleWebhookTrigger.ts:17-22 | a subscriber's send is recorded under its own URL; it fails with a template error exactly when its template is set and Handlebars throws on it; an empty URL always fails |
| `ScheduleTrigger.FanOut` | packages/features/bookings/lib/handleScheduleWebhookTrigger.ts:16-30 | one settled send per subscriber and no other, in order: the i-th is the callback applied to subscriber i and the i-th clock reading |
| `ScheduleTrigger.HandleScheduleWebhookTrigger` | packages/features/bookings/lib/handleScheduleWebhookTrigger.ts:13-34 | the handler always returns; a resolver failure is caught with no sends; otherwise exactly one send per resolved subscriber, the i-th with subscriber i's secret and webhook, its own timestamp, and the shared trigger and data |
| `ScheduleTrigger.FailureLog` | packages/features/bookings/lib/handleScheduleWebhookTrigger.ts:23-28 | exactly as many log lines as failed sends, each naming the event trigger and the URL and error of a failed send; empty exactly when every send succeeded |
| `ScheduleTrigger.FailedSendLine` | packages/features/bookings/lib/handleScheduleWebhookTrigger.ts:16-28 | the line of a failed send sits in the log at the position given by the number of failed sends before it, with the event trigger, its URL and its error |
| `ScheduleTrigger.FailedSendsAreLogged` | packages/features/bookings/lib/handleScheduleWebhookTrigger.ts:16-28 | every failed send has its own log line, at the position given by the failures before it, with the event trigger, its URL and its error |
| `ScheduleTrigger.Log` | packages/features/bookings/lib/handleScheduleWebhookTrigger.ts:23-33 | a resolver failure logs exactly one handler error; otherwise one webhook-failure line per failed send, each for the event trigger |
| `ScheduleTrigger.ResolverFailureSendsNothing` | packages/features/bookings/lib/handleScheduleWebhookTrigger.ts:31-33 | a resolver failure sends nothing and logs once |
| `ScheduleTrigger.NoSubscribersNoSends` | packages/features/bookings/lib/handleScheduleWebhookTrigger.ts:14-30 | zero subscribers means zero sends and nothing logged |
| `ScheduleTrigger.FailureIsolation` | packages/features/bookings/lib/handleScheduleWebhookTrigger.ts:16-30 | replacing one subscriber, however its send ends, leaves every other subscriber's settled send unchanged |
| `ScheduleTrigger.EachSendUsesItsSubscriber` | packages/features/bookings/lib/handleScheduleWebhookTrigger.ts:17-22 | a send that reaches fetch goes to that subscriber's URL, is signed with that subscriber's secret, and settles as fetch answers |
| `ScheduleTrigger.LogHasOneLinePerFailedSend` | packages/features/bookings/lib/handleScheduleWebhookTrigger.ts:16-28 | the handler's log is empty exactly when all sends succeeded, has as many lines as failed sends, and holds, for every failed subscriber, a line with the event, that subscriber's URL and its error |
| `ScheduleTrigger.LogNamesFailedSends` | packages/features/bookings/lib/handleScheduleWebhookTrigger.ts:16-28 | each line of the handler's log names the event and the URL of a subscriber whose send failed with that line's error |
| `GimpedPayload.GimpedRequest` | packages/features/webhooks/lib/sendGimpedPayload.ts:6-29 | always a POST to SUBSCRIBER_URL with Content-Type application/json and signature `no-secret-provided`; the body is the serialized envelope and never empty |
| `GimpedPayload.SendGimpedPayload` | packages/features/webhooks/lib/sendGimpedPayload.ts:12-38 | resolves exactly when fetch gave a response; the only error is a fetch failure |
| `GimpedPayload.GimpedRequestsDifferOnlyInBody` | packages/features/webhooks/lib/sendGimpedPayload.ts:15-27 | URL, method and headers are the same whatever the event, time or data |
| `GimpedPayload.GimpedResponseIsNotAnError` | packages/features/webhooks/lib/sendGimpedPayload.ts:32-38 | any HTTP response resolves to its ok flag, status and text |
| `GimpedPayload.GimpedBodyIsDefaultScheduleBody` | packages/features/webhooks/lib/sendGimpedPayload.ts:6-10 | the body is the same envelope a schedule webhook without a template gets |

## Left out

- Handlebars, `JSON.parse`, number-to-text conversion, `crypto.createHmac` and `fetch` are foreign calls. They are functions of the `Runtime` record, and nothing is assumed about them. No property of HMAC and no parse/serialize round trip is claimed.
- `Promise.all` concurrency: the sends are listed in subscriber order. No send shares state with another, so only the order of log lines could differ. `FailureLog` lists those lines in subscriber order, and that order is not a claim about the source.
- The clock (`new Date().toISOString()`) is a parameter: `clock(i)` is the time read for the i-th subscriber.
- `getWebhooks` is not part of this model. Its result is an input: the subscriber list, or the error it threw.
- Logging is modelled as log entries only. The exact message text and the error objects passed to `console.error` and `logger.error` are not modelled.
- `handleGimpedWebhookTrigger.ts`, the API route handlers and the mobile availability page are not part of this model. They are callers with no dispatch logic of their own.
- `appId` is carried in `Webhook` but unused, as in the source. The `triggerEvent` and `createdAt` arguments of `_sendPayload` are unused in the source and are dropped.
- Payload data of type `any` or `Record<string, unknown>` is modelled as a JSON value. `undefined` members, functions, BigInt (on which JSON.stringify throws) and cyclic objects are not represented.
- `ScheduleDataJson`: lists the seven fields in the order ScheduleWebhookDataType declares them. JSON.stringify uses the caller's insertion order, and the callers that build the data are not part of this model.
- Non-finite numbers (`JSON.parse("1e400")` gives Infinity) have no `real` in `Json`. This is sound only because number text comes from the runtime's unconstrained formatting function, which may give `null`.
- JavaScript puts integer-like object keys first. An object's members are held in its enumeration order, and every key built here is non-numeric.
- JavaScript strings are UTF-16. Lone surrogates, and their `\u` escapes in JSON.stringify, cannot occur with Dafny characters.
- A failure of `response.text()` is folded into the fetch's network error.
