/**
 * What the Node runtime and the libraries provide to the webhook code: the
 * outgoing HTTP request and its response, and the foreign calls the code
 * makes (Handlebars, JSON.parse, number formatting, HMAC, fetch), gathered in
 * a `Runtime` record of functions about which nothing is assumed.
 */
module Platform {
  import opened Wrappers
  import opened Json

  /** The two content types a webhook body is sent with. */
  datatype ContentType = ApplicationJson | FormUrlEncoded

  function MediaType(ct: ContentType): string
  {
    match ct
    case ApplicationJson => "application/json"
    case FormUrlEncoded => "application/x-www-form-urlencoded"
  }

  const ContentTypeHeader := "Content-Type"
  const SignatureHeader := "X-Cal-Signature-256"
  /** The signature sent when there is no secret to sign with. */
  const NoSecretSignature := "no-secret-provided"

  /** The arguments of one `fetch` call. */
  datatype Request = Request(url: string, verb: string, headers: seq<(string, string)>, body: string)

  /** The header record every webhook request carries. */
  function Headers(ct: ContentType, signature: string): seq<(string, string)>
  {
    [(ContentTypeHeader, MediaType(ct)), (SignatureHeader, signature)]
  }

  /** The value of the first header called `name`. */
  function Header(req: Request, name: string): Option<string>
  {
    HeaderIn(req.headers, name)
  }

  function HeaderIn(headers: seq<(string, string)>, name: string): Option<string>
  {
    if headers == [] then None
    else if headers[0].0 == name then Some(headers[0].1)
    else HeaderIn(headers[1..], name)
  }

  /** A POST with the webhook headers names its content type and signature. */
  lemma WebhookHeaders(url: string, ct: ContentType, signature: string, body: string)
    ensures Header(Request(url, "POST", Headers(ct, signature), body), ContentTypeHeader) == Some(MediaType(ct))
    ensures Header(Request(url, "POST", Headers(ct, signature), body), SignatureHeader) == Some(signature)
  {
    var hs := Headers(ct, signature);
    assert SignatureHeader != ContentTypeHeader by { assert |ContentTypeHeader| != |SignatureHeader|; }
    assert HeaderIn(hs, SignatureHeader) == HeaderIn(hs[1..], SignatureHeader);
  }

  /** What awaiting `fetch` and then `response.text()` gives: a response
      (whatever its status), or a thrown network error. */
  datatype FetchResult = Responded(ok: bool, status: int, text: string) | NetworkError(reason: string)

  /** What a send can throw. */
  datatype SendError =
    | MissingElements          // "Missing required elements to send webhook payload."
    | TemplateError(reason: string)
    | FetchFailed(reason: string)

  /** The record a send resolves to. */
  datatype Delivery = Delivery(ok: bool, status: int, message: string)

  /** Turns what fetch gave into the send's outcome: any HTTP response, 2xx or
      not, resolves to a record copying its `ok`, status and text; only a
      network error is thrown. */
  function Settle(fetched: FetchResult): (r: Result<Delivery, SendError>)
    ensures r.Success? <==> fetched.Responded?
    ensures r.Success? ==> r.value.ok == fetched.ok && r.value.status == fetched.status && r.value.message == fetched.text
    ensures r.Failure? ==> r.error == FetchFailed(fetched.reason)
  {
    match fetched
    case Responded(ok, status, text) => Success(Delivery(ok, status, text))
    case NetworkError(reason) => Failure(FetchFailed(reason))
  }

  /** The foreign calls, as functions of their arguments:
      - compile(template, data): Handlebars' `compile(template)(data)`, which
        throws on a malformed template;
      - parse(text): JSON.parse, None where it throws;
      - formatNumber(n): the text JSON.stringify writes for a finite number;
      - hmacSha256Hex(key, message): `createHmac("sha256", key).update(message).digest("hex")`;
      - fetch(request): the response to the request, or a network error. */
  datatype Runtime = Runtime(
    compile: (string, Json) -> Result<string, string>,
    parse: string -> Option<Json>,
    formatNumber: real -> NonEmptyString,
    hmacSha256Hex: (string, string) -> string,
    fetch: Request -> FetchResult)
}
