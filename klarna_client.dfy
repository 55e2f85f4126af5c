/** The request layer of server.js: the configuration fallbacks, `validateCredentials`, the outbound
    request that `makeKlarnaRequest` builds, and how it turns the provider's reply into a result or a
    thrown error. The network call itself is not modelled: its outcome is an input (`Fetched`), as
    are the outcome of `response.json()` (`BodyParse`) and `JSON.stringify` (`stringify`). */
module KlarnaClient {
  import opened Wrappers
  import opened JsonValues
  import opened Substrings

  const DefaultApiUrl: string := "https://api-na.playground.klarna.com"
  const CredentialsMissing: string := "Klarna credentials not configured"
  /** The message of the TypeError that reading `error_message` of a `null` body throws. */
  const NullBodyRead: string := "Cannot read properties of null (reading 'error_message')"

  datatype Config = Config(apiUrl: string, username: string, password: string)

  /** `process.env[name] || fallback`: an unset or empty variable takes the fallback. */
  function EnvOr(env: map<string, string>, name: string, fallback: string): string {
    if name in env && env[name] != "" then env[name] else fallback
  }

  /** The server's configuration, read once from the environment. */
  function ConfigFrom(env: map<string, string>): (c: Config)
    ensures "KLARNA_API_URL" in env && env["KLARNA_API_URL"] != "" ==> c.apiUrl == env["KLARNA_API_URL"]
    ensures "KLARNA_API_URL" !in env || env["KLARNA_API_URL"] == "" ==> c.apiUrl == DefaultApiUrl
    ensures "KLARNA_API_USERNAME" in env ==> c.username == env["KLARNA_API_USERNAME"]
    ensures "KLARNA_API_USERNAME" !in env ==> c.username == ""
    ensures "KLARNA_API_PASSWORD" in env ==> c.password == env["KLARNA_API_PASSWORD"]
    ensures "KLARNA_API_PASSWORD" !in env ==> c.password == ""
  {
    Config(EnvOr(env, "KLARNA_API_URL", DefaultApiUrl),
           EnvOr(env, "KLARNA_API_USERNAME", ""),
           EnvOr(env, "KLARNA_API_PASSWORD", ""))
  }

  predicate CredentialsConfigured(c: Config) {
    c.username != "" && c.password != ""
  }

  /** `validateCredentials()`: the message of the error it throws, if it throws. */
  function ValidateCredentials(c: Config): (err: Option<string>)
    ensures err.None? <==> CredentialsConfigured(c)
    ensures err.Some? ==> err.value == CredentialsMissing
  {
    if c.username == "" || c.password == "" then Some(CredentialsMissing) else None
  }

  datatype Method = Get | Post

  /** The `Authorization: Basic …` header made from the two credentials; its base64 text is not
      modelled. */
  datatype Authorization = Basic(username: string, password: string)

  datatype HttpRequest = HttpRequest(verb: Method, url: string, contentType: string,
                                     authorization: Authorization, body: Option<Json>)

  /** The request `makeKlarnaRequest` sends: the base URL joined to the endpoint, JSON content, Basic
      authorization, and the payload as body only when the payload is truthy. */
  function BuildRequest(c: Config, verb: Method, endpoint: string, payload: Option<Json>): (r: HttpRequest)
    ensures r.verb == verb && r.url == c.apiUrl + endpoint
    ensures r.contentType == "application/json" && r.authorization == Basic(c.username, c.password)
    ensures r.body.Some? <==> Present(payload)
    ensures r.body.Some? ==> r.body == payload
  {
    HttpRequest(verb, c.apiUrl + endpoint, "application/json", Basic(c.username, c.password),
                if Present(payload) then payload else None)
  }

  /** What `response.json()` gives: a value, or the error it throws. */
  datatype BodyParse = Parsed(value: Json) | Unparseable(error: string)

  /** A provider response; header names are lower case, as the Fetch API's `Headers` compares them. */
  datatype ProviderResponse = ProviderResponse(status: int, headers: map<string, string>, body: BodyParse)

  /** The outcome of `fetchWithTimeout`: a response, or the error the fetch rejects with (network
      failure, or the abort at the time limit). */
  datatype Fetched = Responded(response: ProviderResponse) | TransportFailure(error: string)

  /** What `makeKlarnaRequest` resolves with, or the message of the error it throws. */
  datatype Outcome = Ok(data: Json) | Fail(message: string)

  /** `response.ok`. */
  predicate IsOkStatus(status: int) {
    200 <= status <= 299
  }

  /** 201 Created or 204 No Content (sections 15.3.2 and 15.3.5 of RFC 9110): the statuses on which
      the order-management endpoints answer with an empty body. */
  predicate IsEmptyBodySuccess(status: int) {
    status == 201 || status == 204
  }

  /** `response.headers.get(name)`: the header's value, or `null`. */
  function HeaderValue(resp: ProviderResponse, name: string): Json {
    if name in resp.headers then JString(resp.headers[name]) else JNull
  }

  /** The body field `error_message` is present and truthy. */
  predicate HasErrorMessage(data: Json) {
    Present(Prop(Some(data), "error_message"))
  }

  /** The message of the error thrown for a non-ok response whose body parsed to `data`:
      `data.error_message || JSON.stringify(data)`, converted to a string by `new Error`; when that
      conversion throws, the TypeError's message is what the caller sees instead. */
  function ProviderErrorMessage(data: Json, stringify: Json -> string): string {
    if data == JNull then NullBodyRead
    else if HasErrorMessage(data) then
      match ToJsString(data.fields["error_message"])
      case Converted(text) => text
      case ConversionError(message) => message
    else stringify(data)
  }

  /** `await response.json()` as the result of the request. */
  function RelayBody(body: BodyParse): Outcome {
    match body
    case Parsed(v) => Ok(v)
    case Unparseable(e) => Fail(e)
  }

  datatype Action = Cancel | Capture | Refund

  /** The order-management action an endpoint names, tried in the order cancel, capture, refund. */
  function Classify(endpoint: string): Option<Action> {
    if Includes(endpoint, "/cancel") then Some(Cancel)
    else if Includes(endpoint, "/captures") then Some(Capture)
    else if Includes(endpoint, "/refunds") then Some(Refund)
    else None
  }

  /** The record synthesised for an empty-bodied success of an action. */
  function ActionRecord(a: Action, resp: ProviderResponse): Json {
    var (message, idField, header) :=
      match a
      case Cancel => ("Order cancelled successfully", "cancelId", "cancel-id")
      case Capture => ("Amount captured successfully", "captureId", "capture-id")
      case Refund => ("Operation completed successfully", "refundId", "refund-id");
    JObject(map["success" := JBool(true), "message" := JString(message), idField := HeaderValue(resp, header)])
  }

  /** `makeKlarnaRequest` after the response has arrived. */
  function Normalise(endpoint: string, resp: ProviderResponse, stringify: Json -> string): (r: Outcome)
    // a non-ok status always throws, with the body's error_message or else the whole body
    ensures !IsOkStatus(resp.status) ==> r.Fail?
    ensures (!IsOkStatus(resp.status) && resp.body.Parsed? && HasErrorMessage(resp.body.value)
      && ToJsString(resp.body.value.fields["error_message"]).Converted?) ==>
      r == Fail(ToJsString(resp.body.value.fields["error_message"]).text)
    ensures (!IsOkStatus(resp.status) && resp.body.Parsed? && HasErrorMessage(resp.body.value)
      && ToJsString(resp.body.value.fields["error_message"]).ConversionError?) ==>
      r == Fail(ToJsString(resp.body.value.fields["error_message"]).message)
    ensures !IsOkStatus(resp.status) && resp.body.Parsed? && resp.body.value != JNull && !HasErrorMessage(resp.body.value) ==>
      r == Fail(stringify(resp.body.value))
    ensures !IsOkStatus(resp.status) && resp.body == Parsed(JNull) ==> r == Fail(NullBodyRead)
    ensures !IsOkStatus(resp.status) && resp.body.Unparseable? ==> r == Fail(resp.body.error)
    // 201/204: the endpoint picks the synthesised record, "/cancel" first, then "/captures", then "/refunds"
    ensures IsEmptyBodySuccess(resp.status) && Includes(endpoint, "/cancel") ==>
      r == Ok(JObject(map["success" := JBool(true), "message" := JString("Order cancelled successfully"),
                          "cancelId" := HeaderValue(resp, "cancel-id")]))
    ensures IsEmptyBodySuccess(resp.status) && !Includes(endpoint, "/cancel") && Includes(endpoint, "/captures") ==>
      r == Ok(JObject(map["success" := JBool(true), "message" := JString("Amount captured successfully"),
                          "captureId" := HeaderValue(resp, "capture-id")]))
    ensures (IsEmptyBodySuccess(resp.status) && !Includes(endpoint, "/cancel") && !Includes(endpoint, "/captures")
             && Includes(endpoint, "/refunds")) ==>
      r == Ok(JObject(map["success" := JBool(true), "message" := JString("Operation completed successfully"),
                          "refundId" := HeaderValue(resp, "refund-id")]))
    // every other ok response is the parsed body, unchanged
    ensures IsOkStatus(resp.status) && !IsEmptyBodySuccess(resp.status) ==> r == RelayBody(resp.body)
    ensures (IsOkStatus(resp.status) && !Includes(endpoint, "/cancel") && !Includes(endpoint, "/captures")
             && !Includes(endpoint, "/refunds")) ==> r == RelayBody(resp.body)
  {
    if !IsOkStatus(resp.status) then
      match resp.body
      case Unparseable(e) => Fail(e)
      case Parsed(data) => Fail(ProviderErrorMessage(data, stringify))
    else if IsEmptyBodySuccess(resp.status) && Classify(endpoint).Some? then
      Ok(ActionRecord(Classify(endpoint).value, resp))
    else
      RelayBody(resp.body)
  }

  /** One call to the provider: which request went out, and what came of it. */
  datatype Exchange = Exchange(sent: Option<HttpRequest>, outcome: Outcome)

  /** `makeKlarnaRequest(verb, endpoint, payload)`, where `reply` is how the provider answered. */
  function MakeKlarnaRequest(c: Config, verb: Method, endpoint: string, payload: Option<Json>,
                             reply: Fetched, stringify: Json -> string): (x: Exchange)
    ensures !CredentialsConfigured(c) ==> x == Exchange(None, Fail(CredentialsMissing))
    ensures CredentialsConfigured(c) ==> x.sent == Some(BuildRequest(c, verb, endpoint, payload))
    ensures CredentialsConfigured(c) && reply.TransportFailure? ==> x.outcome == Fail(reply.error)
    ensures CredentialsConfigured(c) && reply.Responded? ==>
      x.outcome == Normalise(endpoint, reply.response, stringify)
  {
    match ValidateCredentials(c)
    case Some(err) => Exchange(None, Fail(err))
    case None =>
      var request := BuildRequest(c, verb, endpoint, payload);
      match reply
      case TransportFailure(e) => Exchange(Some(request), Fail(e))
      case Responded(resp) => Exchange(Some(request), Normalise(endpoint, resp, stringify))
  }
}
