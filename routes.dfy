/** The six `/api` routes of server.js: what each reads from the request, which provider call it
    makes, and the status and JSON body it answers with. */
module Routes {
  import opened Wrappers
  import opened JsonValues
  import opened Substrings
  import opened KlarnaClient

  /** What a route sends back, and the provider call it made, if any. */
  datatype Reply = Reply(call: Option<HttpRequest>, status: int, body: Json)

  const DefaultAmount: int := 10000
  const TokenRequired: string := "authorization_token required"
  const SessionsEndpoint: string := "/payments/v1/sessions"

  function ErrorBody(message: string): Json {
    JObject(map["error" := JString(message)])
  }

  function AuthorizationOrderEndpoint(token: string): string {
    "/payments/v1/authorizations/" + token + "/order"
  }

  function OrderEndpoint(orderId: string): string {
    "/ordermanagement/v1/orders/" + orderId
  }

  function CaptureEndpoint(orderId: string): string {
    OrderEndpoint(orderId) + "/captures"
  }

  function CancelEndpoint(orderId: string): string {
    OrderEndpoint(orderId) + "/cancel"
  }

  function RefundEndpoint(orderId: string): string {
    OrderEndpoint(orderId) + "/refunds"
  }

  /** `res.json(data)` when the call resolves, `res.status(500).json({ error: err.message })` when it
      throws. */
  function Respond(x: Exchange): (r: Reply)
    ensures r.call == x.sent
    ensures x.outcome.Ok? ==> r.status == 200 && r.body == x.outcome.data
    ensures x.outcome.Fail? ==> r.status == 500 && r.body == ErrorBody(x.outcome.message)
  {
    match x.outcome
    case Ok(data) => Reply(x.sent, 200, data)
    case Fail(message) => Reply(x.sent, 500, ErrorBody(message))
  }

  /** Once the request has gone out, the route answers as `makeKlarnaRequest` settles: a transport
      failure, like every thrown error, becomes a 500 carrying its message, and a provider response
      becomes 200 with the normalised data or 500 with the normalised error. */
  predicate AnswersReply(r: Reply, endpoint: string, reply: Fetched, stringify: Json -> string) {
    match reply
    case TransportFailure(error) => r.status == 500 && r.body == ErrorBody(error)
    case Responded(resp) =>
      var out := Normalise(endpoint, resp, stringify);
      (out.Ok? ==> r.status == 200 && r.body == out.data)
      && (out.Fail? ==> r.status == 500 && r.body == ErrorBody(out.message))
  }

  /** `j` is an object whose field `key` holds `v`. */
  predicate HasField(j: Json, key: string, v: Json) {
    j.JObject? && key in j.fields && j.fields[key] == v
  }

  /** The single demo order line synthesised when the request has none. */
  function DemoLine(amount: Json): Json {
    JObject(map[
      "type" := JString("physical"),
      "reference" := JString("demo-1"),
      "name" := JString("Demo product"),
      "quantity" := JNumber(1),
      "unit_price" := amount,
      "tax_rate" := JNumber(0),
      "total_amount" := amount,
      "total_tax_amount" := JNumber(0)])
  }

  /** The payload of `POST /api/session`. Destructuring defaults replace only undefined fields (an
      explicit `null` is kept); the order lines are replaced only when falsy (an empty array is kept). */
  function SessionPayload(body: Option<Json>): (p: Json)
    ensures p.JObject?
    ensures p.fields.Keys == {"purchase_country", "purchase_currency", "locale", "order_amount",
                              "order_tax_amount", "order_lines"}
    ensures Prop(body, "purchase_country").None? ==> p.fields["purchase_country"] == JString("US")
    ensures Prop(body, "purchase_country").Some? ==> p.fields["purchase_country"] == Prop(body, "purchase_country").value
    ensures Prop(body, "purchase_currency").None? ==> p.fields["purchase_currency"] == JString("USD")
    ensures Prop(body, "purchase_currency").Some? ==> p.fields["purchase_currency"] == Prop(body, "purchase_currency").value
    ensures Prop(body, "locale").None? ==> p.fields["locale"] == JString("en-US")
    ensures Prop(body, "locale").Some? ==> p.fields["locale"] == Prop(body, "locale").value
    ensures Prop(body, "order_amount").None? ==> p.fields["order_amount"] == JNumber(DefaultAmount)
    ensures Prop(body, "order_amount").Some? ==> p.fields["order_amount"] == Prop(body, "order_amount").value
    ensures p.fields["order_tax_amount"] == JNumber(0)
    ensures Present(Prop(body, "order_lines")) ==> p.fields["order_lines"] == Prop(body, "order_lines").value
    ensures !Present(Prop(body, "order_lines")) ==>
      var lines := p.fields["order_lines"];
      lines.JArray? && |lines.items| == 1
      && lines.items[0].JObject?
      && lines.items[0].fields.Keys == {"type", "reference", "name", "quantity", "unit_price", "tax_rate",
                                        "total_amount", "total_tax_amount"}
      && HasField(lines.items[0], "type", JString("physical"))
      && HasField(lines.items[0], "reference", JString("demo-1"))
      && HasField(lines.items[0], "name", JString("Demo product"))
      && HasField(lines.items[0], "quantity", JNumber(1))
      && HasField(lines.items[0], "tax_rate", JNumber(0))
      && HasField(lines.items[0], "total_tax_amount", JNumber(0))
      && HasField(lines.items[0], "unit_price", p.fields["order_amount"])
      && HasField(lines.items[0], "total_amount", p.fields["order_amount"])
  {
    var amount := Prop(body, "order_amount").GetOr(JNumber(DefaultAmount));
    var lines := Prop(body, "order_lines");
    JObject(map[
      "purchase_country" := Prop(body, "purchase_country").GetOr(JString("US")),
      "purchase_currency" := Prop(body, "purchase_currency").GetOr(JString("USD")),
      "locale" := Prop(body, "locale").GetOr(JString("en-US")),
      "order_amount" := amount,
      "order_tax_amount" := JNumber(0),
      "order_lines" := if Present(lines) then lines.value else JArray([DemoLine(amount)])])
  }

  /** `POST /api/session`. */
  function CreateSession(c: Config, body: Option<Json>, reply: Fetched, stringify: Json -> string): (r: Reply)
    ensures !CredentialsConfigured(c) ==> r == Reply(None, 500, ErrorBody(CredentialsMissing))
    ensures CredentialsConfigured(c) ==>
      r.call == Some(BuildRequest(c, Post, SessionsEndpoint, Some(SessionPayload(body))))
    ensures r.status == 200 || r.status == 500
    ensures CredentialsConfigured(c) ==> AnswersReply(r, SessionsEndpoint, reply, stringify)
  {
    Respond(MakeKlarnaRequest(c, Post, SessionsEndpoint, Some(SessionPayload(body)), reply, stringify))
  }

  /** `POST /api/create_order`: a falsy token is refused with 400 before anything else, the
      credential check included. The token is put into the endpoint by a template literal inside the
      `try`, so a token whose conversion to a string throws is answered with 500 before any call. */
  function CreateOrder(c: Config, body: Option<Json>, reply: Fetched, stringify: Json -> string): (r: Reply)
    ensures !Present(Prop(body, "authorization_token")) ==> r == Reply(None, 400, ErrorBody(TokenRequired))
    ensures (Present(Prop(body, "authorization_token"))
      && ToJsString(Prop(body, "authorization_token").value).ConversionError?) ==>
      r == Reply(None, 500, ErrorBody(ToJsString(Prop(body, "authorization_token").value).message))
    ensures (Present(Prop(body, "authorization_token"))
      && ToJsString(Prop(body, "authorization_token").value).Converted? && !CredentialsConfigured(c)) ==>
      r == Reply(None, 500, ErrorBody(CredentialsMissing))
    ensures (Present(Prop(body, "authorization_token"))
      && ToJsString(Prop(body, "authorization_token").value).Converted? && CredentialsConfigured(c)) ==>
      var endpoint := "/payments/v1/authorizations/" + ToJsString(Prop(body, "authorization_token").value).text
                      + "/order";
      r.call.Some? && r.call.value.verb == Post
      && r.call.value.url == c.apiUrl + endpoint
      && r.call.value.body == (if Present(Prop(body, "payload")) then Prop(body, "payload") else None)
      && r.call == Some(BuildRequest(c, Post, endpoint, Prop(body, "payload")))
      && AnswersReply(r, endpoint, reply, stringify)
    ensures r.status == 400 <==> !Present(Prop(body, "authorization_token"))
  {
    var token := Prop(body, "authorization_token");
    if !Present(token) then
      Reply(None, 400, ErrorBody(TokenRequired))
    else
      match ToJsString(token.value)
      case ConversionError(message) => Reply(None, 500, ErrorBody(message))
      case Converted(text) =>
        Respond(MakeKlarnaRequest(c, Post, AuthorizationOrderEndpoint(text), Prop(body, "payload"),
                                  reply, stringify))
  }

  /** `GET /api/orders/:orderId`. */
  function GetOrder(c: Config, orderId: string, reply: Fetched, stringify: Json -> string): (r: Reply)
    ensures !CredentialsConfigured(c) ==> r == Reply(None, 500, ErrorBody(CredentialsMissing))
    ensures CredentialsConfigured(c) ==>
      r.call.Some? && r.call.value.verb == Get
      && r.call.value.url == c.apiUrl + "/ordermanagement/v1/orders/" + orderId
      && r.call.value.body == None
    ensures CredentialsConfigured(c) ==> r.call == Some(BuildRequest(c, Get, OrderEndpoint(orderId), None))
    ensures CredentialsConfigured(c) ==> AnswersReply(r, OrderEndpoint(orderId), reply, stringify)
  {
    Respond(MakeKlarnaRequest(c, Get, OrderEndpoint(orderId), None, reply, stringify))
  }

  /** `POST /api/orders/:orderId/captures`: always captures the fixed amount, whatever the request
      body says. */
  function CaptureOrder(c: Config, orderId: string, reply: Fetched, stringify: Json -> string): (r: Reply)
    ensures !CredentialsConfigured(c) ==> r == Reply(None, 500, ErrorBody(CredentialsMissing))
    ensures CredentialsConfigured(c) ==>
      r.call.Some? && r.call.value.verb == Post
      && r.call.value.url == c.apiUrl + "/ordermanagement/v1/orders/" + orderId + "/captures"
      && r.call.value.body == Some(JObject(map["captured_amount" := JNumber(10000)]))
    ensures CredentialsConfigured(c) ==>
      r.call == Some(BuildRequest(c, Post, CaptureEndpoint(orderId),
                                  Some(JObject(map["captured_amount" := JNumber(DefaultAmount)]))))
    ensures CredentialsConfigured(c) ==> AnswersReply(r, CaptureEndpoint(orderId), reply, stringify)
  {
    Respond(MakeKlarnaRequest(c, Post, CaptureEndpoint(orderId),
                              Some(JObject(map["captured_amount" := JNumber(DefaultAmount)])), reply, stringify))
  }

  /** `POST /api/orders/:orderId/cancel`: no request body. */
  function CancelOrder(c: Config, orderId: string, reply: Fetched, stringify: Json -> string): (r: Reply)
    ensures !CredentialsConfigured(c) ==> r == Reply(None, 500, ErrorBody(CredentialsMissing))
    ensures CredentialsConfigured(c) ==>
      r.call.Some? && r.call.value.verb == Post
      && r.call.value.url == c.apiUrl + "/ordermanagement/v1/orders/" + orderId + "/cancel"
      && r.call.value.body == None
    ensures CredentialsConfigured(c) ==> r.call == Some(BuildRequest(c, Post, CancelEndpoint(orderId), None))
    ensures CredentialsConfigured(c) ==> AnswersReply(r, CancelEndpoint(orderId), reply, stringify)
  {
    Respond(MakeKlarnaRequest(c, Post, CancelEndpoint(orderId), None, reply, stringify))
  }

  /** `POST /api/orders/:orderId/refunds`: refunds the request's `amount`, or the fixed amount when it
      is undefined (an explicit `null` is sent as is). */
  function RefundOrder(c: Config, orderId: string, body: Option<Json>, reply: Fetched,
                       stringify: Json -> string): (r: Reply)
    ensures !CredentialsConfigured(c) ==> r == Reply(None, 500, ErrorBody(CredentialsMissing))
    ensures CredentialsConfigured(c) ==>
      r.call.Some? && r.call.value.verb == Post
      && r.call.value.url == c.apiUrl + "/ordermanagement/v1/orders/" + orderId + "/refunds"
    ensures CredentialsConfigured(c) && Prop(body, "amount").None? ==>
      r.call.value.body == Some(JObject(map["refunded_amount" := JNumber(10000)]))
    ensures CredentialsConfigured(c) && Prop(body, "amount").Some? ==>
      r.call.value.body == Some(JObject(map["refunded_amount" := Prop(body, "amount").value]))
    ensures CredentialsConfigured(c) ==>
      r.call == Some(BuildRequest(c, Post, RefundEndpoint(orderId),
                                  Some(JObject(map["refunded_amount" :=
                                                   Prop(body, "amount").GetOr(JNumber(DefaultAmount))]))))
    ensures CredentialsConfigured(c) ==> AnswersReply(r, RefundEndpoint(orderId), reply, stringify)
  {
    var amount := Prop(body, "amount").GetOr(JNumber(DefaultAmount));
    Respond(MakeKlarnaRequest(c, Post, RefundEndpoint(orderId),
                              Some(JObject(map["refunded_amount" := amount])), reply, stringify))
  }
}
