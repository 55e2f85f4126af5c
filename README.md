# Klarna payments demo: the server's decision layer

The repository is a small Express server in front of Klarna's Payments and Order Management REST
APIs. Almost all of `server.js` is plumbing. This project models its deterministic part as pure
Dafny functions and proves what that part promises:

- **Configuration and credentials.** Each environment variable falls back when it is unset or
  empty. `validateCredentials` throws "Klarna credentials not configured" when either credential is
  empty. It runs before any request is built.
- **The outbound request.** The base URL joined to the endpoint. JSON content type. Basic
  authorization. The payload goes as the body only when it is truthy.
- **Normalisation of the provider's reply.**
  - A non-ok status always throws. The message is a truthy `error_message`, converted with
    `String`, or else the stringified body. When that conversion itself throws (an object with its
    own `toString` field), the message is that TypeError's.
  - On 201 or 204 (sections 15.3.2 and 15.3.5 of RFC 9110), the endpoint is searched for
    `/cancel`, then `/captures`, then `/refunds`. The first match selects a synthesised
    `{success, message, <kind>Id}` record, with the id taken from the matching header.
  - Every other ok reply is the parsed body, unchanged.
- **The six routes.**
  - The session payload uses destructuring defaults, which fire only on `undefined`. The order
    lines use a `||` fallback, so an empty array is kept.
  - The `create_order` token guard answers 400. It comes before the credential check. The token is
    converted to a string inside the `try`, before the credential check, so a token whose
    conversion throws answers 500 with no call.
  - Capture always sends `captured_amount` 10000. Refund sends `amount`, or 10000 when it is
    undefined.
  - Every thrown error becomes 500 `{error: message}`.

JavaScript's `undefined` is `Option.None`. `null` is the JSON value `JNull`. `JsonValues.Truthy`
is JavaScript truthiness on JSON values: `null`, `false`, `0` and `""` are falsy, and every array
and object is truthy. `JsonValues.Prop` is the property read `(req.body || {})[key]` and
`data.error_message`: it is defined only on an object that has the field, and undefined otherwise.

The network is not modelled. A route takes the provider's reply as an input (`Fetched`): a response
or a transport failure. The reply's `response.json()` outcome is also an input (`BodyParse`).
`JSON.stringify` is a function parameter. Each route returns the request it sent, if any, with the
status and the JSON body it answers.

`String.prototype.includes` is modelled as `Substrings.Includes`. Its contract is the existence of
an occurrence. A lemma about slash-separated paths then decides what each order-management
endpoint matches. One consequence follows from the search order. When an order id begins with
`cancel`, the capture endpoint `/ordermanagement/v1/orders/cancel…/captures` contains `/cancel`.
An empty-bodied success of that capture is then reported as "Order cancelled successfully", with
the `cancel-id` header. `RouteLemmas.CaptureEmptySuccess` and `RouteLemmas.RefundEmptySuccess`
state both sides of this. The same search runs on every endpoint. A `create_order` token, or a
`GET` order id, that begins with `cancel`, `captures` or `refunds` would also turn a 201/204 reply
into a synthesised record. The provider normally answers those two calls with 200, which is always
relayed. The session endpoint contains none of the three words, so every ok reply to it is relayed
(`RouteLemmas.SessionOkIsRelayed`).

## Model

| member | source | states |
|---|---|---|
| `KlarnaClient.ConfigFrom` | server.js:7-9 | The API URL is the variable when it is set and non-empty, else the playground URL. Each credential is the variable when set, else the empty string. |
| `KlarnaClient.ValidateCredentials` | server.js:34-38 | Fails, with exactly "Klarna credentials not configured", if and only if the username or the password is empty. |
| `KlarnaClient.BuildRequest` | server.js:43-51 | The URL is the base URL followed by the endpoint, with the given verb, JSON content type and Basic authorization from both credentials. A body is sent if and only if the payload is truthy, and it is the payload. |
| `KlarnaClient.Normalise` | server.js:53-71 | Non-ok: always an error. Its message is a truthy `error_message` as a string, or the TypeError message when that conversion throws, else the stringified body. A `null` body gives the TypeError of reading `error_message`, and an unparseable body gives the parse error. 201/204: `/cancel` first, then `/captures`, then `/refunds`, each yielding exactly its record with the matching header (or `null`). Any other ok reply is the parsed body unchanged. |
| `KlarnaClient.MakeKlarnaRequest` | server.js:40-72 | Without credentials: no request is sent and the call fails with the credentials message. With credentials: exactly the built request is sent. A transport failure's message becomes the error, and a response is normalised. |
| `Substrings.Includes` | server.js:60-64 | `s.includes(sub)` holds if and only if `sub` occurs in `s` at some index. |
| `Substrings.SlashWordInPath` | server.js:60-64 | In a path of slash-free segments, `"/" + w` (with `w` slash-free) is found if and only if `w` begins one of the segments. |
| `JsonValues.NumberToString` | server.js:55 | `String(n)` of an integer reads back as `n`: at least one decimal digit and no leading zeros, so 0 prints as "0", with a leading `-` for a negative number. |
| `JsonValues.ToJsString` | server.js:55 | `String(x)` as used for the thrown message and the token in the URL. `null`, booleans and strings print as themselves, a number as above, an array as its joined elements. An object gives "[object Object]", unless it has its own `toString` field, when the conversion throws "Cannot convert object to primitive value". |
| `JsonValues.JoinElementsCases` | server.js:55 | Converting an array fails exactly when converting one of its elements fails. Otherwise `[]` gives "", one element gives that element's string (`null` gives ""), and more elements are joined by commas. |
| `Routes.Respond` | server.js:98-101 | A resolved call answers 200 with the data. A thrown error answers 500 with `{error: message}`. The request sent is passed through. |
| `Routes.SessionPayload` | server.js:77-95 | Exactly six fields. Undefined country, currency, locale and amount become "US", "USD", "en-US" and 10000, and defined values (`null` included) are kept. `order_tax_amount` is 0. Truthy `order_lines` are forwarded unchanged. Otherwise there is exactly one line with exactly eight fields: type "physical", reference "demo-1", name "Demo product", quantity 1, tax rate 0, tax 0, and unit price and total both equal to the order amount. |
| `Routes.CreateSession` | server.js:75-103 | Without credentials: 500 with the credentials message and no call. Otherwise: one POST to the sessions endpoint carrying the session payload, and the reply is answered as `Routes.AnswersReply` says: a transport failure gives 500 with its message, and a provider response gives 200 with the normalised data or 500 with the normalised error. The status is 200 or 500. |
| `Routes.CreateOrder` | server.js:105-119 | A falsy token answers 400 "authorization_token required", makes no call and comes before the credential check. A token whose conversion to a string throws answers 500 with that message and no call. Otherwise, without credentials: 500 and no call; with them, exactly the built request (JSON content type, Basic authorization) for a POST to `/payments/v1/authorizations/{token}/order` carrying `payload` when truthy, answered as `Routes.AnswersReply` says for that endpoint. 400 occurs exactly when the token is falsy. |
| `Routes.GetOrder` | server.js:121-129 | Without credentials: 500 and no call. Otherwise: exactly the built request (JSON content type, Basic authorization from both credentials) for a GET of `/ordermanagement/v1/orders/{id}` with no body, answered as `Routes.AnswersReply` says for that endpoint. |
| `Routes.CaptureOrder` | server.js:131-142 | Without credentials: 500 and no call. Otherwise: exactly the built request (JSON content type, Basic authorization from both credentials) for a POST to `…/{id}/captures` whose body is always `{captured_amount: 10000}`, answered as `Routes.AnswersReply` says for that endpoint. |
| `Routes.CancelOrder` | server.js:144-152 | Without credentials: 500 and no call. Otherwise: exactly the built request (JSON content type, Basic authorization from both credentials) for a POST to `…/{id}/cancel` with no body, answered as `Routes.AnswersReply` says for that endpoint. |
| `Routes.RefundOrder` | server.js:154-165 | Without credentials: 500 and no call. Otherwise: exactly the built request (JSON content type, Basic authorization from both credentials) for a POST to `…/{id}/refunds`, answered as `Routes.AnswersReply` says for that endpoint. The body is `{refunded_amount: amount}`, or 10000 when `amount` is undefined. |
| `RouteLemmas.ActionEndpointIncludes` | server.js:60-64 | For a slash-free order id and action, a slash-led word that begins none of the fixed segments is found in the endpoint if and only if it begins the id or the action. |
| `RouteLemmas.CaptureEndpointIncludes` | server.js:134 | A capture endpoint always contains `/captures`. It contains `/cancel` if and only if the order id begins with "cancel". |
| `RouteLemmas.RefundEndpointIncludes` | server.js:157 | A refund endpoint always contains `/refunds`. It contains `/cancel` (or `/captures`) if and only if the order id begins with "cancel" (or "captures"). |
| `RouteLemmas.CancelEndpointIncludes` | server.js:146 | Every cancel endpoint contains `/cancel`, whatever the order id. |
| `RouteLemmas.CaptureEmptySuccess` | server.js:59-66 | A 201/204 reply to a capture answers 200. The body is the capture record with `capture-id`, or the cancellation record with `cancel-id` when the order id begins with "cancel". |
| `RouteLemmas.RefundEmptySuccess` | server.js:59-66 | A 201/204 reply to a refund answers 200. The body is the refund record with `refund-id` unless the order id begins with "cancel" (cancellation record) or "captures" (capture record). |
| `RouteLemmas.CancelEmptySuccess` | server.js:59-61 | A 201/204 reply to a cancellation always answers 200 with `{success: true, message: "Order cancelled successfully", cancelId: <cancel-id header or null>}`. |
| `RouteLemmas.SessionsPath` | server.js:97 | The session endpoint is the path of the segments `payments`, `v1`, `sessions`. |
| `RouteLemmas.SessionsExcludes` | server.js:60-64 | A slash-led word that begins none of those three segments is not found in the session endpoint. |
| `RouteLemmas.SessionsUnclassified` | server.js:60-64 | The session endpoint contains none of `/cancel`, `/captures` and `/refunds`. |
| `RouteLemmas.SessionOkIsRelayed` | server.js:59-71 | Every ok reply to a session request, 201 and 204 included, answers 200 with the parsed body, or 500 with the parse error when the body does not parse. |
| `RouteLemmas.GetOrderRelaysOk` | server.js:121-129 | An order the provider returns with 200 is answered with 200 and exactly that order, after exactly the GET of the order endpoint. |
| `RouteLemmas.CaptureRefusedCarriesMessage` | server.js:53-56 | A capture refused with a non-ok status and a non-empty string `error_message` answers 500 with exactly `{error: <that message>}`; the rest of the provider's body is dropped. |

## Left out

- `fetchWithTimeout` (the abort controller and the 8-second timer) is not modelled. Its outcome is the input `Fetched`. A timeout appears as a `TransportFailure` carrying the abort's message.
- `getBasicAuthHeader`: the base64 text of the header is not modelled. The header is the value `Basic(username, password)`.
- `JSON.parse` is not modelled. The outcome of `response.json()` is the input `BodyParse`.
- `JSON.stringify` is not modelled. It is the function parameter `stringify`.
- Request bodies are taken as already parsed by `express.json()`.
- Express wiring, request logging, `dotenv` loading, static file serving and `app.listen` are I/O and framework plumbing, so they are left out.
- public/script.js is not part of this model. It is browser UI glue around the provider's widget.
- `JsonValues.NumberToString`: JSON numbers are integers, and fractional numbers are not modelled. The model keeps every integer exact and prints all its digits. JavaScript agrees only up to 2^53. Above that, a number is rounded to a double, and `String` prints the shortest digits that read back to it (`String(2**60)` is "1152921504606847000"). From 10^21 on, JavaScript also switches to exponent notation.
- Object key order is not kept. A JSON object is a map.
- Response headers are a map with lower-case names. Repeated headers combined by the Fetch API are not modelled.
- `JsonValues.Prop` reads only a body's own fields. Inherited properties such as `constructor` do not arise for the field names the server reads.
- `RouteLemmas.CaptureEndpointIncludes`, `RouteLemmas.RefundEndpointIncludes`, `RouteLemmas.CaptureEmptySuccess` and `RouteLemmas.RefundEmptySuccess` assume the order id holds no `/`. Express decodes `%2F` in a path parameter, and such an id is not covered.
- No lemma spells out the `create_order` endpoint for a particular token. Its replies are stated only through `Routes.AnswersReply` and the clauses of `KlarnaClient.Normalise`.
