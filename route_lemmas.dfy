/** What the substring matching of `makeKlarnaRequest` makes of the endpoints the routes build, and
    the replies the order-management routes give when the provider answers 201 or 204. */
module RouteLemmas {
  import opened Wrappers
  import opened JsonValues
  import opened Substrings
  import opened KlarnaClient
  import opened Routes

  /** An order-management endpoint as the path of its segments. */
  lemma OrderActionPath(orderId: string, action: string)
    ensures OrderEndpoint(orderId) + "/" + action == JoinPath(["ordermanagement", "v1", "orders", orderId, action])
  {
    var fixed := ["ordermanagement", "v1", "orders"];
    assert ["ordermanagement", "v1", "orders", orderId, action] == fixed + [orderId, action];
    JoinPathAppend(fixed, [orderId, action]);
    assert [orderId, action][1..] == [action];
    assert JoinPath([orderId, action]) == "/" + orderId + "/" + action;
    OrderManagementPath();
  }

  lemma OrderManagementPath()
    ensures JoinPath(["ordermanagement", "v1", "orders"]) + "/" == "/ordermanagement/v1/orders/"
  {
    var segs := ["ordermanagement", "v1", "orders"];
    assert segs[1..] == ["v1", "orders"] && segs[1..][1..] == ["orders"] && segs[1..][1..][1..] == [];
    assert JoinPath(segs) == "/ordermanagement" + ("/v1" + "/orders");
    assert "/v1" + "/orders" == "/v1/orders";
    assert "/ordermanagement" + "/v1/orders" + "/" == "/ordermanagement/v1/orders/";
  }

  /** Two strings that differ at a position both have are not prefix-related. */
  lemma DiffersAt(w: string, t: string, k: nat)
    requires k < |w| && k < |t| && w[k] != t[k]
    ensures !(w <= t)
  {
  }

  /** A slash-led word occurs in an order-management endpoint exactly when it begins the order id or
      the action, provided the id and the action hold no slash and the word begins none of the fixed
      segments. */
  lemma ActionEndpointIncludes(orderId: string, action: string, w: string)
    requires '/' !in orderId && '/' !in action && '/' !in w
    requires !(w <= "ordermanagement") && !(w <= "v1") && !(w <= "orders")
    ensures Includes(OrderEndpoint(orderId) + "/" + action, "/" + w) <==> w <= orderId || w <= action
  {
    var segs := ["ordermanagement", "v1", "orders", orderId, action];
    OrderActionPath(orderId, action);
    SlashWordInPath(segs, w);
    if exists k :: 0 <= k < |segs| && w <= segs[k] {
      var k :| 0 <= k < |segs| && w <= segs[k];
      assert k == 3 || k == 4;
    }
    assert w <= orderId ==> w <= segs[3];
    assert w <= action ==> w <= segs[4];
  }

  /** On a capture endpoint "/cancel" is found exactly when the order id begins with "cancel";
      "/captures" is always found. */
  lemma CaptureEndpointIncludes(orderId: string)
    requires '/' !in orderId
    ensures Includes(CaptureEndpoint(orderId), "/cancel") <==> "cancel" <= orderId
    ensures Includes(CaptureEndpoint(orderId), "/captures")
  {
    assert CaptureEndpoint(orderId) == OrderEndpoint(orderId) + "/" + "captures";
    assert "/cancel" == "/" + "cancel" && "/captures" == "/" + "captures";
    DiffersAt("cancel", "ordermanagement", 0);
    DiffersAt("cancel", "v1", 0);
    DiffersAt("cancel", "orders", 0);
    DiffersAt("cancel", "captures", 2);
    DiffersAt("captures", "ordermanagement", 0);
    DiffersAt("captures", "v1", 0);
    DiffersAt("captures", "orders", 0);
    ActionEndpointIncludes(orderId, "captures", "cancel");
    ActionEndpointIncludes(orderId, "captures", "captures");
  }

  /** On a refund endpoint "/cancel" and "/captures" are found exactly when the order id begins with
      them; "/refunds" is always found. */
  lemma RefundEndpointIncludes(orderId: string)
    requires '/' !in orderId
    ensures Includes(RefundEndpoint(orderId), "/cancel") <==> "cancel" <= orderId
    ensures Includes(RefundEndpoint(orderId), "/captures") <==> "captures" <= orderId
    ensures Includes(RefundEndpoint(orderId), "/refunds")
  {
    assert RefundEndpoint(orderId) == OrderEndpoint(orderId) + "/" + "refunds";
    assert "/cancel" == "/" + "cancel" && "/captures" == "/" + "captures" && "/refunds" == "/" + "refunds";
    DiffersAt("cancel", "ordermanagement", 0);
    DiffersAt("cancel", "v1", 0);
    DiffersAt("cancel", "orders", 0);
    DiffersAt("cancel", "refunds", 0);
    DiffersAt("captures", "ordermanagement", 0);
    DiffersAt("captures", "v1", 0);
    DiffersAt("captures", "orders", 0);
    DiffersAt("captures", "refunds", 0);
    DiffersAt("refunds", "ordermanagement", 0);
    DiffersAt("refunds", "v1", 0);
    DiffersAt("refunds", "orders", 0);
    ActionEndpointIncludes(orderId, "refunds", "cancel");
    ActionEndpointIncludes(orderId, "refunds", "captures");
    ActionEndpointIncludes(orderId, "refunds", "refunds");
  }

  /** Every cancel endpoint contains "/cancel", whatever the order id. */
  lemma CancelEndpointIncludes(orderId: string)
    ensures Includes(CancelEndpoint(orderId), "/cancel")
  {
    var e := CancelEndpoint(orderId);
    assert e[|e| - 7..] == "/cancel";
    assert OccursAt(e, "/cancel", |e| - 7);
  }

  /** A capture answered with 201 or 204 is reported as a capture, with the provider's capture-id;
      but when the order id begins with "cancel" the "/cancel" test comes first and the capture is
      reported as a cancellation. */
  lemma CaptureEmptySuccess(c: Config, orderId: string, resp: ProviderResponse, stringify: Json -> string)
    requires CredentialsConfigured(c) && '/' !in orderId
    requires IsEmptyBodySuccess(resp.status)
    ensures CaptureOrder(c, orderId, Responded(resp), stringify).status == 200
    ensures !("cancel" <= orderId) ==>
      CaptureOrder(c, orderId, Responded(resp), stringify).body ==
        JObject(map["success" := JBool(true), "message" := JString("Amount captured successfully"),
                    "captureId" := HeaderValue(resp, "capture-id")])
    ensures "cancel" <= orderId ==>
      CaptureOrder(c, orderId, Responded(resp), stringify).body ==
        JObject(map["success" := JBool(true), "message" := JString("Order cancelled successfully"),
                    "cancelId" := HeaderValue(resp, "cancel-id")])
  {
    CaptureEndpointIncludes(orderId);
  }

  /** A refund answered with 201 or 204 is reported as a refund, with the provider's refund-id, unless
      the order id begins with "cancel" or "captures". */
  lemma RefundEmptySuccess(c: Config, orderId: string, body: Option<Json>, resp: ProviderResponse,
                           stringify: Json -> string)
    requires CredentialsConfigured(c) && '/' !in orderId
    requires IsEmptyBodySuccess(resp.status)
    ensures RefundOrder(c, orderId, body, Responded(resp), stringify).status == 200
    ensures !("cancel" <= orderId) && !("captures" <= orderId) ==>
      RefundOrder(c, orderId, body, Responded(resp), stringify).body ==
        JObject(map["success" := JBool(true), "message" := JString("Operation completed successfully"),
                    "refundId" := HeaderValue(resp, "refund-id")])
    ensures "cancel" <= orderId ==>
      RefundOrder(c, orderId, body, Responded(resp), stringify).body ==
        JObject(map["success" := JBool(true), "message" := JString("Order cancelled successfully"),
                    "cancelId" := HeaderValue(resp, "cancel-id")])
    ensures !("cancel" <= orderId) && "captures" <= orderId ==>
      RefundOrder(c, orderId, body, Responded(resp), stringify).body ==
        JObject(map["success" := JBool(true), "message" := JString("Amount captured successfully"),
                    "captureId" := HeaderValue(resp, "capture-id")])
  {
    RefundEndpointIncludes(orderId);
  }

  /** A cancellation answered with 201 or 204 is always reported as a cancellation. */
  lemma CancelEmptySuccess(c: Config, orderId: string, resp: ProviderResponse, stringify: Json -> string)
    requires CredentialsConfigured(c)
    requires IsEmptyBodySuccess(resp.status)
    ensures CancelOrder(c, orderId, Responded(resp), stringify).status == 200
    ensures CancelOrder(c, orderId, Responded(resp), stringify).body ==
      JObject(map["success" := JBool(true), "message" := JString("Order cancelled successfully"),
                  "cancelId" := HeaderValue(resp, "cancel-id")])
  {
    CancelEndpointIncludes(orderId);
  }

  /** The session endpoint as the path of its segments. */
  lemma SessionsPath()
    ensures JoinPath(["payments", "v1", "sessions"]) == SessionsEndpoint
  {
    var segs := ["payments", "v1", "sessions"];
    assert segs[1..] == ["v1", "sessions"] && segs[1..][1..] == ["sessions"] && segs[1..][1..][1..] == [];
    assert JoinPath(segs) == "/payments" + ("/v1" + "/sessions");
    assert "/v1" + "/sessions" == "/v1/sessions";
    assert "/payments" + "/v1/sessions" == SessionsEndpoint;
  }

  /** A slash-led word that begins none of the session endpoint's segments does not occur in it. */
  lemma SessionsExcludes(e: string, w: string)
    requires e == JoinPath(["payments", "v1", "sessions"])
    requires '/' !in w
    requires !(w <= "payments") && !(w <= "v1") && !(w <= "sessions")
    ensures !Includes(e, "/" + w)
  {
    var segs := ["payments", "v1", "sessions"];
    SlashWordInPath(segs, w);
  }

  /** The session endpoint names no order action. */
  lemma SessionsUnclassified(e: string)
    requires e == JoinPath(["payments", "v1", "sessions"])
    ensures !Includes(e, "/cancel") && !Includes(e, "/captures") && !Includes(e, "/refunds")
  {
    DiffersAt("cancel", "payments", 0);
    DiffersAt("cancel", "v1", 0);
    DiffersAt("cancel", "sessions", 0);
    SessionsExcludes(e, "cancel");
    assert "/" + "cancel" == "/cancel";
    DiffersAt("captures", "payments", 0);
    DiffersAt("captures", "v1", 0);
    DiffersAt("captures", "sessions", 0);
    SessionsExcludes(e, "captures");
    assert "/" + "captures" == "/captures";
    DiffersAt("refunds", "payments", 0);
    DiffersAt("refunds", "v1", 0);
    DiffersAt("refunds", "sessions", 0);
    SessionsExcludes(e, "refunds");
    assert "/" + "refunds" == "/refunds";
  }

  /** Every ok answer to a session request, 201 and 204 included, is relayed as it parsed: 200 with
      the body, or 500 with the parse error. */
  lemma SessionOkIsRelayed(c: Config, body: Option<Json>, resp: ProviderResponse, stringify: Json -> string)
    requires CredentialsConfigured(c) && IsOkStatus(resp.status)
    ensures resp.body.Parsed? ==>
      CreateSession(c, body, Responded(resp), stringify).status == 200
      && CreateSession(c, body, Responded(resp), stringify).body == resp.body.value
    ensures resp.body.Unparseable? ==>
      CreateSession(c, body, Responded(resp), stringify).status == 500
      && CreateSession(c, body, Responded(resp), stringify).body == ErrorBody(resp.body.error)
  {
    SessionsPath();
    SessionsUnclassified(SessionsEndpoint);
  }

  /** An order the provider returns with 200 is handed to the client as it parsed. */
  lemma GetOrderRelaysOk(c: Config, orderId: string, headers: map<string, string>, order: Json,
                         stringify: Json -> string)
    requires CredentialsConfigured(c)
    ensures GetOrder(c, orderId, Responded(ProviderResponse(200, headers, Parsed(order))), stringify)
              == Reply(Some(BuildRequest(c, Get, OrderEndpoint(orderId), None)), 200, order)
  {
  }

  /** A capture the provider refuses with a textual `error_message` is answered with 500 and that
      text, whatever the status; the rest of the provider's body is dropped. */
  lemma CaptureRefusedCarriesMessage(c: Config, orderId: string, status: int, headers: map<string, string>,
                                     fields: map<string, Json>, message: string, stringify: Json -> string)
    requires CredentialsConfigured(c) && !IsOkStatus(status)
    requires "error_message" in fields && fields["error_message"] == JString(message) && message != ""
    ensures CaptureOrder(c, orderId, Responded(ProviderResponse(status, headers, Parsed(JObject(fields)))),
                         stringify)
              == Reply(Some(BuildRequest(c, Post, CaptureEndpoint(orderId),
                                         Some(JObject(map["captured_amount" := JNumber(DefaultAmount)])))),
                       500, ErrorBody(message))
  {
  }
}
