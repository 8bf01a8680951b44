/** The checkout endpoint (api/stripe/create-checkout-session.js): a presence check on three
    request fields, then one subscription-mode checkout session. */
module CheckoutEndpoint {
  import opened Types

  datatype CheckoutBody = CheckoutBody(priceId: Option<string>, userId: Option<string>, userEmail: Option<string>)

  /** `body` is `None` when the request carries no body, so destructuring it throws. */
  datatype CheckoutRequest = CheckoutRequest(httpMethod: string, body: Option<CheckoutBody>)

  datatype LineItem = LineItem(price: string, quantity: int)

  /** What `checkout.sessions.create` is called with. */
  datatype SessionParams = SessionParams(
    mode: string,
    paymentMethodTypes: seq<string>,
    lineItems: seq<LineItem>,
    successUrl: string,
    cancelUrl: string,
    customerEmail: string,
    metadata: map<string, string>,
    subscriptionMetadata: map<string, string>)

  /** The response, and the checkout session requested on the way, if one was. */
  datatype CheckoutResult = CheckoutResult(response: HttpResponse, requested: Option<SessionParams>)

  /** The parameter object; `appUrl` stands for `VITE_APP_URL`. */
  function SessionParamsFor(priceId: string, userId: string, userEmail: string, appUrl: string): (p: SessionParams)
    ensures p.mode == "subscription"
    ensures p.paymentMethodTypes == ["card"]
    ensures p.lineItems == [LineItem(priceId, 1)]
    ensures p.customerEmail == userEmail
    ensures p.metadata.Keys == {"userId"} && p.metadata["userId"] == userId
    ensures p.subscriptionMetadata.Keys == {"userId"} && p.subscriptionMetadata["userId"] == userId
    ensures p.successUrl == appUrl + "/billing?success=true"
    ensures p.cancelUrl == appUrl + "/billing?canceled=true"
  {
    SessionParams(
      "subscription", ["card"], [LineItem(priceId, 1)],
      appUrl + "/billing?success=true", appUrl + "/billing?canceled=true",
      userEmail, map["userId" := userId], map["userId" := userId])
  }

  predicate HasRequiredFields(body: CheckoutBody)
  {
    Truthy(body.priceId) && Truthy(body.userId) && Truthy(body.userEmail)
  }

  /** `sessionId` is the billing provider's answer to the session request (`None` when that
      call throws). */
  function CreateCheckoutSession(req: CheckoutRequest, appUrl: string, sessionId: Option<string>): (r: CheckoutResult)
    ensures r.response.status in {200, 400, 405, 500}
    ensures r.response.status == 405 <==> req.httpMethod != "POST"
    ensures req.httpMethod == "POST" && req.body.None? ==> r.response.status == 500 && r.requested.None?
    ensures r.response.status == 400 <==>
              req.httpMethod == "POST" && req.body.Some? && !HasRequiredFields(req.body.value)
    ensures r.requested.Some? <==>
              req.httpMethod == "POST" && req.body.Some? && HasRequiredFields(req.body.value)
    ensures r.requested.Some? ==>
              var b := req.body.value;
              r.requested.value == SessionParamsFor(b.priceId.value, b.userId.value, b.userEmail.value, appUrl)
    ensures r.response.status == 200 <==> r.requested.Some? && sessionId.Some?
    ensures r.response.status == 200 ==> r.response.body == SessionIdBody(sessionId.value)
  {
    if req.httpMethod != "POST" then
      CheckoutResult(HttpResponse(405, ErrorBody("Method not allowed")), None)
    else if req.body.None? then
      CheckoutResult(HttpResponse(500, ErrorBody("Internal server error")), None)
    else
      var b := req.body.value;
      if !Truthy(b.priceId) || !Truthy(b.userId) || !Truthy(b.userEmail) then
        CheckoutResult(HttpResponse(400, ErrorBody("Missing required parameters")), None)
      else
        var params := SessionParamsFor(b.priceId.value, b.userId.value, b.userEmail.value, appUrl);
        match sessionId
        case None => CheckoutResult(HttpResponse(500, ErrorBody("Internal server error")), Some(params))
        case Some(id) => CheckoutResult(HttpResponse(200, SessionIdBody(id)), Some(params))
  }
}
