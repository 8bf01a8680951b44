/** The billing-portal endpoint (api/stripe/create-portal-session.js): early-return status
    decisions around one `.single()` lookup of the user's active payment row. */
module PortalEndpoint {
  import opened Types
  import opened PaymentTable

  datatype PortalBody = PortalBody(userId: Option<string>)

  /** `body` is `None` when the request carries no body, so destructuring it throws. */
  datatype PortalRequest = PortalRequest(httpMethod: string, body: Option<PortalBody>)

  /** What `billingPortal.sessions.create` is called with. */
  datatype PortalParams = PortalParams(customer: string, returnUrl: string)

  /** The response, and the portal session requested on the way, if one was. */
  datatype PortalResult = PortalResult(response: HttpResponse, requested: Option<PortalParams>)

  /** The lookup `.eq('user_id', userId).eq('status', 'active').single()`. */
  function ActiveRow(payments: seq<Payment>, userId: UserId): (r: Option<Payment>)
    ensures r.Some? ==> r.value in payments && r.value.userId == userId && r.value.status == Active
    ensures r.Some? <==> CountWhere(payments, ByUserAndStatus(userId, Active)) == 1
  {
    SingleWhere(payments, ByUserAndStatus(userId, Active))
  }

  /** The user's active row has a usable customer id. */
  predicate HasPortalCustomer(payments: seq<Payment>, userId: UserId)
  {
    var row := ActiveRow(payments, userId);
    row.Some? && Truthy(row.value.stripeCustomerId)
  }

  /** `appUrl` stands for `VITE_APP_URL`; `sessionUrl` is the billing provider's answer to
      the portal request (`None` when that call throws). */
  function CreatePortalSession(req: PortalRequest, payments: seq<Payment>, appUrl: string,
                               sessionUrl: Option<string>): (r: PortalResult)
    ensures r.response.status in {200, 400, 404, 405, 500}
    ensures r.response.status == 405 <==> req.httpMethod != "POST"
    ensures req.httpMethod == "POST" && req.body.None? ==> r.response.status == 500 && r.requested.None?
    ensures r.response.status == 400 <==>
              req.httpMethod == "POST" && req.body.Some? && !Truthy(req.body.value.userId)
    ensures r.response.status == 404 <==>
              && req.httpMethod == "POST" && req.body.Some? && Truthy(req.body.value.userId)
              && !HasPortalCustomer(payments, req.body.value.userId.value)
    ensures r.requested.Some? <==>
              && req.httpMethod == "POST" && req.body.Some? && Truthy(req.body.value.userId)
              && HasPortalCustomer(payments, req.body.value.userId.value)
    ensures r.requested.Some? ==>
              && r.requested.value.customer
                   == ActiveRow(payments, req.body.value.userId.value).value.stripeCustomerId.value
              && r.requested.value.returnUrl == appUrl + "/billing"
    ensures r.response.status == 200 <==> r.requested.Some? && sessionUrl.Some?
    ensures r.response.status == 200 ==> r.response.body == UrlBody(sessionUrl.value)
  {
    if req.httpMethod != "POST" then
      PortalResult(HttpResponse(405, ErrorBody("Method not allowed")), None)
    else if req.body.None? then
      PortalResult(HttpResponse(500, ErrorBody("Internal server error")), None)
    else if !Truthy(req.body.value.userId) then
      PortalResult(HttpResponse(400, ErrorBody("Missing userId")), None)
    else
      var payment := ActiveRow(payments, req.body.value.userId.value);
      if payment.None? || !Truthy(payment.value.stripeCustomerId) then
        PortalResult(HttpResponse(404, ErrorBody("No active subscription found")), None)
      else
        var params := PortalParams(payment.value.stripeCustomerId.value, appUrl + "/billing");
        match sessionUrl
        case None => PortalResult(HttpResponse(500, ErrorBody("Internal server error")), Some(params))
        case Some(url) => PortalResult(HttpResponse(200, UrlBody(url)), Some(params))
  }

  /** Only an active row of the requesting user can open the portal: inactive and cancelled
      rows never qualify. */
  lemma PortalCustomerIsActive(req: PortalRequest, payments: seq<Payment>, appUrl: string,
                               sessionUrl: Option<string>)
    requires CreatePortalSession(req, payments, appUrl, sessionUrl).requested.Some?
    ensures var customer := CreatePortalSession(req, payments, appUrl, sessionUrl).requested.value.customer;
      exists i :: 0 <= i < |payments| && payments[i].userId == req.body.value.userId.value
                  && payments[i].status == Active && payments[i].stripeCustomerId == Some(customer)
  {
  }

  /** `.single()` fails on two rows: a user with two active rows is answered 404. */
  lemma TwoActiveRowsGive404(userId: UserId, a: Payment, b: Payment, appUrl: string,
                                                sessionUrl: Option<string>)
    requires userId != "" && a.userId == userId && b.userId == userId
    requires a.status == Active && b.status == Active
    ensures CreatePortalSession(PortalRequest("POST", Some(PortalBody(Some(userId)))), [a, b],
                                appUrl, sessionUrl).response.status == 404
  {
  }
}
