/** The billing webhook (api/stripe/webhook.js): a request gate, a dispatch on the event
    type, and four handlers that reconcile the `users` and `payments` tables. */
module Webhook {
  import opened Types
  import Catalog
  import opened PaymentTable

  /** `session.metadata`, when the session has one. */
  datatype SessionMetadata = SessionMetadata(userId: Option<string>)

  /** A completed checkout session, with the subscription and customer it names already
      retrieved from the billing provider: the subscription id, the first item's price id
      (absent when the subscription has no item), its start time, and the customer id. */
  datatype CheckoutSession = CheckoutSession(
    metadata: Option<SessionMetadata>,
    subscriptionId: string,
    firstItemPriceId: Option<string>,
    startDate: int,
    customerId: string)

  datatype Invoice = Invoice(customer: Option<string>)

  datatype DeletedSubscription = DeletedSubscription(id: string)

  /** A verified event, classified by its `type`. */
  datatype Event =
    | CheckoutSessionCompleted(session: CheckoutSession)   // 'checkout.session.completed'
    | InvoicePaymentSucceeded(invoice: Invoice)            // 'invoice.payment_succeeded'
    | InvoicePaymentFailed(invoice: Invoice)               // 'invoice.payment_failed'
    | CustomerSubscriptionDeleted(subscription: DeletedSubscription)  // 'customer.subscription.deleted'
    | Unhandled(eventType: string)                         // any other type

  /** An inbound delivery: its HTTP method and the event the signature check yields
      (`None` when `constructEvent` rejects the signature). */
  datatype Request = Request(httpMethod: string, verifiedEvent: Option<Event>)

  /** The two tables the handlers write. */
  datatype Tables = Tables(users: map<UserId, Plan>, payments: seq<Payment>)

  /** Price id of the subscription's first item to plan: the two catalog prices map to
      their plans; any other price, or no first item, leaves the plan `free`. */
  function PlanForPrice(firstItemPriceId: Option<string>): (plan: Plan)
    ensures plan == Pro <==> firstItemPriceId == Some(Catalog.ProPriceId)
    ensures plan == Premium <==> firstItemPriceId == Some(Catalog.PremiumPriceId)
    ensures plan == Free <==> firstItemPriceId !in {Some(Catalog.ProPriceId), Some(Catalog.PremiumPriceId)}
  {
    Catalog.CatalogShape();
    var plan := Free;
    if firstItemPriceId.None? then plan
    else
      var priceId := firstItemPriceId.value;
      var plan := if priceId == "price_pro_monthly" then Pro else plan;
      if priceId == "price_premium_monthly" then Premium else plan
  }

  /** Every catalog price id maps back to its own plan. */
  lemma PriceRoundTrip(p: Plan)
    requires p in Catalog.StripePlans
    ensures PlanForPrice(Some(Catalog.StripePlans[p].priceId)) == p
  {
  }

  /** `users.update({ user_plan }).eq('id', id)`: only the row `id` changes, and only if it exists. */
  function SetPlan(users: map<UserId, Plan>, id: UserId, plan: Plan): (r: map<UserId, Plan>)
    ensures r.Keys == users.Keys
    ensures id in users ==> r[id] == plan
    ensures forall u :: u in users && u != id ==> r[u] == users[u]
  {
    if id in users then users[id := plan] else users
  }

  /** Reading `session.metadata.userId` throws when the session has no metadata. */
  predicate CheckoutThrows(session: CheckoutSession)
  {
    session.metadata.None?
  }

  /** The user a checkout session credits, when its metadata carries a non-empty user id. */
  predicate CreditsUser(session: CheckoutSession)
  {
    session.metadata.Some? && Truthy(session.metadata.value.userId)
  }

  /** The payment row a checkout session writes for `userId`. */
  function CheckoutRow(session: CheckoutSession, userId: UserId): (row: PaymentInsert)
    ensures row.userId == userId && row.status == Active && row.endedAt.None?
    ensures row.plan == PlanForPrice(session.firstItemPriceId)
    ensures row.stripeCustomerId == Some(session.customerId)
    ensures row.stripeSubscriptionId == Some(session.subscriptionId)
    ensures row.startedAt == session.startDate
  {
    PaymentInsert(userId, Some(session.customerId), Some(session.subscriptionId),
                  PlanForPrice(session.firstItemPriceId), Active, session.startDate, None)
  }

  /** `handleCheckoutCompleted`: without a user id nothing changes; otherwise the user's
      plan is set and a payment row is appended (the upsert names no conflict key). */
  function AfterCheckout(t: Tables, session: CheckoutSession): Tables
  {
    if !CreditsUser(session) then t
    else
      var userId := session.metadata.value.userId.value;
      Tables(SetPlan(t.users, userId, PlanForPrice(session.firstItemPriceId)),
             Inserted(t.payments, CheckoutRow(session, userId)))
  }

  /** `handlePaymentSucceeded` (`status` = active) and `handlePaymentFailed` (`status` =
      inactive): every row of the invoice's customer gets `status`; nothing else changes. */
  function AfterInvoice(t: Tables, invoice: Invoice, status: PaymentStatus): Tables
  {
    if !Truthy(invoice.customer) then t
    else Tables(t.users, UpdateWhere(t.payments, ByCustomer(invoice.customer.value), Patch(status, None)))
  }

  /** `handleSubscriptionDeleted`: when `.single()` finds the subscription's row, its user
      drops to `free` and the rows of that subscription become cancelled, ended `now`. */
  function AfterDeletion(t: Tables, subscription: DeletedSubscription, now: int): Tables
  {
    match SingleWhere(t.payments, BySubscription(subscription.id))
    case None => t
    case Some(p) =>
      Tables(SetPlan(t.users, p.userId, Free),
             UpdateWhere(t.payments, BySubscription(subscription.id), Patch(Cancelled, Some(now))))
  }

  /** The dispatch `switch`: unhandled event types leave the tables as they are. */
  function Apply(t: Tables, e: Event, now: int): Tables
  {
    match e
    case CheckoutSessionCompleted(s) => AfterCheckout(t, s)
    case InvoicePaymentSucceeded(inv) => AfterInvoice(t, inv, Active)
    case InvoicePaymentFailed(inv) => AfterInvoice(t, inv, Inactive)
    case CustomerSubscriptionDeleted(sub) => AfterDeletion(t, sub, now)
    case Unhandled(_) => t
  }

  /** A checkout carrying a user id sets that user's plan to the mapped plan, leaves every
      other plan alone, and appends one active row for that user, customer and subscription. */
  lemma CheckoutEffect(t: Tables, session: CheckoutSession)
    requires CreditsUser(session)
    ensures var r := AfterCheckout(t, session);
      var userId := session.metadata.value.userId.value;
      var plan := PlanForPrice(session.firstItemPriceId);
      && r.users.Keys == t.users.Keys
      && (userId in t.users ==> r.users[userId] == plan)
      && (forall u :: u in t.users && u != userId ==> r.users[u] == t.users[u])
      && |r.payments| == |t.payments| + 1
      && r.payments[..|t.payments|] == t.payments
      && r.payments[|t.payments|].userId == userId
      && r.payments[|t.payments|].plan == plan
      && r.payments[|t.payments|].status == Active
      && r.payments[|t.payments|].stripeCustomerId == Some(session.customerId)
      && r.payments[|t.payments|].stripeSubscriptionId == Some(session.subscriptionId)
  {
  }

  /** An invoice event keeps the users and the number of rows; without a customer id it
      changes nothing. */
  lemma InvoiceTableEffect(t: Tables, invoice: Invoice, status: PaymentStatus)
    ensures var r := AfterInvoice(t, invoice, status);
      && r.users == t.users
      && |r.payments| == |t.payments|
      && (!Truthy(invoice.customer) ==> r == t)
  {
  }

  /** An invoice event touches exactly the rows of its customer, and no user plan. */
  lemma {:induction false} InvoiceEffect(t: Tables, invoice: Invoice, status: PaymentStatus, k: nat)
    requires Truthy(invoice.customer)
    requires k < |t.payments|
    ensures var r := AfterInvoice(t, invoice, status);
      && r.users == t.users
      && |r.payments| == |t.payments|
      && (t.payments[k].stripeCustomerId == invoice.customer ==> r.payments[k] == t.payments[k].(status := status))
      && (t.payments[k].stripeCustomerId != invoice.customer ==> r.payments[k] == t.payments[k])
  {
    UpdateWhereAt(t.payments, ByCustomer(invoice.customer.value), Patch(status, None), k);
  }

  /** Delivering the same invoice event twice leaves the tables as delivering it once. */
  lemma {:induction false} InvoiceIdempotent(t: Tables, invoice: Invoice, status: PaymentStatus)
    ensures AfterInvoice(AfterInvoice(t, invoice, status), invoice, status) == AfterInvoice(t, invoice, status)
  {
    if Truthy(invoice.customer) {
      UpdateWhereIdempotent(t.payments, ByCustomer(invoice.customer.value), Patch(status, None));
    }
  }

  /** Deletion of a subscription with exactly one row downgrades that row's user to free and
      cancels exactly the rows of that subscription; otherwise nothing changes. */
  lemma {:induction false} DeletionEffect(t: Tables, subscription: DeletedSubscription, now: int, k: nat)
    requires k < |t.payments|
    ensures var r := AfterDeletion(t, subscription, now);
      var found := SingleWhere(t.payments, BySubscription(subscription.id));
      && (found.None? ==> r == t)
      && (found.Some? ==>
            && found.value in t.payments
            && found.value.stripeSubscriptionId == Some(subscription.id)
            && r.users.Keys == t.users.Keys
            && (found.value.userId in t.users ==> r.users[found.value.userId] == Free)
            && (forall u :: u in t.users && u != found.value.userId ==> r.users[u] == t.users[u])
            && |r.payments| == |t.payments|
            && (t.payments[k].stripeSubscriptionId == Some(subscription.id) ==>
                  r.payments[k] == t.payments[k].(status := Cancelled, endedAt := Some(now)))
            && (t.payments[k].stripeSubscriptionId != Some(subscription.id) ==>
                  r.payments[k] == t.payments[k]))
  {
    UpdateWhereAt(t.payments, BySubscription(subscription.id), Patch(Cancelled, Some(now)), k);
  }

  /** Deletion as a whole: with no single row for the subscription nothing changes; with one,
      only that row's user changes (to free) and the number of rows is kept. */
  lemma DeletionTableEffect(t: Tables, subscription: DeletedSubscription, now: int)
    ensures var r := AfterDeletion(t, subscription, now);
      var found := SingleWhere(t.payments, BySubscription(subscription.id));
      && (found.None? ==> r == t)
      && (found.Some? ==>
            && found.value in t.payments
            && found.value.stripeSubscriptionId == Some(subscription.id)
            && r.users.Keys == t.users.Keys
            && (found.value.userId in t.users ==> r.users[found.value.userId] == Free)
            && (forall u :: u in t.users && u != found.value.userId ==> r.users[u] == t.users[u])
            && |r.payments| == |t.payments|)
  {
  }

  /** Every event keeps row ids equal to row positions. */
  lemma ApplyKeepsIds(t: Tables, e: Event, now: int)
    requires IdsArePositions(t.payments)
    ensures IdsArePositions(Apply(t, e, now).payments)
  {
    match e
    case CheckoutSessionCompleted(s) =>
    case InvoicePaymentSucceeded(inv) =>
      if Truthy(inv.customer) {
        UpdateWhereKeepsIds(t.payments, ByCustomer(inv.customer.value), Patch(Active, None));
      }
    case InvoicePaymentFailed(inv) =>
      if Truthy(inv.customer) {
        UpdateWhereKeepsIds(t.payments, ByCustomer(inv.customer.value), Patch(Inactive, None));
      }
    case CustomerSubscriptionDeleted(sub) =>
      UpdateWhereKeepsIds(t.payments, BySubscription(sub.id), Patch(Cancelled, Some(now)));
    case Unhandled(_) =>
  }

  /** The code does not make `cancelled` terminal: a later successful payment of the same
      customer reactivates a cancelled row. */
  lemma CancelledIsNotTerminal()
    ensures var row := Payment(0, "u1", Some("c1"), Some("s1"), Pro, Cancelled, 0, Some(10));
      var t := Tables(map["u1" := Free], [row]);
      && AfterInvoice(t, Invoice(Some("c1")), Active).payments[0].status == Active
  {
  }

  /** No deduplication: the same checkout delivered twice appends two rows for one
      subscription, after which `.single()` finds no single row and deletion changes nothing,
      so the user keeps the paid plan. */
  lemma DuplicateCheckoutBlocksDeletion(users: map<UserId, Plan>, session: CheckoutSession, now: int)
    requires CreditsUser(session)
    ensures var t := Apply(Apply(Tables(users, []), CheckoutSessionCompleted(session), now),
                           CheckoutSessionCompleted(session), now);
      && |t.payments| == 2
      && AfterDeletion(t, DeletedSubscription(session.subscriptionId), now) == t
  {
  }

  /** A checkout for user u1, subscription s1 at the pro price, customer c1. */
  lemma ProCheckoutScenario(users: map<UserId, Plan>, payments: seq<Payment>)
    requires "u1" in users
    ensures var session := CheckoutSession(Some(SessionMetadata(Some("u1"))), "s1", Some("price_pro_monthly"), 0, "c1");
      var r := Apply(Tables(users, payments), CheckoutSessionCompleted(session), 0);
      && r.users["u1"] == Pro
      && r.payments[|payments|].userId == "u1"
      && r.payments[|payments|].status == Active
      && r.payments[|payments|].plan == Pro
  {
  }

  /** The reconciler's store. Each handler writes the two tables in turn. */
  class Store {
    var users: map<UserId, Plan>
    var payments: seq<Payment>

    ghost predicate Valid()
      reads this
    {
      IdsArePositions(payments)
    }

    function Snapshot(): Tables
      reads this
    {
      Tables(users, payments)
    }

    constructor (initialUsers: map<UserId, Plan>)
      ensures Valid()
      ensures users == initialUsers && payments == []
    {
      users := initialUsers;
      payments := [];
    }

    /** Returns false when reading the session's metadata throws (no metadata). */
    method HandleCheckoutCompleted(session: CheckoutSession) returns (completed: bool)
      requires Valid()
      modifies this
      ensures Valid()
      ensures completed <==> !CheckoutThrows(session)
      ensures Snapshot() == AfterCheckout(old(Snapshot()), session)
    {
      if session.metadata.None? {
        return false;
      }
      completed := true;
      var userId := session.metadata.value.userId;
      if !Truthy(userId) {
        return;
      }
      var plan := PlanForPrice(session.firstItemPriceId);
      users := SetPlan(users, userId.value, plan);
      payments := Inserted(payments, CheckoutRow(session, userId.value));
    }

    method HandlePaymentSucceeded(invoice: Invoice)
      requires Valid()
      modifies this
      ensures Valid()
      ensures Snapshot() == AfterInvoice(old(Snapshot()), invoice, Active)
    {
      var customerId := invoice.customer;
      if !Truthy(customerId) {
        return;
      }
      UpdateWhereKeepsIds(payments, ByCustomer(customerId.value), Patch(Active, None));
      payments := UpdateWhere(payments, ByCustomer(customerId.value), Patch(Active, None));
    }

    method HandlePaymentFailed(invoice: Invoice)
      requires Valid()
      modifies this
      ensures Valid()
      ensures Snapshot() == AfterInvoice(old(Snapshot()), invoice, Inactive)
    {
      var customerId := invoice.customer;
      if !Truthy(customerId) {
        return;
      }
      UpdateWhereKeepsIds(payments, ByCustomer(customerId.value), Patch(Inactive, None));
      payments := UpdateWhere(payments, ByCustomer(customerId.value), Patch(Inactive, None));
    }

    /** `now` is the time `new Date()` reads for `ended_at`. */
    method HandleSubscriptionDeleted(subscription: DeletedSubscription, now: int)
      requires Valid()
      modifies this
      ensures Valid()
      ensures Snapshot() == AfterDeletion(old(Snapshot()), subscription, now)
    {
      var payment := SingleWhere(payments, BySubscription(subscription.id));
      if payment.Some? {
        users := SetPlan(users, payment.value.userId, Free);
        UpdateWhereKeepsIds(payments, BySubscription(subscription.id), Patch(Cancelled, Some(now)));
        payments := UpdateWhere(payments, BySubscription(subscription.id), Patch(Cancelled, Some(now)));
      }
    }

    /** The exported request handler; returns the HTTP status it responds with. */
    method Receive(req: Request, now: int) returns (status: int)
      requires Valid()
      modifies this
      ensures Valid()
      ensures req.httpMethod != "POST" ==> status == 405 && Snapshot() == old(Snapshot())
      ensures req.httpMethod == "POST" && req.verifiedEvent.None? ==>
                status == 400 && Snapshot() == old(Snapshot())
      ensures req.httpMethod == "POST" && req.verifiedEvent.Some? ==>
                && Snapshot() == Apply(old(Snapshot()), req.verifiedEvent.value, now)
                && status == (if req.verifiedEvent.value.CheckoutSessionCompleted?
                                 && CheckoutThrows(req.verifiedEvent.value.session) then 500 else 200)
    {
      if req.httpMethod != "POST" {
        return 405;
      }
      if req.verifiedEvent.None? {
        return 400;
      }
      match req.verifiedEvent.value {
        case CheckoutSessionCompleted(session) =>
          var completed := HandleCheckoutCompleted(session);
          if !completed {
            return 500;
          }
        case InvoicePaymentSucceeded(invoice) =>
          HandlePaymentSucceeded(invoice);
        case InvoicePaymentFailed(invoice) =>
          HandlePaymentFailed(invoice);
        case CustomerSubscriptionDeleted(subscription) =>
          HandleSubscriptionDeleted(subscription, now);
        case Unhandled(_) =>
      }
      status := 200;
    }
  }
}
