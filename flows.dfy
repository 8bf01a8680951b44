/** How the pieces fit: the billing page's upgrade price, the checkout endpoint's session
    metadata, and the webhook that reads both back. */
module Flows {
  import opened Types
  import Catalog
  import Billing
  import CheckoutEndpoint
  import Webhook
  import Budgets
  import BudgetItemsForm
  import NewBudget

  /** The checkout session the billing provider reports for parameters `p`: it echoes the
      session metadata and the first line item's price. */
  function EchoedSession(p: CheckoutEndpoint.SessionParams, subscriptionId: string, startDate: int, customerId: string)
    : (s: Webhook.CheckoutSession)
    requires "userId" in p.metadata && |p.lineItems| > 0
    ensures s.metadata == Some(Webhook.SessionMetadata(Some(p.metadata["userId"])))
    ensures s.firstItemPriceId == Some(p.lineItems[0].price)
  {
    Webhook.CheckoutSession(Some(Webhook.SessionMetadata(Some(p.metadata["userId"]))),
                            subscriptionId, Some(p.lineItems[0].price), startDate, customerId)
  }

  /** A session the checkout endpoint requested credits the requesting user, when the
      provider echoes it back, with the plan of the requested price. */
  lemma CheckoutMetadataCreditsUser(req: CheckoutEndpoint.CheckoutRequest, appUrl: string,
                                    sessionId: Option<string>, t: Webhook.Tables,
                                    subscriptionId: string, startDate: int, customerId: string)
    requires CheckoutEndpoint.CreateCheckoutSession(req, appUrl, sessionId).requested.Some?
    ensures var p := CheckoutEndpoint.CreateCheckoutSession(req, appUrl, sessionId).requested.value;
      var s := EchoedSession(p, subscriptionId, startDate, customerId);
      var userId := req.body.value.userId.value;
      var plan := Webhook.PlanForPrice(req.body.value.priceId);
      && Webhook.CreditsUser(s)
      && s.metadata.value.userId == Some(userId)
      && Webhook.AfterCheckout(t, s).users.Keys == t.users.Keys
      && (userId in t.users ==> Webhook.AfterCheckout(t, s).users[userId] == plan)
      && Webhook.AfterCheckout(t, s).payments[|t.payments|].userId == userId
      && Webhook.AfterCheckout(t, s).payments[|t.payments|].plan == plan
  {
  }

  /** The price an upgrade button carries maps back, in the webhook, to that card's plan. */
  lemma UpgradePriceMapsToCardPlan(card: Billing.PlanCard, current: Plan)
    requires card in Billing.PlanCards
    requires Billing.ChooseAction(card, current).Upgrade?
    ensures Webhook.PlanForPrice(Billing.ChooseAction(card, current).priceId) == card.plan
    ensures card.plan != Free
  {
  }

  /** The whole upgrade: a free user presses "Fazer Upgrade" on a paid card, the checkout
      endpoint accepts the request, and the echoed completion raises the user to that plan. */
  lemma UpgradeReachesCardPlan(user: User, card: Billing.PlanCard, appUrl: string, sessionId: Option<string>,
                               t: Webhook.Tables, subscriptionId: string, startDate: int, customerId: string)
    requires card in Billing.PlanCards
    requires user.id != "" && user.email != "" && user.id in t.users
    requires Billing.ChooseAction(card, Billing.CurrentPlan(Some(user))).Upgrade?
    ensures var action := Billing.ChooseAction(card, Billing.CurrentPlan(Some(user)));
      var req := CheckoutEndpoint.CheckoutRequest("POST",
                   Some(CheckoutEndpoint.CheckoutBody(action.priceId, Some(user.id), Some(user.email))));
      var r := CheckoutEndpoint.CreateCheckoutSession(req, appUrl, sessionId);
      && r.requested.Some?
      && Webhook.AfterCheckout(t, EchoedSession(r.requested.value, subscriptionId, startDate, customerId))
           .users[user.id] == card.plan
  {
  }

  /** The inserted item rows, in insert order, once the store has given them their ids; the
      detail query may list them in any order. */
  function FetchedItems(stored: seq<BudgetItemInsert>, ids: seq<string>): (r: seq<BudgetItem>)
    requires |ids| == |stored|
    ensures |r| == |stored|
    ensures forall k :: 0 <= k < |r| ==>
              r[k] == BudgetItem(ids[k], stored[k].budgetId, stored[k].description,
                                 stored[k].quantity, stored[k].unitPrice, stored[k].totalPrice)
  {
    seq(|stored|, k requires 0 <= k < |stored| =>
      BudgetItem(ids[k], stored[k].budgetId, stored[k].description,
                 stored[k].quantity, stored[k].unitPrice, stored[k].totalPrice))
  }

  /** Two item lists with the same totals position by position have equal sums. */
  lemma {:induction false} TotalsAgree(rows: seq<BudgetItem>, items: seq<BudgetItemsForm.ItemFormData>)
    requires |rows| == |items|
    requires forall k :: 0 <= k < |rows| ==> rows[k].totalPrice == items[k].totalPrice
    ensures Budgets.TotalAmount(rows) == BudgetItemsForm.Subtotal(items)
    decreases |rows|
  {
    if rows != [] {
      TotalsAgree(rows[..|rows| - 1], items[..|items| - 1]);
    }
  }

  /** The total the budget list shows for a created budget is the subtotal the form showed
      when it was submitted, in whatever order the store lists the budget's item rows. */
  lemma FetchedTotalIsFormSubtotal(items: seq<BudgetItemsForm.ItemFormData>, budgetId: string, ids: seq<string>,
                                   rows: seq<BudgetItem>)
    requires |ids| == |items|
    requires multiset(rows) == multiset(FetchedItems(NewBudget.StoredItems(items, budgetId), ids))
    ensures Budgets.TotalAmount(rows) == BudgetItemsForm.Subtotal(items)
  {
    TotalsAgree(FetchedItems(NewBudget.StoredItems(items, budgetId), ids), items);
    Budgets.TotalAmountPermutation(rows, FetchedItems(NewBudget.StoredItems(items, budgetId), ids));
  }
}
