# OrcaFacil core, modelled in Dafny

OrcaFacil is a quoting application for small businesses. A user keeps a list of clients and
writes budgets (quotes) of line items. Free-plan users may create ten budgets per calendar
month. Pro and premium users may create any number, and they pay through a billing provider
(Stripe).

This project models the parts of the application that decide things:

- **Webhook reconciler** (`api/stripe/webhook.js`). It checks the method, dispatches each
  verified event, and keeps the `users` and `payments` tables in step with the provider's
  events. It is modelled as the class `Webhook.Store`, with one method per handler. Each
  method is proved equal to a function on `Tables`, and the lemmas about the reconciler are
  stated on those functions.
- **Payment table operations** (module `PaymentTable`). These are the filtered `update`, the
  id-less insert, and the `.single()` lookup. The webhook and the portal endpoint both use
  them.
- **Price catalog** (`src/lib/stripe.ts`). Only the price ids are modelled.
- **Checkout and portal endpoints** (`api/stripe/create-checkout-session.js` and
  `create-portal-session.js`). Each is a function from the request, the stored rows and the
  provider's answer to a response and the provider request it makes.
- **Budget totals, statistics and quota** (`src/hooks/useBudgets.ts`).
- **Line-item form** (`src/components/budgets/BudgetItemsForm.tsx`), including the
  `total_price = quantity * unit_price` recomputation.
- **New-budget page** (`src/pages/NewBudget.tsx`). This covers item validation with its
  error keys and messages, and submission with its guard, the rows it stores and its failure
  outcomes.
- **Client list** (`src/hooks/useClients.ts`). It is modelled as the class
  `Clients.ClientList`, whose list is rebuilt after each successful remote call. The proofs
  cover the name sort (sorted, a permutation), replace-by-id and remove-by-id.
- **Billing page** (`src/pages/Billing.tsx`). This covers the plan cards and the four-way
  choice of each card's button.
- **Data shapes** (`src/types/database.ts`), as datatypes in module `Types`.

The module `Flows` connects the pieces. The price on a billing-page upgrade button goes
into the checkout endpoint's session parameters. The provider echoes the `userId` metadata
back in the completion event, with the requested price as the first subscription item. The
webhook then raises that user to the card's plan.

Payment rows are numbered by position (`PaymentTable.IdsArePositions`). The store assigns
the real string ids, and this numbering stands for their primary-key uniqueness: every
insert takes a fresh id, and no update moves or renumbers a row. The invariant is kept by
`Webhook.Store` (`Valid()`), and `PaymentTable.UpdateWhereKeepsIds` and
`Webhook.ApplyKeepsIds` state it. No other contract needs it.

Remote calls are not performed in the model. Each one (the database and the billing
provider) is an extra parameter holding its answer, with `None` standing for a failed call.
Examples are the id a budget insert receives, whether an item insert succeeds, and the URL
the portal returns. Clocks are parameters too: `now` in the webhook and the budget
statistics.

### Behaviour of the code worth knowing

- **Cancelled is not a final state.** A later `invoice.payment_succeeded` event for the same
  customer sets every row of that customer, cancelled ones included, back to `active`
  (webhook.js:102-105). `Webhook.CancelledIsNotTerminal` exhibits this.
- **Deletion needs exactly one row.** `handleSubscriptionDeleted` looks the row up with
  `.single()` (webhook.js:132-136). That lookup returns no row when zero rows match, and also
  when several do. The checkout upsert has no conflict key, so the same completion
  delivered twice leaves two rows. After that, deleting the subscription changes nothing
  (`Webhook.DuplicateCheckoutBlocksDeletion`). The portal endpoint makes the same lookup, so
  two active rows give a 404 (`PortalEndpoint.TwoActiveRowsGive404`).
- **A missing `session.metadata` throws.** Reading `session.metadata.userId` (webhook.js:56)
  happens outside the handler's own `try`. The error reaches the dispatcher's `catch`, which
  answers 500 (webhook.js:49-52). A missing or empty `userId` returns silently, and the
  answer is 200.
- **Clearing old item errors tests key text.** Before new errors are set, the page clears
  each form error whose key starts with `items.` (NewBudget.tsx:69-73). The key `items`
  does not match that prefix. `NewBudget.FormErrorsAfter` models this over a flat map from
  key to message, so in the model an earlier "add at least one item" error is kept and
  earlier per-field item errors are dropped. The form library keeps field errors nested,
  so the running page may behave differently; see "## Left out".
- **The disabled fallback button is labelled "Plano Inferior" (lower plan).** It is reached
  only by a pro user looking at the premium card (Billing.tsx:117-120, 219-225), which is
  a higher plan. `Billing.DisabledOnlyProToPremium` states when it appears. The model keeps
  the code's choice; the label text is not modelled.

## Model

| member | source | states |
|---|---|---|
| Catalog.PriceIdOf | src/lib/stripe.ts:11-33 | the pro plan's price id is `price_pro_monthly`, the premium plan's is `price_premium_monthly` |
| Catalog.CatalogShape | src/lib/stripe.ts:11-33 | the catalog has exactly the pro and premium entries, no free entry, and two distinct price ids |
| PaymentTable.Patched | api/stripe/webhook.js:102-105 | an update sets `status`, sets `ended_at` only when given, and leaves every other column unchanged |
| PaymentTable.UpdateWhere | api/stripe/webhook.js:102-105 | a filtered update neither adds nor removes rows |
| PaymentTable.UpdateWhereAt | api/stripe/webhook.js:146-152 | a filtered update patches each matching row and leaves each other row as it was, position by position |
| PaymentTable.UpdateWhereIdempotent | api/stripe/webhook.js:117-120 | repeating the same filtered update changes nothing more |
| PaymentTable.UpdateWhereKeepsIds | src/types/database.ts:45-54 | a filtered update keeps every row id in place |
| PaymentTable.Inserted | api/stripe/webhook.js:80-89 | an insert keeps the old rows as a prefix, appends the row with the next id, and keeps ids unique |
| PaymentTable.CountWhere | api/stripe/webhook.js:132-136 | the selected row count is at most the table size, and it is zero exactly when no row matches |
| PaymentTable.FirstWhere | api/stripe/webhook.js:132-136 | a row is found exactly when some row matches, and the found row is a matching row of the table |
| PaymentTable.SingleWhere | api/stripe/webhook.js:132-136 | `.single()` yields a row exactly when one row matches, and that row is the matching row of the table |
| Webhook.PlanForPrice | api/stripe/webhook.js:64-71 | the plan is pro exactly for the pro price and premium exactly for the premium price; it is free for any other price and when there is no first item |
| Webhook.PriceRoundTrip | api/stripe/webhook.js:64-71 | every catalog price id maps back to its own plan |
| Webhook.SetPlan | api/stripe/webhook.js:73-77 | a plan update changes only the named user, only if that user exists, and never adds or removes users |
| Webhook.CheckoutRow | api/stripe/webhook.js:79-89 | the checkout row is active and not ended, for that user, customer and subscription, with the mapped plan and the subscription's start time |
| Webhook.CheckoutEffect | api/stripe/webhook.js:55-94 | a checkout with a user id sets that user's plan, leaves other users alone and appends one matching active row |
| Webhook.InvoiceTableEffect | api/stripe/webhook.js:96-127 | an invoice event keeps every user plan and the number of rows, and without a customer id changes nothing |
| Webhook.InvoiceEffect | api/stripe/webhook.js:96-127 | an invoice event sets the status of exactly that customer's rows and changes no user plan |
| Webhook.InvoiceIdempotent | api/stripe/webhook.js:96-127 | delivering the same invoice event twice has the effect of delivering it once |
| Webhook.DeletionTableEffect | api/stripe/webhook.js:129-157 | without exactly one row for the subscription nothing changes; with one, only that row's user changes, to free, and the number of rows is kept |
| Webhook.DeletionEffect | api/stripe/webhook.js:129-157 | when exactly one row names the subscription, its user drops to free, and exactly that subscription's rows become cancelled with the given end time; otherwise nothing changes |
| Webhook.ApplyKeepsIds | api/stripe/webhook.js:26-46 | every event keeps payment ids equal to their positions |
| Webhook.CancelledIsNotTerminal | api/stripe/webhook.js:96-109 | a successful payment reactivates a cancelled row of the same customer |
| Webhook.DuplicateCheckoutBlocksDeletion | api/stripe/webhook.js:80-89 | the same completion delivered twice leaves two rows, after which the subscription's deletion changes nothing |
| Webhook.ProCheckoutScenario | api/stripe/webhook.js:55-94 | a checkout of user u1 at the pro price makes u1 pro and appends an active pro row for u1 |
| Webhook.Store.constructor | api/stripe/webhook.js:4-7 | the store starts with the given users and no payments |
| Webhook.Store.HandleCheckoutCompleted | api/stripe/webhook.js:55-94 | the tables change as a checkout completion prescribes, and the handler fails exactly when the session has no metadata |
| Webhook.Store.HandlePaymentSucceeded | api/stripe/webhook.js:96-109 | the tables change as an invoice marked active prescribes |
| Webhook.Store.HandlePaymentFailed | api/stripe/webhook.js:111-127 | the tables change as an invoice marked inactive prescribes |
| Webhook.Store.HandleSubscriptionDeleted | api/stripe/webhook.js:129-157 | the tables change as a subscription deletion prescribes |
| Webhook.Store.Receive | api/stripe/webhook.js:11-53 | a non-POST gets 405 and a bad signature 400, neither changing anything; otherwise the event is applied, with 500 for a checkout without metadata and 200 otherwise |
| PortalEndpoint.ActiveRow | api/stripe/create-portal-session.js:22-27 | the lookup yields a row exactly when the user has one active row, and that row is the user's active row |
| PortalEndpoint.CreatePortalSession | api/stripe/create-portal-session.js:9-43 | 405 exactly for non-POST; 500 without a body; 400 exactly for a missing user id; 404 exactly when there is no active row with a customer id; otherwise a portal request for that customer returning to `/billing`, answered 200 with the URL exactly when the provider call succeeds |
| PortalEndpoint.PortalCustomerIsActive | api/stripe/create-portal-session.js:22-34 | the portal is opened only for the customer of an active row of the requesting user |
| PortalEndpoint.TwoActiveRowsGive404 | api/stripe/create-portal-session.js:27-31 | a user with two active rows is answered 404 |
| CheckoutEndpoint.SessionParamsFor | api/stripe/create-checkout-session.js:15-35 | a card-only subscription session for one unit of the price, the customer email, success and cancel URLs under `/billing`, and `userId` metadata on both the session and the subscription |
| CheckoutEndpoint.CreateCheckoutSession | api/stripe/create-checkout-session.js:3-42 | 405 exactly for non-POST; 500 without a body; 400 exactly when a field is missing or empty; otherwise the session request is made, answered 200 with the session id exactly when the provider call succeeds |
| Budgets.TotalAmount | src/hooks/useBudgets.ts:48-49 | a budget with no items totals 0 |
| Budgets.TotalAmountPermutation | src/hooks/useBudgets.ts:49 | the total does not depend on the order of the item rows |
| Budgets.TotalAmountAppend | src/hooks/useBudgets.ts:49 | the total of two item lists together is the sum of their totals |
| Budgets.WithDetails | src/hooks/useBudgets.ts:47-57 | the detailed budget keeps the budget, client and items, and carries the items' total |
| Budgets.CountStatus | src/hooks/useBudgets.ts:70-71 | a status count is at most the number of budgets |
| Budgets.CountCreatedIn | src/hooks/useBudgets.ts:78-81 | the month count is at most the number of budgets |
| Budgets.CountCreatedInAppend | src/hooks/useBudgets.ts:78-81 | the month count of two lists together is the sum of their counts |
| Budgets.StatusesPartition | src/hooks/useBudgets.ts:69-71 | pending and approved budgets add up to all budgets |
| Budgets.GetBudgetStats | src/hooks/useBudgets.ts:68-84 | total, pending, approved and this-month counts, with pending + approved = total and this month ≤ total |
| Budgets.CanCreateBudget | src/hooks/useBudgets.ts:86-97 | no user may not create; a free user may exactly while this month's count is below 10; a paid user always may |
| Budgets.TenthBudgetClosesQuota | src/hooks/useBudgets.ts:90-93 | with nine budgets this month a free user may create one more, and with ten may not |
| Budgets.OtherMonthsDoNotCount | src/hooks/useBudgets.ts:78-81 | a budget from another month does not change whether a budget may be created |
| BudgetItemsForm.AddItem | src/components/budgets/BudgetItemsForm.tsx:35-43 | the old items are kept and one blank item (quantity 1, prices 0) is appended |
| BudgetItemsForm.RemoveItem | src/components/budgets/BudgetItemsForm.tsx:45-49 | with more than one item, exactly the item at the index is dropped and the order is kept; with one item, or an index outside the list, nothing changes; the list never becomes empty |
| BudgetItemsForm.UpdateItem | src/components/budgets/BudgetItemsForm.tsx:51-63 | only the chosen field of the chosen item changes; a quantity or unit-price change also sets that item's total to quantity × unit price |
| BudgetItemsForm.Subtotal | src/components/budgets/BudgetItemsForm.tsx:65-67 | no items give a subtotal of 0 |
| BudgetItemsForm.SubtotalAppend | src/components/budgets/BudgetItemsForm.tsx:65-67 | the subtotal of two lists together is the sum of their subtotals |
| BudgetItemsForm.SubtotalSingleton | src/components/budgets/BudgetItemsForm.tsx:65-67 | one item's subtotal is its total |
| BudgetItemsForm.SubtotalAddItem | src/components/budgets/BudgetItemsForm.tsx:35-43 | adding a blank item leaves the subtotal unchanged |
| BudgetItemsForm.SubtotalRemoveItem | src/components/budgets/BudgetItemsForm.tsx:45-49 | removing an item lowers the subtotal by exactly that item's total |
| BudgetItemsForm.SubtotalReplace | src/components/budgets/BudgetItemsForm.tsx:51-63 | replacing an item changes the subtotal by the difference of the two totals |
| BudgetItemsForm.RemoveUndoesAdd | src/components/budgets/BudgetItemsForm.tsx:35-49 | removing the item just added restores the list |
| NewBudget.ValidateItems | src/pages/NewBudget.tsx:44-66 | valid exactly when the list is non-empty and every item has a non-blank description, a positive quantity and a positive unit price; an `items` error exactly for the empty list; one error per violated field, and no other errors, each with its message |
| NewBudget.FormErrorsAfter | src/pages/NewBudget.tsx:68-78 | every new error is set; an item-field error survives only if it is new; earlier non-item errors, the `items` key included, are kept |
| NewBudget.InitialItemsInvalid | src/pages/NewBudget.tsx:23-30 | the initial blank item fails on its description and its unit price, not on its quantity |
| NewBudget.StoredItems | src/pages/NewBudget.tsx:116-122 | one stored item per form item, in order, each tagged with the budget id |
| NewBudget.FormItems | src/pages/NewBudget.tsx:116-122 | reading back gives one form item per stored item |
| NewBudget.StoredItemsRoundTrip | src/pages/NewBudget.tsx:116-122 | reading the stored items back gives the form items unchanged |
| NewBudget.Submit | src/pages/NewBudget.tsx:83-143 | nothing happens without a user or quota; invalid items stop before any write, with exactly the errors `validateItems` records; otherwise a pending budget for the user is inserted, then its items; each failure gives the save-failed message, and success needs both inserts |
| Clients.NameLeTotal | src/hooks/useClients.ts:65 | any two names are ordered one way or the other |
| Clients.NameLeTransitive | src/hooks/useClients.ts:65 | the name order is transitive |
| Clients.InsertByName | src/hooks/useClients.ts:65 | inserting adds exactly the one client |
| Clients.InsertKeepsSorted | src/hooks/useClients.ts:65 | inserting into a sorted list keeps it sorted |
| Clients.SortByName | src/hooks/useClients.ts:65 | the sorted list is sorted by name and is a permutation of the input |
| Clients.ReplaceById | src/hooks/useClients.ts:88-89 | each client with the id is replaced by the returned record, and every other client is kept in place |
| Clients.RemoveById | src/hooks/useClients.ts:111 | exactly the clients without the id remain |
| Clients.RemoveByIdConcat | src/hooks/useClients.ts:111 | removal works element by element, so the survivors keep their order |
| Clients.RemoveKeepsSorted | src/hooks/useClients.ts:111 | removal from a sorted list leaves it sorted |
| Clients.ClientList.constructor | src/hooks/useClients.ts:18-20 | the list starts empty and without an error |
| Clients.ClientList.CreateClient | src/hooks/useClients.ts:48-72 | without a user nothing changes and nothing is returned; a failed insert sets the create error; otherwise the new client (store id, user id, given fields) is returned and the list becomes the old list plus it, sorted by name |
| Clients.ClientList.UpdateClient | src/hooks/useClients.ts:74-98 | a failed update sets the update error; otherwise the returned record replaces the matching clients and the list is re-sorted, as a permutation of the replaced list |
| Clients.ClientList.DeleteClient | src/hooks/useClients.ts:100-118 | a failed delete sets the delete error and returns false; otherwise exactly the clients without the id remain, still sorted if the list was, and it returns true |
| Billing.PlanCardsShape | src/pages/Billing.tsx:6-58 | three cards of distinct plans; only the free card lacks a price id, and the paid cards carry their catalog price ids |
| Billing.CurrentPlan | src/pages/Billing.tsx:64 | the signed-in user's plan, or free without a user |
| Billing.ChooseAction | src/pages/Billing.tsx:115-226 | the current-plan button exactly on the own plan's card; otherwise upgrade (with the card's price id) exactly when a free user views a paid card; otherwise change plan exactly on a downgrade; otherwise the disabled fallback |
| Billing.ShowManagePanel | src/pages/Billing.tsx:85 | the manage-subscription panel is shown exactly for pro and premium users |
| Billing.ActionByRank | src/pages/Billing.tsx:115-226 | by plan order: own plan, upgrade at the catalog price from free, portal towards a cheaper plan, the disabled fallback otherwise |
| Billing.UpgradeAlwaysHasPrice | src/pages/Billing.tsx:192-194 | an upgrade is never offered without a price id |
| Billing.DisabledOnlyProToPremium | src/pages/Billing.tsx:219-226 | the disabled fallback appears exactly for a pro user on the premium card |
| Billing.ProUserOnPremiumCard | src/pages/Billing.tsx:117-120 | a pro user viewing the premium card gets the disabled fallback, not an upgrade |
| Flows.EchoedSession | api/stripe/create-checkout-session.js:18-29 | the echoed completion carries the requested user id and the first line item's price |
| Flows.CheckoutMetadataCreditsUser | api/stripe/webhook.js:55-89 | a session the checkout endpoint requested, once echoed, credits the requesting user with the plan of the requested price |
| Flows.UpgradePriceMapsToCardPlan | src/pages/Billing.tsx:192-194 | the price of an upgrade button maps back, in the webhook, to that card's paid plan |
| Flows.UpgradeReachesCardPlan | src/pages/Billing.tsx:66-68 | a free user's upgrade, accepted by the checkout endpoint and echoed to the webhook, leaves the user on the card's plan |
| Flows.FetchedItems | src/hooks/useBudgets.ts:33-48 | the inserted item rows, each with its store-assigned id, listed in insert order |
| Flows.TotalsAgree | src/hooks/useBudgets.ts:49 | the budget total and the form subtotal agree on item lists whose totals agree position by position |
| Flows.FetchedTotalIsFormSubtotal | src/pages/NewBudget.tsx:116-126 | the total the budget list shows for a created budget is the subtotal of the items the form submitted, in whatever order the store lists the item rows |

## Left out

- Signature verification is not modelled. The event the signature check yields is an input
  (`Request.verifiedEvent`, `None` when rejected). The check sits in the provider SDK.
- Provider lookups are not modelled. `subscriptions.retrieve` and `customers.retrieve` are
  taken as already resolved into `CheckoutSession`. A failure of one of them is caught and
  logged inside `handleCheckoutCompleted` (webhook.js:91-93), and the model covers it only
  as the success path with that input.
- Database error results of the webhook's `update`/`upsert` calls are not modelled. There
  the client returns errors instead of throwing, the code ignores them, and each handler's
  writes are applied as one step in the model.
- The upsert at webhook.js:80-89 names no conflict key. It is modelled as an append, and the
  store numbers the rows.
- Timestamps are integers, with `now` a parameter. ISO-8601 formatting and the
  `start_date * 1000` conversion are not modelled. Budget creation dates are local calendar
  dates (`DateTime`), with no time zones.
- Monetary amounts and quantities are exact `real` numbers. Floating-point rounding,
  `Number(value)` coercion of form input, and currency formatting are left out.
- Clients.SortByName: `localeCompare` is replaced by code-point lexicographic order, because
  locale collation is not available. Stability of the sort is not proved.
- Clients.ClientList.UpdateClient: the partial `updates` object is not modelled. The record
  the store returns is an input.
- `fetchClients` and `fetchBudgets` are not modelled: they are loading flags, errors and
  list replacement around a remote query. Also left out are the React state plumbing
  (`loading`, `isSubmitting`, effects that resync `localItems`), navigation, redirects to
  checkout, and all rendering except the button choice and the manage panel (`Billing.ShowManagePanel`).
- NewBudget.FormErrorsAfter: the form's error state is idealised as a flat map from key to
  message, keyed `items.<index>.<field>`. The form library (react-hook-form) stores such
  errors nested under the top-level name `items`. On the running page, the keys that
  NewBudget.tsx:69 enumerates would then be only top-level names, and no item error would
  be cleared. The model does not capture this library behaviour.
- Errors of the `.single()` lookups themselves are not modelled, because the model passes
  the whole table. A lookup error has the same outcome as finding no single row in both
  places: a 404 in the portal endpoint (`paymentError` at create-portal-session.js:29-31),
  and no change in `handleSubscriptionDeleted` (webhook.js:132-138).
- Flows.EchoedSession: the billing provider is assumed to copy the checkout session's
  `userId` metadata into the completion event and the session's one line-item price into
  the subscription's first item, which webhook.js:66-67 reads. The provider's behaviour is
  outside the code, so `Flows.CheckoutMetadataCreditsUser` and `Flows.UpgradeReachesCardPlan`
  hold under this assumption.
- Remote call failures are reduced to one thing each. A failed insert, update or delete is a
  `None` or `false` input, with no error detail.
- The environment check in `src/lib/stripe.ts` (missing publishable key) and `loadStripe`
  are left out.
