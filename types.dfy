/** Enumerations and record shapes of the database schema (src/types/database.ts),
    plus the small helpers every other module shares. */
module Types {

  datatype Option<+T> = None | Some(value: T)

  /** JavaScript truthiness of an optional string: `undefined` and `''` are falsy. */
  predicate Truthy(s: Option<string>)
  {
    s.Some? && s.value != ""
  }

  /** `UserPlan`: exactly one of three tiers. */
  datatype Plan = Free | Pro | Premium

  /** `BudgetStatus`: exactly one of two states. */
  datatype BudgetStatus = Pending | Approved

  /** `PaymentStatus`: exactly one of three states. */
  datatype PaymentStatus = Active | Inactive | Cancelled

  /** A local calendar date, as `getFullYear()`/`getMonth()` see it (months 0-11). */
  datatype DateTime = DateTime(year: int, month: int, day: int)

  type UserId = string

  datatype User = User(
    id: UserId,
    email: string,
    fullName: string,
    userPlan: Plan,
    createdAt: string)

  datatype Client = Client(
    id: string,
    userId: UserId,
    name: string,
    email: string,
    phone: Option<string>,
    createdAt: string)

  datatype Budget = Budget(
    id: string,
    userId: UserId,
    clientId: string,
    title: string,
    description: string,
    status: BudgetStatus,
    approvedAt: Option<string>,
    publicUuid: string,
    createdAt: DateTime)

  /** Insert shape of a budget: `id` and `created_at` are assigned by the store. */
  datatype BudgetInsert = BudgetInsert(
    userId: UserId,
    clientId: string,
    title: string,
    description: string,
    status: BudgetStatus,
    publicUuid: string)

  datatype BudgetItem = BudgetItem(
    id: string,
    budgetId: string,
    description: string,
    quantity: real,
    unitPrice: real,
    totalPrice: real)

  /** Insert shape of a budget item: `id` is assigned by the store. */
  datatype BudgetItemInsert = BudgetItemInsert(
    budgetId: string,
    description: string,
    quantity: real,
    unitPrice: real,
    totalPrice: real)

  /** A payment row. Customer id, subscription id and end time are optional;
      start time, plan and status are required. Times are Unix seconds. */
  datatype Payment = Payment(
    id: nat,
    userId: UserId,
    stripeCustomerId: Option<string>,
    stripeSubscriptionId: Option<string>,
    plan: Plan,
    status: PaymentStatus,
    startedAt: int,
    endedAt: Option<int>)

  /** Insert shape of a payment: `id` is assigned by the store. */
  datatype PaymentInsert = PaymentInsert(
    userId: UserId,
    stripeCustomerId: Option<string>,
    stripeSubscriptionId: Option<string>,
    plan: Plan,
    status: PaymentStatus,
    startedAt: int,
    endedAt: Option<int>)

  /** A budget joined with its client and items, and the items' total. */
  datatype BudgetWithDetails = BudgetWithDetails(
    budget: Budget,
    client: Client,
    budgetItems: seq<BudgetItem>,
    totalAmount: real)

  /** The JSON bodies the HTTP endpoints answer with. */
  datatype JsonBody =
    | ErrorBody(error: string)
    | SessionIdBody(sessionId: string)
    | UrlBody(url: string)

  datatype HttpResponse = HttpResponse(status: int, body: JsonBody)
}
