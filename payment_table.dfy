/** The `payments` table as the webhook and the billing-portal endpoint use it:
    exact-match filters, a filtered `update`, an insert, and a `.single()` lookup. */
module PaymentTable {
  import opened Types

  /** The `.eq(...)` filters the endpoints apply to `payments`. */
  datatype Filter =
    | ByCustomer(customerId: string)                    // .eq('stripe_customer_id', id)
    | BySubscription(subscriptionId: string)            // .eq('stripe_subscription_id', id)
    | ByUserAndStatus(userId: UserId, status: PaymentStatus)  // .eq('user_id', id).eq('status', s)

  predicate Matches(p: Payment, f: Filter)
  {
    match f
    case ByCustomer(c) => p.stripeCustomerId == Some(c)
    case BySubscription(s) => p.stripeSubscriptionId == Some(s)
    case ByUserAndStatus(u, s) => p.userId == u && p.status == s
  }

  /** The columns an `update({...})` writes: always `status`, and `ended_at` when present. */
  datatype Patch = Patch(status: PaymentStatus, endedAt: Option<int>)

  function Patched(p: Payment, patch: Patch): (q: Payment)
    ensures q.status == patch.status
    ensures q.endedAt == if patch.endedAt.Some? then patch.endedAt else p.endedAt
    ensures q.(status := p.status, endedAt := p.endedAt) == p
  {
    if patch.endedAt.Some? then p.(status := patch.status, endedAt := patch.endedAt)
    else p.(status := patch.status)
  }

  /** `update(patch).eq(...)`: every matching row is patched, every other row is kept, in place. */
  function UpdateWhere(ps: seq<Payment>, f: Filter, patch: Patch): (r: seq<Payment>)
    ensures |r| == |ps|
  {
    if ps == [] then []
    else [if Matches(ps[0], f) then Patched(ps[0], patch) else ps[0]] + UpdateWhere(ps[1..], f, patch)
  }

  lemma {:induction false} UpdateWhereAt(ps: seq<Payment>, f: Filter, patch: Patch, k: nat)
    requires k < |ps|
    ensures UpdateWhere(ps, f, patch)[k] == if Matches(ps[k], f) then Patched(ps[k], patch) else ps[k]
  {
    if k > 0 {
      UpdateWhereAt(ps[1..], f, patch, k - 1);
    }
  }

  /** Applying the same filtered update twice leaves the table as applying it once. */
  lemma {:induction false} UpdateWhereIdempotent(ps: seq<Payment>, f: Filter, patch: Patch)
    ensures UpdateWhere(UpdateWhere(ps, f, patch), f, patch) == UpdateWhere(ps, f, patch)
  {
    var once := UpdateWhere(ps, f, patch);
    forall k | 0 <= k < |ps|
      ensures UpdateWhere(once, f, patch)[k] == once[k]
    {
      UpdateWhereAt(ps, f, patch, k);
      UpdateWhereAt(once, f, patch, k);
    }
  }

  /** A payment table whose row ids are their positions, so ids are unique. */
  ghost predicate IdsArePositions(ps: seq<Payment>)
  {
    forall i :: 0 <= i < |ps| ==> ps[i].id == i
  }

  lemma UpdateWhereKeepsIds(ps: seq<Payment>, f: Filter, patch: Patch)
    requires IdsArePositions(ps)
    ensures IdsArePositions(UpdateWhere(ps, f, patch))
  {
    forall k | 0 <= k < |ps|
      ensures UpdateWhere(ps, f, patch)[k].id == k
    {
      UpdateWhereAt(ps, f, patch, k);
    }
  }

  /** An insert without an id: the store assigns the next position as the id. */
  function Inserted(ps: seq<Payment>, row: PaymentInsert): (r: seq<Payment>)
    ensures |r| == |ps| + 1 && r[..|ps|] == ps
    ensures r[|ps|].id == |ps|
    ensures r[|ps|] == Payment(|ps|, row.userId, row.stripeCustomerId, row.stripeSubscriptionId,
                               row.plan, row.status, row.startedAt, row.endedAt)
    ensures IdsArePositions(ps) ==> IdsArePositions(r)
  {
    ps + [Payment(|ps|, row.userId, row.stripeCustomerId, row.stripeSubscriptionId,
                  row.plan, row.status, row.startedAt, row.endedAt)]
  }

  /** How many rows a filter selects. */
  function CountWhere(ps: seq<Payment>, f: Filter): (n: nat)
    ensures n <= |ps|
    ensures n == 0 <==> forall i :: 0 <= i < |ps| ==> !Matches(ps[i], f)
  {
    if ps == [] then 0
    else (if Matches(ps[0], f) then 1 else 0) + CountWhere(ps[1..], f)
  }

  /** The first row a filter selects, if any. */
  function FirstWhere(ps: seq<Payment>, f: Filter): (r: Option<Payment>)
    ensures r.Some? <==> CountWhere(ps, f) > 0
    ensures r.Some? ==> r.value in ps && Matches(r.value, f)
  {
    if ps == [] then None
    else if Matches(ps[0], f) then Some(ps[0])
    else FirstWhere(ps[1..], f)
  }

  /** `.single()`: a row is returned only when the filter selects exactly one;
      zero rows or several rows are both an error, and no row is returned. */
  function SingleWhere(ps: seq<Payment>, f: Filter): (r: Option<Payment>)
    ensures r.Some? <==> CountWhere(ps, f) == 1
    ensures r.Some? ==> r.value in ps && Matches(r.value, f)
  {
    if CountWhere(ps, f) == 1 then FirstWhere(ps, f) else None
  }
}
