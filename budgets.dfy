/** Budget totals, statistics and the free-tier quota (src/hooks/useBudgets.ts). */
module Budgets {
  import opened Types

  /** Free-plan users may create this many budgets per calendar month. */
  const FreeMonthlyLimit: nat := 10

  /** `items.reduce((sum, item) => sum + item.total_price, 0)`. */
  function TotalAmount(items: seq<BudgetItem>): (total: real)
    ensures items == [] ==> total == 0.0
  {
    if items == [] then 0.0 else TotalAmount(items[..|items| - 1]) + items[|items| - 1].totalPrice
  }

  lemma {:induction false} TotalAmountAppend(a: seq<BudgetItem>, b: seq<BudgetItem>)
    ensures TotalAmount(a + b) == TotalAmount(a) + TotalAmount(b)
    decreases |b|
  {
    if b == [] {
      assert a + b == a;
    } else {
      assert (a + b)[..|a + b| - 1] == a + b[..|b| - 1];
      TotalAmountAppend(a, b[..|b| - 1]);
    }
  }

  /** The total does not depend on the order the store lists a budget's items in. */
  lemma {:induction false} TotalAmountPermutation(xs: seq<BudgetItem>, ys: seq<BudgetItem>)
    requires multiset(xs) == multiset(ys)
    ensures TotalAmount(xs) == TotalAmount(ys)
    decreases |xs|
  {
    if xs == [] {
      assert |ys| == |multiset(ys)|;
    } else {
      var x := xs[|xs| - 1];
      var init := xs[..|xs| - 1];
      assert xs == init + [x];
      assert x in multiset(ys);
      var i :| 0 <= i < |ys| && ys[i] == x;
      assert ys == ys[..i] + [x] + ys[i + 1..];
      var rest := ys[..i] + ys[i + 1..];
      assert multiset(xs) == multiset(init) + multiset{x};
      assert multiset(ys) == multiset(ys[..i]) + multiset{x} + multiset(ys[i + 1..]);
      assert multiset(rest) == multiset(ys[..i]) + multiset(ys[i + 1..]);
      assert multiset(init) == multiset(xs) - multiset{x};
      assert multiset(rest) == multiset(ys) - multiset{x};
      TotalAmountPermutation(init, rest);
      TotalAmountAppend(ys[..i] + [x], ys[i + 1..]);
      TotalAmountAppend(ys[..i], [x]);
      TotalAmountAppend(ys[..i], ys[i + 1..]);
      assert [x][..0] == [];
    }
  }

  /** The record `fetchBudgets` builds for each fetched budget. */
  function WithDetails(budget: Budget, client: Client, items: seq<BudgetItem>): (d: BudgetWithDetails)
    ensures d.budget == budget && d.client == client && d.budgetItems == items
    ensures d.totalAmount == TotalAmount(items)
    ensures items == [] ==> d.totalAmount == 0.0
  {
    BudgetWithDetails(budget, client, items, TotalAmount(items))
  }

  function CountStatus(bs: seq<BudgetWithDetails>, status: BudgetStatus): (n: nat)
    ensures n <= |bs|
  {
    if bs == [] then 0
    else (if bs[0].budget.status == status then 1 else 0) + CountStatus(bs[1..], status)
  }

  /** Budgets whose creation date falls in the given month (0-11) of the given year. */
  function CountCreatedIn(bs: seq<BudgetWithDetails>, year: int, month: int): (n: nat)
    ensures n <= |bs|
  {
    if bs == [] then 0
    else (if bs[0].budget.createdAt.month == month && bs[0].budget.createdAt.year == year then 1 else 0)
         + CountCreatedIn(bs[1..], year, month)
  }

  lemma {:induction false} CountCreatedInAppend(a: seq<BudgetWithDetails>, b: seq<BudgetWithDetails>, year: int, month: int)
    ensures CountCreatedIn(a + b, year, month) == CountCreatedIn(a, year, month) + CountCreatedIn(b, year, month)
  {
    if a == [] {
      assert a + b == b;
    } else {
      assert (a + b)[1..] == a[1..] + b;
      CountCreatedInAppend(a[1..], b, year, month);
    }
  }

  /** Every budget is either pending or approved. */
  lemma {:induction false} StatusesPartition(bs: seq<BudgetWithDetails>)
    ensures CountStatus(bs, Pending) + CountStatus(bs, Approved) == |bs|
  {
    if bs != [] {
      StatusesPartition(bs[1..]);
    }
  }

  datatype Stats = Stats(total: nat, pending: nat, approved: nat, thisMonth: nat)

  /** `getBudgetStats`; `now` is the local date `new Date()` reads. */
  function GetBudgetStats(bs: seq<BudgetWithDetails>, now: DateTime): (s: Stats)
    ensures s.total == |bs|
    ensures s.pending == CountStatus(bs, Pending) && s.approved == CountStatus(bs, Approved)
    ensures s.pending + s.approved == s.total
    ensures s.thisMonth == CountCreatedIn(bs, now.year, now.month) && s.thisMonth <= s.total
  {
    StatusesPartition(bs);
    Stats(|bs|, CountStatus(bs, Pending), CountStatus(bs, Approved), CountCreatedIn(bs, now.year, now.month))
  }

  /** `canCreateBudget`: no user, no budget; a free user while this month's count is
      below the limit; a paid user always. */
  function CanCreateBudget(user: Option<User>, bs: seq<BudgetWithDetails>, now: DateTime): (ok: bool)
    ensures user.None? ==> !ok
    ensures user.Some? && user.value.userPlan == Free ==>
              (ok <==> CountCreatedIn(bs, now.year, now.month) < FreeMonthlyLimit)
    ensures user.Some? && user.value.userPlan in {Pro, Premium} ==> ok
  {
    if user.None? then false
    else if user.value.userPlan == Free then GetBudgetStats(bs, now).thisMonth < 10
    else true
  }

  /** On the free plan the tenth budget of the month is allowed and closes the quota. */
  lemma TenthBudgetClosesQuota(user: User, bs: seq<BudgetWithDetails>, b: BudgetWithDetails, now: DateTime)
    requires user.userPlan == Free
    requires CountCreatedIn(bs, now.year, now.month) == 9
    requires b.budget.createdAt.year == now.year && b.budget.createdAt.month == now.month
    ensures CanCreateBudget(Some(user), bs, now)
    ensures !CanCreateBudget(Some(user), [b] + bs, now)
    ensures !CanCreateBudget(Some(user), bs + [b], now)
  {
    CountCreatedInAppend(bs, [b], now.year, now.month);
  }

  /** A budget created in another month does not use up this month's quota. */
  lemma OtherMonthsDoNotCount(user: Option<User>, bs: seq<BudgetWithDetails>, b: BudgetWithDetails, now: DateTime)
    requires b.budget.createdAt.year != now.year || b.budget.createdAt.month != now.month
    ensures CanCreateBudget(user, bs + [b], now) == CanCreateBudget(user, bs, now)
  {
    CountCreatedInAppend(bs, [b], now.year, now.month);
  }
}
