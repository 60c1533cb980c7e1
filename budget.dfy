/** Project budgets and their spending transactions: the approval state
    machine (PENDING → APPROVED | REJECTED), the dashboard summary, the
    paginated listing and the report arithmetic.  Money is in satang
    (hundredths of a baht); dates are day numbers. */
module Budget {
  import opened Common
  import opened ThaiCalendar

  datatype TxStatus = Pending | Approved | Rejected

  /** The `action` of an approval request. */
  datatype Decision = Approve | Reject {
    function Status(): (s: TxStatus)
      ensures s != Pending
    {
      match this
      case Approve => Approved
      case Reject => Rejected
    }
  }

  datatype ProjectBudget = ProjectBudget(id: string, totalAllocated: nat, isActive: bool)

  /** One row of `budget_transaction`. */
  datatype Transaction = Transaction(
    projectBudgetId: string,
    transactionDate: int,
    amount: nat,
    category: string,
    description: string,
    recipient: Option<string>,
    receiptNumber: Option<string>,
    receiptFile: Option<string>,
    relatedActivityType: Option<string>,
    relatedActivityId: Option<string>,
    status: TxStatus,
    createdBy: string,
    approvedBy: Option<string>,
    approvedAt: Option<int>,
    rejectionReason: Option<string>)

  /** The fields a caller supplies when creating a transaction. */
  datatype NewTransaction = NewTransaction(
    projectBudgetId: string, transactionDate: int, amount: nat, category: string, description: string,
    recipient: Option<string>, receiptNumber: Option<string>, receiptFile: Option<string>,
    relatedActivityType: Option<string>, relatedActivityId: Option<string>)

  /** An update request: absent fields leave the stored value alone. */
  datatype TransactionPatch = TransactionPatch(
    transactionDate: Option<int>, amount: Option<nat>, category: Option<string>, description: Option<string>,
    recipient: Option<string>, receiptNumber: Option<string>, receiptFile: Option<string>,
    relatedActivityType: Option<string>, relatedActivityId: Option<string>)

  datatype BudgetError = NotFound | Forbidden

  /** The row `createTransaction` inserts: PENDING, not yet decided. */
  function Created(data: NewTransaction, userId: string): (t: Transaction)
    ensures t.status == Pending && t.createdBy == userId
    ensures t.approvedBy == None && t.approvedAt == None && t.rejectionReason == None
    ensures t.projectBudgetId == data.projectBudgetId && t.amount == data.amount
  {
    Transaction(data.projectBudgetId, data.transactionDate, data.amount, data.category, data.description,
                data.recipient, data.receiptNumber, data.receiptFile, data.relatedActivityType,
                data.relatedActivityId, Pending, userId, None, None, None)
  }

  function OrKeep<T>(patch: Option<T>, current: T): T {
    if patch.Some? then patch.value else current
  }

  function OrKeepOpt<T>(patch: Option<T>, current: Option<T>): Option<T> {
    if patch.Some? then patch else current
  }

  /** `{ ...data }` applied to a row: only the supplied fields change. */
  function Patched(t: Transaction, p: TransactionPatch): (r: Transaction)
    ensures r.status == t.status && r.projectBudgetId == t.projectBudgetId && r.createdBy == t.createdBy
    ensures r.approvedBy == t.approvedBy && r.approvedAt == t.approvedAt && r.rejectionReason == t.rejectionReason
    ensures p.amount.Some? ==> r.amount == p.amount.value
    ensures p.amount.None? ==> r.amount == t.amount
  {
    t.(transactionDate := OrKeep(p.transactionDate, t.transactionDate),
       amount := OrKeep(p.amount, t.amount),
       category := OrKeep(p.category, t.category),
       description := OrKeep(p.description, t.description),
       recipient := OrKeepOpt(p.recipient, t.recipient),
       receiptNumber := OrKeepOpt(p.receiptNumber, t.receiptNumber),
       receiptFile := OrKeepOpt(p.receiptFile, t.receiptFile),
       relatedActivityType := OrKeepOpt(p.relatedActivityType, t.relatedActivityType),
       relatedActivityId := OrKeepOpt(p.relatedActivityId, t.relatedActivityId))
  }

  /** The row after an approval decision; the reason survives only a rejection. */
  function Decided(t: Transaction, action: Decision, userId: string, now: int, reason: Option<string>): (r: Transaction)
    ensures r.status == action.Status() && r.status != Pending
    ensures r.approvedBy == Some(userId) && r.approvedAt == Some(now)
    ensures r.rejectionReason == (if action == Reject then reason else None)
    ensures r.amount == t.amount && r.projectBudgetId == t.projectBudgetId && r.createdBy == t.createdBy
  {
    t.(status := action.Status(), approvedBy := Some(userId), approvedAt := Some(now),
       rejectionReason := if action == Reject then reason else None)
  }

  /** The only status changes the service makes: none, or out of PENDING. */
  predicate StatusStep(before: TxStatus, after: TxStatus) {
    before == after || before == Pending
  }

  /** Decided rows are never touched, and no row returns to PENDING. */
  predicate Respects(before: map<string, Transaction>, after: map<string, Transaction>) {
    (forall id :: id in before && before[id].status != Pending ==> id in after && after[id] == before[id]) &&
    (forall id :: id in before && id in after ==> StatusStep(before[id].status, after[id].status))
  }

  /** The two tables the service writes. */
  class BudgetBook {
    var budgets: map<string, ProjectBudget>
    var transactions: map<string, Transaction>

    constructor (budgets: map<string, ProjectBudget>)
      ensures this.budgets == budgets && transactions == map[]
    {
      this.budgets := budgets;
      transactions := map[];
    }

    /** `createTransaction`: the budget must exist; the new row (under a fresh id) is PENDING. */
    method CreateTransaction(id: string, data: NewTransaction, userId: string) returns (r: Result<Transaction, BudgetError>)
      requires id !in transactions
      modifies this`transactions
      ensures data.projectBudgetId !in budgets ==> r == Err(NotFound) && transactions == old(transactions)
      ensures data.projectBudgetId in budgets ==>
        r == Ok(Created(data, userId)) && transactions == old(transactions)[id := Created(data, userId)]
      ensures Respects(old(transactions), transactions)
    {
      if data.projectBudgetId !in budgets {
        return Err(NotFound);
      }
      var t := Created(data, userId);
      transactions := transactions[id := t];
      r := Ok(t);
    }

    /** `updateTransaction`: only a PENDING row may change, and never its status. */
    method UpdateTransaction(id: string, patch: TransactionPatch) returns (r: Result<Transaction, BudgetError>)
      modifies this`transactions
      ensures id !in old(transactions) ==> r == Err(NotFound) && transactions == old(transactions)
      ensures id in old(transactions) && old(transactions)[id].status != Pending ==>
        r == Err(Forbidden) && transactions == old(transactions)
      ensures id in old(transactions) && old(transactions)[id].status == Pending ==>
        r == Ok(Patched(old(transactions)[id], patch)) &&
        transactions == old(transactions)[id := Patched(old(transactions)[id], patch)]
      ensures Respects(old(transactions), transactions)
    {
      if id !in transactions {
        return Err(NotFound);
      }
      var t := transactions[id];
      if t.status != Pending {
        return Err(Forbidden);
      }
      var u := Patched(t, patch);
      transactions := transactions[id := u];
      r := Ok(u);
    }

    /** `removeTransaction`: only a PENDING row may be deleted. */
    method RemoveTransaction(id: string) returns (r: Result<Transaction, BudgetError>)
      modifies this`transactions
      ensures id !in old(transactions) ==> r == Err(NotFound) && transactions == old(transactions)
      ensures id in old(transactions) && old(transactions)[id].status != Pending ==>
        r == Err(Forbidden) && transactions == old(transactions)
      ensures id in old(transactions) && old(transactions)[id].status == Pending ==>
        r == Ok(old(transactions)[id]) && transactions == old(transactions) - {id}
      ensures Respects(old(transactions), transactions)
    {
      if id !in transactions {
        return Err(NotFound);
      }
      var t := transactions[id];
      if t.status != Pending {
        return Err(Forbidden);
      }
      transactions := transactions - {id};
      r := Ok(t);
    }

    /** `approveTransaction`: a PENDING row becomes APPROVED or REJECTED, stamped with the approver. */
    method ApproveTransaction(id: string, action: Decision, userId: string, now: int, reason: Option<string>)
      returns (r: Result<Transaction, BudgetError>)
      modifies this`transactions
      ensures id !in old(transactions) ==> r == Err(NotFound) && transactions == old(transactions)
      ensures id in old(transactions) && old(transactions)[id].status != Pending ==>
        r == Err(Forbidden) && transactions == old(transactions)
      ensures id in old(transactions) && old(transactions)[id].status == Pending ==>
        r == Ok(Decided(old(transactions)[id], action, userId, now, reason)) &&
        transactions == old(transactions)[id := Decided(old(transactions)[id], action, userId, now, reason)]
      ensures Respects(old(transactions), transactions)
    {
      if id !in transactions {
        return Err(NotFound);
      }
      var t := transactions[id];
      if t.status != Pending {
        return Err(Forbidden);
      }
      var u := Decided(t, action, userId, now, reason);
      transactions := transactions[id := u];
      r := Ok(u);
    }
  }

  /** Applying any sequence of the service's steps keeps decided rows final. */
  lemma RespectsTransitive(a: map<string, Transaction>, b: map<string, Transaction>, c: map<string, Transaction>)
    requires Respects(a, b) && Respects(b, c)
    ensures Respects(a, c)
  {
    forall id | id in a && id in c
      ensures StatusStep(a[id].status, c[id].status)
    {
      if a[id].status != Pending {
        assert id in b && b[id] == a[id];
      }
    }
  }

  // ---------------------------------------------------------------
  // Summary
  // ---------------------------------------------------------------

  /** The transaction's budget is one of the active budgets. */
  predicate OfActiveBudget(budgets: seq<ProjectBudget>, t: Transaction) {
    exists b :: b in budgets && b.id == t.projectBudgetId && b.isActive
  }

  /** The allocations of the active budgets, summed. */
  function ActiveAllocated(budgets: seq<ProjectBudget>): nat {
    if budgets == [] then 0
    else
      var b := budgets[|budgets| - 1];
      ActiveAllocated(budgets[..|budgets| - 1]) + (if b.isActive then b.totalAllocated else 0)
  }

  function ActiveCount(budgets: seq<ProjectBudget>): (n: nat)
    ensures n <= |budgets|
  {
    if budgets == [] then 0
    else ActiveCount(budgets[..|budgets| - 1]) + (if budgets[|budgets| - 1].isActive then 1 else 0)
  }

  /** Whether `t` takes part in the `status` aggregate of an active budget. */
  predicate Counted(budgets: seq<ProjectBudget>, t: Transaction, status: TxStatus) {
    t.status == status && OfActiveBudget(budgets, t)
  }

  /** `_sum: { amount }` over the rows with `status` whose budget is active. */
  function AmountWith(budgets: seq<ProjectBudget>, txs: seq<Transaction>, status: TxStatus): nat {
    if txs == [] then 0
    else
      var t := txs[|txs| - 1];
      AmountWith(budgets, txs[..|txs| - 1], status) + (if Counted(budgets, t, status) then t.amount else 0)
  }

  /** `_count` over the same rows. */
  function CountWith(budgets: seq<ProjectBudget>, txs: seq<Transaction>, status: TxStatus): (n: nat)
    ensures n <= |txs|
  {
    if txs == [] then 0
    else
      var t := txs[|txs| - 1];
      CountWith(budgets, txs[..|txs| - 1], status) + (if Counted(budgets, t, status) then 1 else 0)
  }

  datatype BudgetSummary = BudgetSummary(
    totalAllocated: nat, totalUsed: nat, totalPending: nat, totalRemaining: nat,
    pendingCount: nat, budgetCount: nat)

  /** `getSummary` over the budget and transaction rows. */
  function SummaryOf(budgets: seq<ProjectBudget>, txs: seq<Transaction>): (r: BudgetSummary)
    ensures r.totalRemaining <= r.totalAllocated
    ensures r.totalUsed + r.totalRemaining >= r.totalAllocated
    ensures r.totalUsed <= r.totalAllocated ==> r.totalUsed + r.totalRemaining == r.totalAllocated
    ensures r.budgetCount <= |budgets| && r.pendingCount <= |txs|
  {
    var alloc := ActiveAllocated(budgets);
    var used := AmountWith(budgets, txs, Approved);
    BudgetSummary(alloc, used, AmountWith(budgets, txs, Pending), ClampZero(alloc - used),
                  CountWith(budgets, txs, Pending), ActiveCount(budgets))
  }

  lemma {:induction false} AmountWithAppend(budgets: seq<ProjectBudget>, a: seq<Transaction>, b: seq<Transaction>, status: TxStatus)
    ensures AmountWith(budgets, a + b, status) == AmountWith(budgets, a, status) + AmountWith(budgets, b, status)
    ensures CountWith(budgets, a + b, status) == CountWith(budgets, a, status) + CountWith(budgets, b, status)
    decreases |b|
  {
    if b == [] {
      assert a + b == a;
    } else {
      var b' := b[..|b| - 1];
      assert (a + b)[..|a + b| - 1] == a + b';
      assert (a + b)[|a + b| - 1] == b[|b| - 1];
      AmountWithAppend(budgets, a, b', status);
    }
  }

  lemma AmountWithOne(budgets: seq<ProjectBudget>, t: Transaction, status: TxStatus)
    ensures AmountWith(budgets, [t], status) == (if Counted(budgets, t, status) then t.amount else 0)
    ensures CountWith(budgets, [t], status) == (if Counted(budgets, t, status) then 1 else 0)
  {
    assert [t][..0] == [];
  }

  /** Only APPROVED rows of active budgets count as used: adding any other row leaves `totalUsed` alone,
      and adding an approved row of an active budget adds exactly its amount. */
  lemma UsedCountsApprovedActive(budgets: seq<ProjectBudget>, txs: seq<Transaction>, t: Transaction)
    ensures SummaryOf(budgets, txs + [t]).totalUsed ==
      SummaryOf(budgets, txs).totalUsed + (if t.status == Approved && OfActiveBudget(budgets, t) then t.amount else 0)
  {
    AmountWithAppend(budgets, txs, [t], Approved);
    AmountWithOne(budgets, t, Approved);
  }

  /** Approving a pending row of an active budget moves its amount from pending to used. */
  lemma {:induction false} ApprovalMovesAmount(budgets: seq<ProjectBudget>, a: seq<Transaction>, t: Transaction,
                                               c: seq<Transaction>, userId: string, now: int)
    requires t.status == Pending && OfActiveBudget(budgets, t)
    ensures var before := SummaryOf(budgets, a + [t] + c);
            var after := SummaryOf(budgets, a + [Decided(t, Approve, userId, now, None)] + c);
            after.totalUsed == before.totalUsed + t.amount &&
            after.totalPending + t.amount == before.totalPending &&
            after.pendingCount + 1 == before.pendingCount &&
            after.totalAllocated == before.totalAllocated
  {
    var d := Decided(t, Approve, userId, now, None);
    assert OfActiveBudget(budgets, d);
    MovedParts(budgets, a, t, c, Approved);
    MovedParts(budgets, a, d, c, Approved);
    MovedParts(budgets, a, t, c, Pending);
    MovedParts(budgets, a, d, c, Pending);
  }

  lemma MovedParts(budgets: seq<ProjectBudget>, a: seq<Transaction>, t: Transaction, c: seq<Transaction>, status: TxStatus)
    ensures AmountWith(budgets, a + [t] + c, status) ==
      AmountWith(budgets, a, status) + (if Counted(budgets, t, status) then t.amount else 0) + AmountWith(budgets, c, status)
    ensures CountWith(budgets, a + [t] + c, status) ==
      CountWith(budgets, a, status) + (if Counted(budgets, t, status) then 1 else 0) + CountWith(budgets, c, status)
  {
    AmountWithAppend(budgets, a + [t], c, status);
    AmountWithAppend(budgets, a, [t], status);
    AmountWithOne(budgets, t, status);
  }

  // ---------------------------------------------------------------
  // Pagination
  // ---------------------------------------------------------------

  datatype PageInfo = PageInfo(page: int, limit: int, skip: int, totalPages: int)

  /** `value || fallback` on a parsed query number: absent, NaN and 0 fall back. */
  function OrDefault(v: Option<int>, fallback: int): (r: int)
    ensures r != 0 || fallback == 0
  {
    if v.None? || v.value == 0 then fallback else v.value
  }

  /** `Math.ceil(total / limit)` for a non-zero limit. */
  function JsCeilDiv(total: nat, limit: int): (r: int)
    requires limit != 0
    ensures limit > 0 ==> r >= 0 && ((r - 1) * limit < total <= r * limit || (total == 0 && r == 0))
  {
    if limit > 0 then CeilDiv(total, limit) else -(total / -limit)
  }

  /** The paging arithmetic of `findAllTransactions`. */
  function Paginate(page: Option<int>, limit: Option<int>, total: nat): (r: PageInfo)
    ensures (page.None? || page == Some(0)) ==> r.page == 1
    ensures page.Some? && page.value != 0 ==> r.page == page.value
    ensures r.limit == Min(OrDefault(limit, 20), 100) && r.limit <= 100 && r.limit != 0
    ensures (limit.None? || limit == Some(0)) ==> r.limit == 20
    ensures r.skip == (r.page - 1) * r.limit
    ensures r.limit > 0 ==> (r.totalPages - 1) * r.limit < total <= r.totalPages * r.limit || (total == 0 && r.totalPages == 0)
  {
    var p := OrDefault(page, 1);
    var l := Min(OrDefault(limit, 20), 100);
    PageInfo(p, l, (p - 1) * l, JsCeilDiv(total, l))
  }

  /** The rows of one page of an ordered result (`skip`, `take`). */
  function PageRows<T>(rows: seq<T>, skip: nat, take: nat): (r: seq<T>)
    ensures |r| <= take
  {
    var lo := Min(skip, |rows|);
    var hi := Min(skip + take, |rows|);
    rows[lo..hi]
  }

  /** Row `i` of the ordered listing is at position `i % limit` of page `i / limit + 1`, within the page count. */
  lemma RowOnItsPage<T>(rows: seq<T>, limit: int, i: nat)
    requires 0 < limit <= 100 && i < |rows|
    ensures var info := Paginate(Some(i / limit + 1), Some(limit), |rows|);
      info.skip >= 0 && info.limit == limit && 1 <= info.page <= info.totalPages &&
      i % limit < |PageRows(rows, info.skip, info.limit)| &&
      PageRows(rows, info.skip, info.limit)[i % limit] == rows[i]
  {
    var q := i / limit;
    var info := Paginate(Some(q + 1), Some(limit), |rows|);
    DivModParts(i, limit);
    var t := CeilDiv(|rows|, limit);
    assert info.totalPages == t;
    if q + 1 > t {
      MulMono(q, t, limit);
    }
  }

  lemma DivModParts(i: nat, limit: int)
    requires limit > 0
    ensures (i / limit) * limit + i % limit == i && 0 <= i % limit < limit && i / limit >= 0
    ensures (i / limit) * limit <= i
  {
  }

  // ---------------------------------------------------------------
  // Report
  // ---------------------------------------------------------------

  /** One row of the database's `groupBy category` over approved transactions. */
  datatype CategoryGroup = CategoryGroup(category: string, total: nat, count: nat)

  /** A category's share; `percentage` is in hundredths of a percent (12.34% is 1234). */
  datatype CategoryShare = CategoryShare(category: string, total: nat, count: nat, percentage: nat)

  datatype BudgetReport = BudgetReport(
    totalAllocated: nat, totalUsed: nat, totalRemaining: nat, usagePercentage: nat,
    categoryBreakdown: seq<CategoryShare>)

  function GroupTotal(groups: seq<CategoryGroup>): nat {
    if groups == [] then 0 else GroupTotal(groups[..|groups| - 1]) + groups[|groups| - 1].total
  }

  function ShareTotal(shares: seq<CategoryShare>): nat {
    if shares == [] then 0 else ShareTotal(shares[..|shares| - 1]) + shares[|shares| - 1].total
  }

  /** `Math.round(part / whole * 10000) / 100`, as hundredths of a percent; 0 when `whole` is 0. */
  function Percentage(part: nat, whole: nat): (r: nat)
    ensures whole == 0 ==> r == 0
    ensures part <= whole ==> r <= 10000
    ensures whole > 0 && part == whole ==> r == 10000
  {
    if whole > 0 then
      var r := RoundDiv(part * 10000, whole);
      PercentageBounds(part, whole, r);
      r
    else 0
  }

  lemma PercentageBounds(part: nat, whole: nat, r: nat)
    requires whole > 0 && 2 * (part * 10000) - whole < 2 * r * whole <= 2 * (part * 10000) + whole
    ensures part <= whole ==> r <= 10000
    ensures part == whole ==> r == 10000
  {
    if part <= whole && r > 10000 {
      MulMono(r, 10001, 2 * whole);
      MulMono(whole, part, 20000);
    }
    if part == whole && r < 10000 {
      MulMono(9999, r, 2 * whole);
    }
  }

  /** Multiplying both sides of `a >= b` by a non-negative factor. */
  lemma MulMono(a: int, b: int, c: int)
    requires a >= b && c >= 0
    ensures a * c >= b * c
  {
  }

  function ShareOf(g: CategoryGroup, totalApproved: nat): CategoryShare {
    CategoryShare(g.category, g.total, g.count, Percentage(g.total, totalApproved))
  }

  function Shares(groups: seq<CategoryGroup>, totalApproved: nat): (r: seq<CategoryShare>)
    ensures |r| == |groups|
  {
    if groups == [] then []
    else Shares(groups[..|groups| - 1], totalApproved) + [ShareOf(groups[|groups| - 1], totalApproved)]
  }

  /** The allocations the report counts: the named budget, or every active one. */
  function ReportAllocated(budgets: seq<ProjectBudget>, projectBudgetId: Option<string>): nat {
    if budgets == [] then 0
    else
      var b := budgets[|budgets| - 1];
      var counted := if projectBudgetId.Some? then b.id == projectBudgetId.value else b.isActive;
      ReportAllocated(budgets[..|budgets| - 1], projectBudgetId) + (if counted then b.totalAllocated else 0)
  }

  /** `getReport` over the category groups and the budget rows. */
  function ReportOf(groups: seq<CategoryGroup>, budgets: seq<ProjectBudget>, projectBudgetId: Option<string>): (r: BudgetReport)
    ensures |r.categoryBreakdown| == |groups|
    ensures r.totalUsed == 0 ==> r.usagePercentage == 0 || r.totalAllocated > 0
    ensures r.totalAllocated == 0 ==> r.usagePercentage == 0
    ensures r.totalUsed <= r.totalAllocated ==> r.totalRemaining + r.totalUsed == r.totalAllocated && r.usagePercentage <= 10000
    ensures r.totalUsed >= r.totalAllocated ==> r.totalRemaining == 0
  {
    var approved := GroupTotal(groups);
    var alloc := ReportAllocated(budgets, projectBudgetId);
    BudgetReport(alloc, approved, ClampZero(alloc - approved), Percentage(approved, alloc),
                 Shares(groups, approved))
  }

  lemma {:induction false} SharesKeepGroups(groups: seq<CategoryGroup>, totalApproved: nat)
    ensures ShareTotal(Shares(groups, totalApproved)) == GroupTotal(groups)
    ensures forall k :: 0 <= k < |groups| ==>
      Shares(groups, totalApproved)[k] == ShareOf(groups[k], totalApproved)
  {
    if groups != [] {
      var init := groups[..|groups| - 1];
      SharesKeepGroups(init, totalApproved);
      var s := Shares(groups, totalApproved);
      assert s[..|s| - 1] == Shares(init, totalApproved);
    }
  }

  lemma {:induction false} GroupWithinTotal(groups: seq<CategoryGroup>, k: nat)
    requires k < |groups|
    ensures groups[k].total <= GroupTotal(groups)
  {
    if k < |groups| - 1 {
      GroupWithinTotal(groups[..|groups| - 1], k);
    }
  }

  /** The report's `totalUsed` is the sum of its category totals; every category keeps its group's
      total and count, and its percentage is at most 100%, and 0 when nothing is approved. */
  lemma ReportBreakdown(groups: seq<CategoryGroup>, budgets: seq<ProjectBudget>, projectBudgetId: Option<string>)
    ensures var r := ReportOf(groups, budgets, projectBudgetId);
      r.totalUsed == ShareTotal(r.categoryBreakdown) &&
      forall k :: 0 <= k < |groups| ==>
        r.categoryBreakdown[k].category == groups[k].category &&
        r.categoryBreakdown[k].total == groups[k].total &&
        r.categoryBreakdown[k].count == groups[k].count &&
        r.categoryBreakdown[k].percentage <= 10000 &&
        (r.totalUsed == 0 ==> r.categoryBreakdown[k].percentage == 0)
  {
    var approved := GroupTotal(groups);
    SharesKeepGroups(groups, approved);
    forall k | 0 <= k < |groups|
      ensures groups[k].total <= approved
    {
      GroupWithinTotal(groups, k);
    }
  }

  // ---------------------------------------------------------------
  // Month labels
  // ---------------------------------------------------------------

  /** `formatMonthThai`: `thaiMonthNames[m] || m`, then the Buddhist-era year. */
  function FormatMonthThai(ym: string): string
    requires IsYearMonth(ym)
  {
    var m := MonthOf(ym);
    (if 1 <= m <= 12 then MonthNames[m - 1] else NatToString(m)) + " " + IntToString(BuddhistYear(YearOf(ym)))
  }

  /** A well-formed month gives its Thai name and the year plus 543. */
  lemma FormatMonthThaiOf(y: nat, m: nat)
    requires 1000 <= y <= 9999 && 1 <= m <= 12
    ensures IsYearMonth(YearMonthString(y, m))
    ensures FormatMonthThai(YearMonthString(y, m)) == MonthNames[m - 1] + " " + NatToString(y + 543)
  {
    var s := YearMonthString(y, m);
    YearMonthRoundTrip(y, m);
    assert MonthOf(s) == m && YearOf(s) == y;
    assert IntToString(BuddhistYear(YearOf(s))) == NatToString(y + 543);
  }
}
