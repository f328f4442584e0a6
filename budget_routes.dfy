/** The `/budgets` and `/expenses` request handlers. A handler that changes
    the tables is a method on the `Ledger` it is given; a handler that only
    reads is a function of the rows. Amounts are integer hundredths. */
module BudgetRoutes {
  import opened Common
  import opened Seqs
  import opened BudgetSchemas
  import opened BudgetModels
  import Tables

  const BudgetExists: string := "Budget for this period already exists"
  const DefaultLimit: int := 50
  const MaxLimit: int := 100

  /** The query bounds `skip >= 0` and `1 <= limit <= 100`. */
  predicate PageBoundsOk(skip: int, limit: int)
  {
    0 <= skip && 1 <= limit <= MaxLimit
  }

  // ---------------------------------------------------------------- create

  function CreateScope(p: BudgetCreate): Scope
  {
    Scope(p.franchiseId, p.branchId, p.period)
  }

  /** The row create_budget inserts: the payload's scope, currency and
      planned amount, status draft, nothing approved and nothing spent. */
  function Created(p: BudgetCreate): (b: Budget)
    ensures ScopeOf(b) == CreateScope(p)
    ensures b.currency == CreateCurrency(p) && b.planned == p.planned
    ensures b.status == Draft && b.actual == 0 && b.approved.None?
  {
    NewBudget(p.franchiseId, p.branchId, p.period, CreateCurrency(p), p.planned)
  }

  /** The existence query of create_budget: scans the table for a budget with
      scope `s` (an absent branch matching an absent branch). */
  method FindBudgetByScope(db: Ledger, s: Scope) returns (found: Option<int>)
    requires db.Valid()
    ensures found.Some? ==> found.value in db.budgets && ScopeOf(db.budgets[found.value]) == s
    ensures found.None? <==> !ScopeTaken(db.budgets, s)
  {
    var i := 0;
    while i < |db.budgetIds|
      invariant 0 <= i <= |db.budgetIds|
      invariant forall j :: 0 <= j < i ==> ScopeOf(db.budgets[db.budgetIds[j]]) != s
    {
      var id := db.budgetIds[i];
      if ScopeOf(db.budgets[id]) == s {
        return Some(id);
      }
      i := i + 1;
    }
    forall k | k in db.budgets ensures ScopeOf(db.budgets[k]) != s {
      var j :| 0 <= j < |db.budgetIds| && db.budgetIds[j] == k;
    }
    return None;
  }

  /** create_budget: refuses a second budget for the same franchise, branch
      and period with a 400 and leaves the tables alone; otherwise inserts the
      draft budget under a fresh id. */
  method CreateBudget(db: Ledger, p: BudgetCreate) returns (r: Result<(int, Budget)>)
    requires db.Valid()
    modifies db
    ensures db.Valid()
    ensures r.Err? ==> unchanged(db)
    ensures !ValidBudgetCreate(p) ==> r == Err(Unprocessable)
    ensures ValidBudgetCreate(p) && ScopeTaken(old(db.budgets), CreateScope(p)) ==>
      r == Err(Http(400, BudgetExists))
    ensures ValidBudgetCreate(p) && !ScopeTaken(old(db.budgets), CreateScope(p)) ==>
      && r == Ok((old(db.NextBudgetId()), Created(p)))
      && old(db.NextBudgetId()) !in old(db.budgets)
      && db.budgets == old(db.budgets)[old(db.NextBudgetId()) := Created(p)]
      && db.expenses == old(db.expenses)
    ensures ScopeUnique(old(db.budgets)) ==> ScopeUnique(db.budgets)
  {
    if !ValidBudgetCreate(p) {
      return Err(Unprocessable);
    }
    var found := FindBudgetByScope(db, CreateScope(p));
    if found.Some? {
      return Err(Http(400, BudgetExists));
    }
    var id := db.NextBudgetId();
    var b := Created(p);
    Tables.InsertValid(db.budgetIds, db.budgets, b);
    InsertKeepsUnique(db.budgets, id, b);
    db.budgets := db.budgets[id := b];
    db.budgetIds := db.budgetIds + [id];
    r := Ok((id, b));
  }

  // ---------------------------------------------------------------- reads

  /** The filters of list_budgets; `None` means "not given". */
  datatype BudgetQuery = BudgetQuery(
    franchiseId: Option<int>,
    branchId: Option<int>,
    period: Option<string>,
    skip: Option<int>,
    limit: Option<int>)

  /** A budget passes every filter that is given. A branch filter never
      matches a budget without a branch. */
  predicate MatchesBudgetQuery(b: Budget, q: BudgetQuery)
  {
    && (q.franchiseId.Some? ==> b.franchiseId == q.franchiseId.value)
    && (q.branchId.Some? ==> b.branchId == Some(q.branchId.value))
    && (q.period.Some? ==> b.period == q.period.value)
  }

  /** list_budgets over the rows in table order: the window of the
      matching rows that starts `skip` rows in. */
  function ListBudgets(rows: seq<(int, Budget)>, q: BudgetQuery): (r: Result<seq<(int, Budget)>>)
    ensures r.Err? <==> !PageBoundsOk(q.skip.GetOr(0), q.limit.GetOr(DefaultLimit))
    ensures r.Err? ==> r.failure == Unprocessable
    ensures r.Ok? ==> r.value == Page(Filter(rows, (x: (int, Budget)) => MatchesBudgetQuery(x.1, q)), q.skip.GetOr(0), q.limit.GetOr(DefaultLimit))
    ensures r.Ok? ==> |r.value| <= q.limit.GetOr(DefaultLimit)
    ensures r.Ok? ==> forall i :: 0 <= i < |r.value| ==> r.value[i] in rows && MatchesBudgetQuery(r.value[i].1, q)
    ensures r.Ok? && q.skip.GetOr(0) == 0 && |Filter(rows, (x: (int, Budget)) => MatchesBudgetQuery(x.1, q))| <= q.limit.GetOr(DefaultLimit) ==>
      forall i :: 0 <= i < |rows| && MatchesBudgetQuery(rows[i].1, q) ==> rows[i] in r.value
  {
    var skip, limit := q.skip.GetOr(0), q.limit.GetOr(DefaultLimit);
    if !PageBoundsOk(skip, limit) then Err(Unprocessable)
    else Ok(Query(rows, (x: (int, Budget)) => MatchesBudgetQuery(x.1, q), skip, limit))
  }

  /** get_budget. */
  function GetBudget(budgets: map<int, Budget>, id: int): (r: Result<Budget>)
    ensures r.Ok? <==> id in budgets
    ensures r.Ok? ==> r.value == budgets[id]
    ensures r.Err? ==> r.failure == NotFound("Budget")
  {
    if id in budgets then Ok(budgets[id]) else Err(NotFound("Budget"))
  }

  /** The answer of budget_summary; `burnRate` is `None` when nothing is
      planned. */
  datatype Summary = Summary(
    planned: int,
    approved: int,
    actual: int,
    variance: int,
    burnRate: Option<real>,
    currency: string,
    status: BudgetStatus,
    period: string)

  /** budget_summary: an absent approved amount reads as 0, variance is actual
      minus planned, and the burn rate is actual over planned when planned is
      positive. */
  function BudgetSummary(budgets: map<int, Budget>, id: int): (r: Result<Summary>)
    ensures r.Err? <==> id !in budgets
    ensures r.Err? ==> r.failure == NotFound("Budget")
    ensures r.Ok? ==>
      var b, s := budgets[id], r.value;
      && s.planned == b.planned && s.actual == b.actual
      && s.approved == b.approved.GetOr(0)
      && s.variance == s.actual - s.planned
      && (s.burnRate.None? <==> s.planned <= 0)
      && (s.burnRate.Some? ==> s.burnRate.value * (s.planned as real) == s.actual as real)
      && s.currency == b.currency && s.status == b.status && s.period == b.period
  {
    if id !in budgets then Err(NotFound("Budget"))
    else
      var b := budgets[id];
      var rate := if b.planned > 0 then Some((b.actual as real) / (b.planned as real)) else None;
      Ok(Summary(b.planned, b.approved.GetOr(0), b.actual, b.actual - b.planned, rate, b.currency, b.status, b.period))
  }

  // ---------------------------------------------------------------- update

  /** The status a payload sets names one of the four statuses. */
  predicate StatusAccepted(u: BudgetUpdate)
  {
    u.status.Some? ==> ParseStatus(u.status.value).Some?
  }

  /** The budget after update_budget copies each supplied field onto it.
      Franchise and period are not in the payload and never change. */
  function ApplyUpdate(b: Budget, u: BudgetUpdate): (r: Budget)
    requires StatusAccepted(u)
    ensures r.franchiseId == b.franchiseId && r.period == b.period
    ensures r.branchId == (if u.branchId.Some? then u.branchId.value else b.branchId)
    ensures r.currency == u.currency.GetOr(b.currency)
    ensures r.planned == u.planned.GetOr(b.planned)
    ensures r.approved == (if u.approved.Some? then u.approved.value else b.approved)
    ensures r.actual == u.actual.GetOr(b.actual)
    ensures u.status.None? ==> r.status == b.status
    ensures u.status.Some? ==> StatusName(r.status) == u.status.value
  {
    Budget(
      b.franchiseId,
      if u.branchId.Some? then u.branchId.value else b.branchId,
      b.period,
      u.currency.GetOr(b.currency),
      u.planned.GetOr(b.planned),
      if u.approved.Some? then u.approved.value else b.approved,
      u.actual.GetOr(b.actual),
      if u.status.Some? then ParseStatus(u.status.value).value else b.status)
  }

  /** An update that supplies no field changes nothing. */
  lemma EmptyUpdateChangesNothing(b: Budget)
    ensures ApplyUpdate(b, BudgetUpdate(None, None, None, None, None, None)) == b
  {
  }

  /** Sending the same update twice has the effect of sending it once. */
  lemma UpdateIdempotent(b: Budget, u: BudgetUpdate)
    requires StatusAccepted(u)
    ensures ApplyUpdate(ApplyUpdate(b, u), u) == ApplyUpdate(b, u)
  {
  }

  /** The updated budget `nb` would share a present branch scope with another
      budget, which the unique key refuses at commit. */
  ghost predicate Clashes(budgets: map<int, Budget>, id: int, nb: Budget)
  {
    nb.branchId.Some? && exists k :: k in budgets && k != id && ScopeOf(budgets[k]) == ScopeOf(nb)
  }

  /** Rewriting a budget so that it clashes with no other keeps the database's
      unique key. */
  lemma NoClashKeepsDbUnique(budgets: map<int, Budget>, id: int, nb: Budget)
    requires id in budgets && DbUnique(budgets) && !Clashes(budgets, id, nb)
    ensures DbUnique(budgets[id := nb])
  {
    var bs := budgets[id := nb];
    forall i, j | i in bs && j in bs && i != j && bs[i].branchId.Some?
      ensures ScopeOf(bs[i]) != ScopeOf(bs[j])
    {
      if i == id {
        assert ScopeOf(bs[j]) == ScopeOf(budgets[j]);
      } else if j == id {
        assert ScopeOf(bs[i]) == ScopeOf(budgets[i]);
      }
    }
  }

  /** Writes `nb` over the budget stored under `id` and commits: the step
      every budget-changing handler ends with once the row passes the unique
      key and fits its columns. */
  method StoreBudget(db: Ledger, id: int, nb: Budget)
    requires db.Valid() && id in db.budgets && !Clashes(db.budgets, id, nb)
    requires |nb.period| <= 7 && |nb.currency| <= 3
    modifies db
    ensures db.Valid()
    ensures db.budgets == old(db.budgets)[id := nb]
    ensures db.budgetIds == old(db.budgetIds)
    ensures db.expenses == old(db.expenses) && db.expenseIds == old(db.expenseIds)
    ensures ScopeOf(nb) == ScopeOf(old(db.budgets)[id]) && ScopeUnique(old(db.budgets)) ==> ScopeUnique(db.budgets)
  {
    NoClashKeepsDbUnique(db.budgets, id, nb);
    Tables.ReplaceValid(db.budgetIds, db.budgets, id, nb);
    if ScopeOf(nb) == ScopeOf(db.budgets[id]) {
      SameScopeKeepsUnique(db.budgets, id, nb);
    }
    db.budgets := db.budgets[id := nb];
  }

  /** update_budget: for a known id, copies exactly the supplied fields onto
      that budget and touches no other row. A status outside the four, or a
      branch change that collides with another budget's key, makes the commit
      fail with the tables unchanged. */
  method UpdateBudget(db: Ledger, id: int, u: BudgetUpdate) returns (r: Result<Budget>)
    requires db.Valid()
    modifies db
    ensures db.Valid()
    ensures r.Err? ==> unchanged(db)
    ensures !ValidBudgetUpdate(u) ==> r == Err(Unprocessable)
    ensures ValidBudgetUpdate(u) && id !in old(db.budgets) ==> r == Err(NotFound("Budget"))
    ensures ValidBudgetUpdate(u) && id in old(db.budgets) && !StatusAccepted(u) ==> r == Err(InternalError)
    ensures ValidBudgetUpdate(u) && id in old(db.budgets) && StatusAccepted(u) ==>
      var nb := ApplyUpdate(old(db.budgets)[id], u);
      if Clashes(old(db.budgets), id, nb) then r == Err(InternalError)
      else r == Ok(nb) && db.budgets == old(db.budgets)[id := nb] && db.expenses == old(db.expenses)
    ensures u.branchId.None? && ScopeUnique(old(db.budgets)) ==> ScopeUnique(db.budgets)
  {
    if !ValidBudgetUpdate(u) {
      return Err(Unprocessable);
    }
    if id !in db.budgets {
      return Err(NotFound("Budget"));
    }
    if !StatusAccepted(u) {
      return Err(InternalError);
    }
    var b := db.budgets[id];
    var nb := ApplyUpdate(b, u);
    if nb.branchId.Some? {
      var found := FindBudgetByScope(db, ScopeOf(nb));
      if found.Some? && found.value != id {
        return Err(InternalError);
      }
      if found.Some? {
        assert ScopeOf(b) == ScopeOf(nb);
        assert !Clashes(db.budgets, id, nb);
      }
    }
    assert !Clashes(db.budgets, id, nb);
    StoreBudget(db, id, nb);
    r := Ok(nb);
  }

  /** Two franchise-level budgets may end up sharing a period: the database's
      unique key does not compare absent branches, so an update that clears
      a branch id passes the commit although create_budget would have
      refused the same row. */
  lemma ClearedBranchEscapesCreateCheck()
    ensures
      var bs := map[1 := NewBudget(7, None, "2025-01", "TRY", 100), 2 := NewBudget(7, Some(3), "2025-01", "TRY", 100)];
      var u := BudgetUpdate(Some(None), None, None, None, None, None);
      var nb := ApplyUpdate(bs[2], u);
      && ScopeUnique(bs)
      && !Clashes(bs, 2, nb)
      && !ScopeUnique(bs[2 := nb])
  {
    var bs := map[1 := NewBudget(7, None, "2025-01", "TRY", 100), 2 := NewBudget(7, Some(3), "2025-01", "TRY", 100)];
    var nb := ApplyUpdate(bs[2], BudgetUpdate(Some(None), None, None, None, None, None));
    assert ScopeOf(bs[2 := nb][1]) == ScopeOf(bs[2 := nb][2]);
  }

  // ---------------------------------------------------------------- delete

  /** delete_budget: removes the budget and, by the cascade, every expense
      linked to it; nothing else changes. */
  method DeleteBudget(db: Ledger, id: int) returns (r: Result<()>)
    requires db.Valid()
    modifies db
    ensures db.Valid()
    ensures r.Err? ==> unchanged(db)
    ensures id !in old(db.budgets) ==> r == Err(NotFound("Budget"))
    ensures id in old(db.budgets) ==>
      && r == Ok(())
      && db.budgets == old(db.budgets) - {id}
      && db.expenses == old(db.expenses) - ExpensesOf(old(db.expenses), id)
    ensures ScopeUnique(old(db.budgets)) ==> ScopeUnique(db.budgets)
  {
    if id !in db.budgets {
      return Err(NotFound("Budget"));
    }
    var gone := ExpensesOf(db.expenses, id);
    Tables.RemoveValid(db.budgetIds, db.budgets, {id});
    Tables.RemoveValid(db.expenseIds, db.expenses, gone);
    db.budgets := db.budgets - {id};
    db.budgetIds := Tables.Without(db.budgetIds, {id});
    db.expenses := db.expenses - gone;
    db.expenseIds := Tables.Without(db.expenseIds, gone);
    r := Ok(());
  }

  // ---------------------------------------------------------------- approve / reject

  /** Approval: status approved, and the approved amount becomes the planned
      amount only when none was recorded. */
  function Approve(b: Budget): (r: Budget)
    ensures r.status == Approved
    ensures b.approved.Some? ==> r.approved == b.approved
    ensures b.approved.None? ==> r.approved == Some(b.planned)
    ensures r.(status := b.status, approved := b.approved) == b
  {
    b.(status := Approved, approved := if b.approved.None? then Some(b.planned) else b.approved)
  }

  /** Rejection changes the status and nothing else. */
  function Reject(b: Budget): (r: Budget)
    ensures r.status == Rejected
    ensures r.(status := b.status) == b
  {
    b.(status := Rejected)
  }

  /** Approving twice is approving once; so is rejecting. Neither looks at the
      current status, so a rejected budget can still be approved and the
      other way round. */
  lemma ApproveRejectIdempotent(b: Budget)
    ensures Approve(Approve(b)) == Approve(b)
    ensures Reject(Reject(b)) == Reject(b)
    ensures Approve(Reject(b)).status == Approved && Reject(Approve(b)).status == Rejected
  {
  }

  /** approve_budget. */
  method ApproveBudget(db: Ledger, id: int) returns (r: Result<Budget>)
    requires db.Valid()
    modifies db
    ensures db.Valid()
    ensures r.Err? ==> unchanged(db)
    ensures id !in old(db.budgets) ==> r == Err(NotFound("Budget"))
    ensures id in old(db.budgets) ==>
      && r == Ok(Approve(old(db.budgets)[id]))
      && db.budgets == old(db.budgets)[id := Approve(old(db.budgets)[id])]
      && db.expenses == old(db.expenses)
    ensures ScopeUnique(old(db.budgets)) ==> ScopeUnique(db.budgets)
  {
    if id !in db.budgets {
      return Err(NotFound("Budget"));
    }
    var b := Approve(db.budgets[id]);
    StoreBudget(db, id, b);
    r := Ok(b);
  }

  /** reject_budget. */
  method RejectBudget(db: Ledger, id: int) returns (r: Result<Budget>)
    requires db.Valid()
    modifies db
    ensures db.Valid()
    ensures r.Err? ==> unchanged(db)
    ensures id !in old(db.budgets) ==> r == Err(NotFound("Budget"))
    ensures id in old(db.budgets) ==>
      && r == Ok(Reject(old(db.budgets)[id]))
      && db.budgets == old(db.budgets)[id := Reject(old(db.budgets)[id])]
      && db.expenses == old(db.expenses)
    ensures ScopeUnique(old(db.budgets)) ==> ScopeUnique(db.budgets)
  {
    if id !in db.budgets {
      return Err(NotFound("Budget"));
    }
    var b := Reject(db.budgets[id]);
    StoreBudget(db, id, b);
    r := Ok(b);
  }

  // ---------------------------------------------------------------- expenses

  /** The budget an expense's `budget_id` links, tested for truth as Python
      does: a null or zero id links no budget. */
  function Link(budgetId: Option<int>): (r: Option<int>)
    ensures r.Some? <==> budgetId.Some? && budgetId.value != 0
    ensures r.Some? ==> r == budgetId
  {
    if budgetId.Some? && budgetId.value != 0 then budgetId else None
  }

  /** The budgets after the linked budget's actual amount moves by `delta`;
      when the link is absent or names no budget, nothing moves. */
  function Adjust(budgets: map<int, Budget>, link: Option<int>, delta: int): (r: map<int, Budget>)
    ensures r.Keys == budgets.Keys
    ensures forall k :: k in r ==> r[k] == budgets[k].(actual := r[k].actual)
    ensures forall k :: k in budgets && link != Some(k) ==> r[k] == budgets[k]
    ensures link.Some? && link.value in budgets ==>
      r[link.value] == budgets[link.value].(actual := budgets[link.value].actual + delta)
  {
    if link.Some? && link.value in budgets then
      var b := budgets[link.value];
      budgets[link.value := b.(actual := b.actual + delta)]
    else budgets
  }

  /** Moving an actual amount by `delta` and then by `-delta` restores every
      budget: deleting an expense undoes what creating it did. */
  lemma AdjustUndo(budgets: map<int, Budget>, link: Option<int>, delta: int)
    ensures Adjust(Adjust(budgets, link, delta), link, -delta) == budgets
  {
    var r := Adjust(Adjust(budgets, link, delta), link, -delta);
    forall k | k in budgets ensures r[k] == budgets[k] {
    }
  }

  /** Moving actual amounts keeps every budget's scope, currency and period,
      so it keeps both kinds of uniqueness and the column widths. */
  lemma AdjustKeepsUnique(budgets: map<int, Budget>, link: Option<int>, delta: int)
    ensures Fits(budgets) ==> Fits(Adjust(budgets, link, delta))
    ensures DbUnique(budgets) ==> DbUnique(Adjust(budgets, link, delta))
    ensures ScopeUnique(budgets) ==> ScopeUnique(Adjust(budgets, link, delta))
  {
    if link.Some? && link.value in budgets {
      var b := budgets[link.value];
      SameScopeKeepsUnique(budgets, link.value, b.(actual := b.actual + delta));
    }
  }

  /** Moves the linked budget's actual amount by `delta` in place: what both
      expense handlers do to the budget before committing. */
  method AdjustActual(db: Ledger, link: Option<int>, delta: int)
    requires db.Valid()
    modifies db
    ensures db.Valid()
    ensures db.budgets == Adjust(old(db.budgets), link, delta)
    ensures db.budgetIds == old(db.budgetIds)
    ensures db.expenses == old(db.expenses) && db.expenseIds == old(db.expenseIds)
    ensures ScopeUnique(old(db.budgets)) ==> ScopeUnique(db.budgets)
  {
    var budgets := Adjust(db.budgets, link, delta);
    AdjustKeepsUnique(db.budgets, link, delta);
    Tables.ReplaceAll(db.budgetIds, db.budgets, budgets);
    db.budgets := budgets;
  }

  /** The row create_expense inserts: the payload as given. */
  function NewExpense(p: ExpenseCreate): (e: Expense)
    ensures e.budgetId == p.budgetId && e.franchiseId == p.franchiseId && e.branchId == p.branchId
    ensures e.date == p.date && e.category == p.category && e.amount == p.amount && e.note == p.note
  {
    Expense(p.budgetId, p.franchiseId, p.branchId, p.date, p.category, p.amount, p.note)
  }

  /** create_expense: inserts the expense and raises the linked budget's
      actual amount by exactly the expense amount; every other budget stays
      the same. A link to no existing budget is stored as given. */
  method CreateExpense(db: Ledger, p: ExpenseCreate) returns (r: Result<(int, Expense)>)
    requires db.Valid()
    modifies db
    ensures db.Valid()
    ensures r.Err? ==> unchanged(db)
    ensures !ValidExpenseCreate(p) ==> r == Err(Unprocessable)
    ensures ValidExpenseCreate(p) ==>
      && r == Ok((old(db.NextExpenseId()), NewExpense(p)))
      && old(db.NextExpenseId()) !in old(db.expenses)
      && db.expenses == old(db.expenses)[old(db.NextExpenseId()) := NewExpense(p)]
      && db.budgets == Adjust(old(db.budgets), Link(p.budgetId), p.amount)
    ensures ScopeUnique(old(db.budgets)) ==> ScopeUnique(db.budgets)
  {
    if !ValidExpenseCreate(p) {
      return Err(Unprocessable);
    }
    var id := db.NextExpenseId();
    var e := NewExpense(p);
    Tables.InsertValid(db.expenseIds, db.expenses, e);
    db.expenses := db.expenses[id := e];
    db.expenseIds := db.expenseIds + [id];
    AdjustActual(db, Link(p.budgetId), p.amount);
    r := Ok((id, e));
  }

  /** delete_expense: removes the expense and lowers the linked budget's
      actual amount by the expense amount; every other budget stays the same. */
  method DeleteExpense(db: Ledger, id: int) returns (r: Result<()>)
    requires db.Valid()
    modifies db
    ensures db.Valid()
    ensures r.Err? ==> unchanged(db)
    ensures id !in old(db.expenses) ==> r == Err(NotFound("Expense"))
    ensures id in old(db.expenses) ==>
      var e := old(db.expenses)[id];
      && r == Ok(())
      && db.expenses == old(db.expenses) - {id}
      && db.budgets == Adjust(old(db.budgets), Link(e.budgetId), -e.amount)
    ensures ScopeUnique(old(db.budgets)) ==> ScopeUnique(db.budgets)
  {
    if id !in db.expenses {
      return Err(NotFound("Expense"));
    }
    var e := db.expenses[id];
    Tables.RemoveValid(db.expenseIds, db.expenses, {id});
    db.expenses := db.expenses - {id};
    db.expenseIds := Tables.Without(db.expenseIds, {id});
    AdjustActual(db, Link(e.budgetId), -e.amount);
    r := Ok(());
  }

  /** Creating an expense and then deleting it leaves every budget's actual
      amount where it was, whatever the link. */
  lemma ExpenseCreateDeleteRestores(budgets: map<int, Budget>, p: ExpenseCreate)
    ensures
      var after := Adjust(budgets, Link(p.budgetId), p.amount);
      Adjust(after, Link(NewExpense(p).budgetId), -NewExpense(p).amount) == budgets
  {
    AdjustUndo(budgets, Link(p.budgetId), p.amount);
  }

  /** get_expense. */
  function GetExpense(expenses: map<int, Expense>, id: int): (r: Result<Expense>)
    ensures r.Ok? <==> id in expenses
    ensures r.Ok? ==> r.value == expenses[id]
    ensures r.Err? ==> r.failure == NotFound("Expense")
  {
    if id in expenses then Ok(expenses[id]) else Err(NotFound("Expense"))
  }

  // ---------------------------------------------------------------- list expenses

  /** The filters of list_expenses; `None` means "not given". */
  datatype ExpenseQuery = ExpenseQuery(
    franchiseId: Option<int>,
    branchId: Option<int>,
    budgetId: Option<int>,
    skip: Option<int>,
    limit: Option<int>)

  predicate MatchesExpenseQuery(e: Expense, q: ExpenseQuery)
  {
    && (q.franchiseId.Some? ==> e.franchiseId == q.franchiseId.value)
    && (q.branchId.Some? ==> e.branchId == Some(q.branchId.value))
    && (q.budgetId.Some? ==> e.budgetId == Some(q.budgetId.value))
  }

  /** Newest date first. */
  predicate NewestFirst(s: seq<(int, Expense)>)
  {
    forall i, j :: 0 <= i < j < |s| ==> s[i].1.date >= s[j].1.date
  }

  /** Places `x` before the first row not newer than it. */
  function InsertByDate(x: (int, Expense), s: seq<(int, Expense)>): (r: seq<(int, Expense)>)
    requires NewestFirst(s)
    ensures NewestFirst(r)
    ensures |r| == |s| + 1
    ensures r[0] == x || (s != [] && r[0] == s[0])
    ensures multiset(r) == multiset(s) + multiset{x}
  {
    if s == [] || s[0].1.date <= x.1.date then
      [x] + s
    else
      var t := InsertByDate(x, s[1..]);
      assert s == [s[0]] + s[1..];
      [s[0]] + t
  }

  /** The rows ordered newest date first; rows of the same date keep their
      table order. */
  function SortNewestFirst(s: seq<(int, Expense)>): (r: seq<(int, Expense)>)
    ensures NewestFirst(r)
    ensures multiset(r) == multiset(s)
  {
    if s == [] then []
    else
      assert s == [s[0]] + s[1..];
      InsertByDate(s[0], SortNewestFirst(s[1..]))
  }

  /** Every row of the ordering is one of the rows it orders. */
  lemma SortedFromInput(s: seq<(int, Expense)>)
    ensures forall i :: 0 <= i < |SortNewestFirst(s)| ==> SortNewestFirst(s)[i] in s
  {
    var r := SortNewestFirst(s);
    forall i | 0 <= i < |r| ensures r[i] in s {
      assert r[i] in multiset(r);
    }
  }

  /** A window of a newest-first sequence is newest first. */
  lemma PageNewestFirst(s: seq<(int, Expense)>, skip: int, limit: int)
    requires NewestFirst(s)
    ensures NewestFirst(Page(s, skip, limit))
  {
    var p, o := Page(s, skip, limit), Offset(skip, |s|);
    forall i, j | 0 <= i < j < |p| ensures p[i].1.date >= p[j].1.date {
      var a, b := s[o + i], s[o + j];
      assert a.1.date >= b.1.date;
    }
  }

  /** A page of the newest-first ordering of the rows passing `p` holds
      only rows that pass `p`. */
  lemma SortedPageMembers(rows: seq<(int, Expense)>, p: ((int, Expense)) -> bool, skip: int, limit: int)
    ensures forall i :: 0 <= i < |Page(SortNewestFirst(Filter(rows, p)), skip, limit)| ==>
      Page(SortNewestFirst(Filter(rows, p)), skip, limit)[i] in rows && p(Page(SortNewestFirst(Filter(rows, p)), skip, limit)[i])
  {
    var s := Filter(rows, p);
    var sorted := SortNewestFirst(s);
    var page := Page(sorted, skip, limit);
    SortedFromInput(s);
    forall i | 0 <= i < |page| ensures page[i] in rows && p(page[i]) {
      var k := Offset(skip, |sorted|) + i;
      assert page[i] == sorted[k];
      var j :| 0 <= j < |s| && s[j] == sorted[k];
    }
  }

  /** The first page of the newest-first ordering, when it can hold every
      row passing `p`, holds exactly those rows. */
  lemma SortedPageAll(rows: seq<(int, Expense)>, p: ((int, Expense)) -> bool, limit: int)
    requires |Filter(rows, p)| <= limit
    ensures multiset(Page(SortNewestFirst(Filter(rows, p)), 0, limit)) == multiset(Filter(rows, p))
  {
    var s := Filter(rows, p);
    var sorted := SortNewestFirst(s);
    assert |sorted| == |s| by {
      assert |multiset(sorted)| == |multiset(s)|;
    }
    PageAll(sorted, limit);
  }

  /** list_expenses: the matching expenses, newest date first, then paged. */
  function ListExpenses(rows: seq<(int, Expense)>, q: ExpenseQuery): (r: Result<seq<(int, Expense)>>)
    ensures r.Err? <==> !PageBoundsOk(q.skip.GetOr(0), q.limit.GetOr(DefaultLimit))
    ensures r.Err? ==> r.failure == Unprocessable
    ensures r.Ok? ==> r.value == Page(SortNewestFirst(Filter(rows, (x: (int, Expense)) => MatchesExpenseQuery(x.1, q))), q.skip.GetOr(0), q.limit.GetOr(DefaultLimit))
    ensures r.Ok? && q.skip.GetOr(0) == 0 && |Filter(rows, (x: (int, Expense)) => MatchesExpenseQuery(x.1, q))| <= q.limit.GetOr(DefaultLimit) ==>
      multiset(r.value) == multiset(Filter(rows, (x: (int, Expense)) => MatchesExpenseQuery(x.1, q)))
    ensures r.Ok? ==> |r.value| <= q.limit.GetOr(DefaultLimit)
    ensures r.Ok? ==> NewestFirst(r.value)
    ensures r.Ok? ==> forall i :: 0 <= i < |r.value| ==> r.value[i] in rows && MatchesExpenseQuery(r.value[i].1, q)
  {
    var skip, limit := q.skip.GetOr(0), q.limit.GetOr(DefaultLimit);
    if !PageBoundsOk(skip, limit) then Err(Unprocessable)
    else
      var p := (x: (int, Expense)) => MatchesExpenseQuery(x.1, q);
      var page := Page(SortNewestFirst(Filter(rows, p)), skip, limit);
      PageNewestFirst(SortNewestFirst(Filter(rows, p)), skip, limit);
      SortedPageMembers(rows, p, skip, limit);
      assert skip == 0 && |Filter(rows, p)| <= limit ==> multiset(page) == multiset(Filter(rows, p)) by {
        if skip == 0 && |Filter(rows, p)| <= limit {
          SortedPageAll(rows, p, limit);
        }
      }
      Ok(page)
  }
}
