/** The `budgets` and `expenses` tables: record shapes, column defaults, the
    unique key of a budget, and the cascade from a budget to its expenses.
    Amounts are integer hundredths of the currency unit. */
module BudgetModels {
  import opened Common
  import opened Seqs
  import Tables

  datatype BudgetStatus = Draft | Approved | Rejected | Closed

  /** The string a status is stored and sent as. */
  function StatusName(s: BudgetStatus): string
  {
    match s
    case Draft => "draft"
    case Approved => "approved"
    case Rejected => "rejected"
    case Closed => "closed"
  }

  /** The status a string names, if it names one. */
  function ParseStatus(name: string): (r: Option<BudgetStatus>)
    ensures r.Some? ==> StatusName(r.value) == name
    ensures r.None? ==> name !in {"draft", "approved", "rejected", "closed"}
  {
    if name == "draft" then Some(Draft)
    else if name == "approved" then Some(Approved)
    else if name == "rejected" then Some(Rejected)
    else if name == "closed" then Some(Closed)
    else None
  }

  /** Every status reads back as itself from its name. */
  lemma StatusNameRoundTrip(s: BudgetStatus)
    ensures ParseStatus(StatusName(s)) == Some(s)
  {
  }

  /** A row of `budgets` (its id is the key it is stored under). */
  datatype Budget = Budget(
    franchiseId: int,
    branchId: Option<int>,
    period: string,
    currency: string,
    planned: int,
    approved: Option<int>,
    actual: int,
    status: BudgetStatus)

  /** A row of `expenses`; `date` is a day number, later days being larger. */
  datatype Expense = Expense(
    budgetId: Option<int>,
    franchiseId: int,
    branchId: Option<int>,
    date: int,
    category: string,
    amount: int,
    note: Option<string>)

  /** A budget as first inserted: the given scope, currency and planned amount,
      with the column defaults for the rest. */
  function NewBudget(franchiseId: int, branchId: Option<int>, period: string, currency: string, planned: int): (b: Budget)
    ensures b.status == Draft && b.actual == 0 && b.approved == None
    ensures b.franchiseId == franchiseId && b.branchId == branchId && b.period == period
    ensures b.currency == currency && b.planned == planned
  {
    Budget(franchiseId, branchId, period, currency, planned, None, 0, Draft)
  }

  /** The columns of the unique key `uq_budget_scope_period`. */
  datatype Scope = Scope(franchiseId: int, branchId: Option<int>, period: string)

  function ScopeOf(b: Budget): Scope
  {
    Scope(b.franchiseId, b.branchId, b.period)
  }

  /** What the database's unique key enforces. SQL treats NULLs as distinct,
      so two budgets clash only when their branch ids are present and equal. */
  ghost predicate DbUnique(budgets: map<int, Budget>)
  {
    forall i, j :: i in budgets && j in budgets && i != j && budgets[i].branchId.Some? ==>
      ScopeOf(budgets[i]) != ScopeOf(budgets[j])
  }

  /** The stronger uniqueness that creating a budget checks, where an absent
      branch matches an absent branch. */
  ghost predicate ScopeUnique(budgets: map<int, Budget>)
  {
    forall i, j :: i in budgets && j in budgets && i != j ==> ScopeOf(budgets[i]) != ScopeOf(budgets[j])
  }

  /** Some budget already has the scope `s`. */
  ghost predicate ScopeTaken(budgets: map<int, Budget>, s: Scope)
  {
    exists k :: k in budgets && ScopeOf(budgets[k]) == s
  }

  /** The create check's uniqueness implies the database's. */
  lemma ScopeUniqueIsStronger(budgets: map<int, Budget>)
    requires ScopeUnique(budgets)
    ensures DbUnique(budgets)
  {
  }

  /** Inserting a budget whose scope is not taken keeps both kinds of
      uniqueness. */
  lemma InsertKeepsUnique(budgets: map<int, Budget>, k: int, b: Budget)
    requires k !in budgets && !ScopeTaken(budgets, ScopeOf(b))
    ensures DbUnique(budgets) ==> DbUnique(budgets[k := b])
    ensures ScopeUnique(budgets) ==> ScopeUnique(budgets[k := b])
  {
    var bs := budgets[k := b];
    forall i, j | i in bs && j in bs && i != j ensures (i == k || j == k) ==> ScopeOf(bs[i]) != ScopeOf(bs[j]) {
      if i == k {
        assert ScopeOf(bs[j]) == ScopeOf(budgets[j]);
      } else if j == k {
        assert ScopeOf(bs[i]) == ScopeOf(budgets[i]);
      }
    }
  }

  /** Rewriting a budget without touching its scope keeps both kinds of
      uniqueness. */
  lemma SameScopeKeepsUnique(budgets: map<int, Budget>, k: int, b: Budget)
    requires k in budgets && ScopeOf(b) == ScopeOf(budgets[k])
    ensures DbUnique(budgets) ==> DbUnique(budgets[k := b])
    ensures ScopeUnique(budgets) ==> ScopeUnique(budgets[k := b])
  {
    var bs := budgets[k := b];
    assert forall i :: i in bs ==> ScopeOf(bs[i]) == ScopeOf(budgets[i]);
  }

  /** Every budget fits its `String(7)` period and `String(3)` currency
      columns. */
  ghost predicate Fits(budgets: map<int, Budget>)
  {
    forall k :: k in budgets ==> |budgets[k].period| <= 7 && |budgets[k].currency| <= 3
  }

  /** The ids of the expenses linked to budget `id`: what deleting that budget
      deletes with it (`cascade="all, delete-orphan"`). */
  function ExpensesOf(expenses: map<int, Expense>, id: int): (gone: set<int>)
    ensures forall k :: k in gone <==> k in expenses && expenses[k].budgetId == Some(id)
  {
    set k | k in expenses && expenses[k].budgetId == Some(id)
  }

  /** The budget and expense tables of one database. */
  class Ledger {
    var budgets: map<int, Budget>
    var budgetIds: seq<int>
    var expenses: map<int, Expense>
    var expenseIds: seq<int>

    /** Both tables are well formed, the unique key holds, and every stored
        budget fits its columns. */
    ghost predicate Valid()
      reads this
    {
      && Tables.Valid(budgetIds, budgets)
      && Tables.Valid(expenseIds, expenses)
      && DbUnique(budgets)
      && Fits(budgets)
    }

    constructor ()
      ensures Valid()
      ensures budgets == map[] && expenses == map[]
    {
      budgets, budgetIds := map[], [];
      expenses, expenseIds := map[], [];
    }

    /** The key the next inserted budget receives. */
    function NextBudgetId(): int
      reads this
      requires Valid()
    {
      Tables.NextKey(budgetIds)
    }

    /** The key the next inserted expense receives. */
    function NextExpenseId(): int
      reads this
      requires Valid()
    {
      Tables.NextKey(expenseIds)
    }

    /** The budgets as a query without ORDER BY lists them. */
    function BudgetRows(): seq<(int, Budget)>
      reads this
      requires Valid()
    {
      Tables.Rows(budgetIds, budgets)
    }

    /** The expenses as a query without ORDER BY lists them. */
    function ExpenseRows(): seq<(int, Expense)>
      reads this
      requires Valid()
    {
      Tables.Rows(expenseIds, expenses)
    }
  }
}
