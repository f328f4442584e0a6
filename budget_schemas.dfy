/** The request bodies of the budget and expense endpoints and the field
    constraints the request validation enforces before a handler runs.
    Amounts are integer hundredths of the currency unit. */
module BudgetSchemas {
  import opened Common

  const DefaultCurrency: string := "TRY"

  predicate IsDigit(c: char)
  {
    '0' <= c <= '9'
  }

  /** The period pattern `^\d{4}-\d{2}$`: four digits, a dash, two digits.
      The month is not range-checked. */
  predicate IsPeriod(s: string)
    ensures IsPeriod(s) ==> |s| == 7 && s[4] == '-'
  {
    && |s| == 7
    && IsDigit(s[0]) && IsDigit(s[1]) && IsDigit(s[2]) && IsDigit(s[3])
    && s[4] == '-'
    && IsDigit(s[5]) && IsDigit(s[6])
  }

  /** The pattern accepts any two digits as the month, so "2025-13" and
      "2025-00" pass, while a one-digit month or a missing dash does not. */
  lemma PeriodMonthUnchecked()
    ensures IsPeriod("2025-12") && IsPeriod("2025-13") && IsPeriod("2025-00")
    ensures !IsPeriod("2025-1") && !IsPeriod("2025/12") && !IsPeriod("202512")
  {
  }

  /** `BudgetCreate`: `currency` is `None` when the body leaves it out. */
  datatype BudgetCreate = BudgetCreate(
    franchiseId: int,
    branchId: Option<int>,
    period: string,
    currency: Option<string>,
    planned: int)

  /** The currency a create stores: the one given, or "TRY". */
  function CreateCurrency(p: BudgetCreate): (c: string)
    ensures p.currency.None? ==> c == DefaultCurrency
    ensures p.currency.Some? ==> c == p.currency.value
  {
    match p.currency
    case None => DefaultCurrency
    case Some(c) => c
  }

  predicate ValidBudgetCreate(p: BudgetCreate)
  {
    && IsPeriod(p.period)
    && (p.currency.Some? ==> |p.currency.value| == 3)
    && p.planned >= 0
  }

  /** A valid create always stores a three-letter currency and a period of
      seven characters. */
  lemma ValidCreateFits(p: BudgetCreate)
    requires ValidBudgetCreate(p)
    ensures |CreateCurrency(p)| == 3 && |p.period| == 7 && p.planned >= 0
  {
  }

  /** `BudgetUpdate`: every field is optional, `None` meaning "not sent".
      `branchId` and `approved` may also be sent as an explicit null
      (`Some(None)`), which clears the column. It carries no franchise or
      period field, so those never change through an update. */
  datatype BudgetUpdate = BudgetUpdate(
    branchId: Option<Option<int>>,
    currency: Option<string>,
    planned: Option<int>,
    approved: Option<Option<int>>,
    actual: Option<int>,
    status: Option<string>)

  /** Supplied amounts are non-negative and a supplied currency has three
      characters; the status is not constrained. */
  predicate ValidBudgetUpdate(u: BudgetUpdate)
  {
    && (u.currency.Some? ==> |u.currency.value| == 3)
    && (u.planned.Some? ==> u.planned.value >= 0)
    && (u.approved.Some? && u.approved.value.Some? ==> u.approved.value.value >= 0)
    && (u.actual.Some? ==> u.actual.value >= 0)
  }

  /** `ExpenseCreate`; `date` is a day number, later days being larger. */
  datatype ExpenseCreate = ExpenseCreate(
    franchiseId: int,
    branchId: Option<int>,
    budgetId: Option<int>,
    date: int,
    category: string,
    amount: int,
    note: Option<string>)

  predicate ValidExpenseCreate(p: ExpenseCreate)
  {
    p.amount >= 0
  }
}
