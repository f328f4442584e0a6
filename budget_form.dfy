/** The budget form: its field rules, the body it sends, and the submit
    handler that creates a budget or updates the one being edited. Amounts
    are integer hundredths. */
module BudgetFormPage {
  import opened Common
  import opened Api
  import opened Toasts
  import opened Session
  import opened BudgetSchemas
  import BudgetModels
  import BudgetRoutes

  /** The value of the branch select: not yet set, so left out of the
      body; the "Franchise-level (No Branch)" option, whose value is the
      empty string; a branch's id; or the null the edit form fills in for a
      budget without a branch. */
  datatype BranchField = Untouched | Placeholder | Picked(id: int) | Null

  /** The value an option of the branch select gives the field: `None` is
      the "Franchise-level (No Branch)" option, `Some(id)` a branch. */
  function BranchChoice(option: Option<int>): (f: BranchField)
    ensures f.Placeholder? <==> option.None?
    ensures option.Some? ==> f == Picked(option.value)
  {
    if option.None? then Placeholder else Picked(option.value)
  }

  /** The form's fields. An unset franchise or an empty amount field is
      `None`. */
  datatype FormValues = FormValues(
    franchiseId: Option<int>,
    branch: BranchField,
    period: string,
    currency: string,
    planned: Option<int>)

  /** The message under each field, if any. */
  datatype FieldErrors = FieldErrors(
    franchise: Option<string>,
    period: Option<string>,
    currency: Option<string>,
    planned: Option<string>)

  const NoErrors: FieldErrors := FieldErrors(None, None, None, None)

  /** The field rules, each field's first failing rule giving its message. */
  function Errors(v: FormValues): (e: FieldErrors)
    ensures e.franchise.None? <==> v.franchiseId.Some?
    ensures e.period.None? <==> IsPeriod(v.period)
    ensures e.currency.None? <==> |v.currency| == 3
    ensures e.planned.None? <==> v.planned.Some? && v.planned.value >= 0
    ensures v.period == "" ==> e.period == Some("Period is required")
    ensures v.currency == "" ==> e.currency == Some("Currency is required")
  {
    FieldErrors(
      if v.franchiseId.None? then Some("Franchise is required") else None,
      if v.period == "" then Some("Period is required")
      else if !IsPeriod(v.period) then Some("Format: YYYY-MM") else None,
      if v.currency == "" then Some("Currency is required")
      else if |v.currency| > 3 then Some("Max 3 characters")
      else if |v.currency| < 3 then Some("Min 3 characters") else None,
      if v.planned.None? then Some("Planned amount is required")
      else if v.planned.value < 0 then Some("Must be positive") else None)
  }

  /** The form is submitted only when no field has a message. */
  predicate Accepted(v: FormValues)
  {
    Errors(v) == NoErrors
  }

  /** A zero amount passes although the message speaks of positive
      amounts, and any two-digit month passes the period rule. */
  lemma AcceptedEdgeCases()
    ensures Accepted(FormValues(Some(1), Placeholder, "2025-12", "TRY", Some(0)))
    ensures Accepted(FormValues(Some(1), Placeholder, "2025-13", "TRY", Some(100)))
    ensures !Accepted(FormValues(Some(1), Placeholder, "2025-12", "TRY", Some(-1)))
    ensures !Accepted(FormValues(None, Placeholder, "2025-12", "TRY", Some(0)))
  {
    PeriodMonthUnchecked();
  }

  /** How the server reads the `branch_id` it is sent: a field left out or
      null is no branch, an id is that branch, and the empty string is not
      an integer, so the whole body is refused with 422. */
  function ReadBranch(f: BranchField): (r: Result<Option<int>>)
    ensures r.Err? <==> f.Placeholder?
    ensures r.Err? ==> r.failure == Unprocessable
    ensures f.Picked? ==> r == Ok(Some(f.id))
    ensures f.Null? || f.Untouched? ==> r == Ok(None)
  {
    match f
    case Untouched => Ok(None)
    case Placeholder => Err(Unprocessable)
    case Picked(id) => Ok(Some(id))
    case Null => Ok(None)
  }

  /** The branch the page should send: the "no branch" option as null. */
  function SentBranch(f: BranchField): (g: BranchField)
    ensures !g.Placeholder?
    ensures ReadBranch(g) == (if f.Picked? then Ok(Some(f.id)) else Ok(None))
  {
    if f.Placeholder? then Null else f
  }

  /** The create body with the "no branch" option sent as null: whatever
      the form's rules accept, the server's rules accept too, with the same
      scope, currency and amount. */
  function CreateBody(v: FormValues): (p: BudgetCreate)
    requires Accepted(v)
    ensures ValidBudgetCreate(p)
    ensures p.franchiseId == v.franchiseId.value && p.period == v.period
    ensures CreateCurrency(p) == v.currency && p.planned == v.planned.value
    ensures ReadBranch(SentBranch(v.branch)) == Ok(p.branchId)
    ensures v.branch.Placeholder? ==> p.branchId == None
  {
    BudgetCreate(v.franchiseId.value, ReadBranch(SentBranch(v.branch)).value, v.period, Some(v.currency), v.planned.value)
  }

  /** The update body with the "no branch" option sent as null: the
      branch, currency and amount; the franchise and the period the form
      also sends are not fields of an update, so the server drops them. A
      branch field never set is left out and keeps the budget's branch. */
  function UpdateBody(v: FormValues): (u: BudgetUpdate)
    requires Accepted(v)
    ensures ValidBudgetUpdate(u)
    ensures u.currency == Some(v.currency) && u.planned == v.planned
    ensures u.approved.None? && u.actual.None? && u.status.None?
    ensures u.branchId.Some? <==> !v.branch.Untouched?
    ensures u.branchId.Some? ==> ReadBranch(SentBranch(v.branch)) == Ok(u.branchId.value)
    ensures v.branch.Placeholder? ==> u.branchId == Some(None)
  {
    var branch := if v.branch.Untouched? then None else Some(ReadBranch(SentBranch(v.branch)).value);
    BudgetUpdate(branch, Some(v.currency), v.planned, None, None, None)
  }

  /** The create body as the page sends it, read by the server: the branch
      field goes out as it is. Off the placeholder it is the corrected body. */
  function CreateBodyAsWritten(v: FormValues): (r: Result<BudgetCreate>)
    requires Accepted(v)
    ensures r.Err? <==> v.branch.Placeholder?
    ensures r.Err? ==> r.failure == Unprocessable
    ensures r.Ok? ==> r.value == CreateBody(v)
  {
    match ReadBranch(v.branch)
    case Err(f) => Err(f)
    case Ok(branch) => Ok(BudgetCreate(v.franchiseId.value, branch, v.period, Some(v.currency), v.planned.value))
  }

  /** The update body as the page sends it, read by the server: the branch
      field goes out as it is. Off the placeholder it is the corrected body. */
  function UpdateBodyAsWritten(v: FormValues): (r: Result<BudgetUpdate>)
    requires Accepted(v)
    ensures r.Err? <==> v.branch.Placeholder?
    ensures r.Err? ==> r.failure == Unprocessable
    ensures r.Ok? ==> r.value == UpdateBody(v)
  {
    if v.branch.Untouched? then Ok(BudgetUpdate(None, Some(v.currency), v.planned, None, None, None))
    else match ReadBranch(v.branch)
      case Err(f) => Err(f)
      case Ok(branch) => Ok(BudgetUpdate(Some(branch), Some(v.currency), v.planned, None, None, None))
  }

  /** The form as written cannot save a franchise-level budget: after a
      branch is chosen and then the "no branch" option again, the body every
      form rule accepts is refused by the server, on create and on edit. */
  lemma FranchiseLevelRefused(chosen: int)
    ensures var v := FormValues(Some(1), BranchChoice(None), "2025-12", "TRY", Some(100000));
      && Accepted(v)
      && CreateBodyAsWritten(v) == Err(Unprocessable)
      && UpdateBodyAsWritten(v) == Err(Unprocessable)
    ensures var v := FormValues(Some(1), BranchChoice(Some(chosen)), "2025-12", "TRY", Some(100000));
      && Accepted(v)
      && CreateBodyAsWritten(v).Ok?
      && UpdateBodyAsWritten(v).Ok?
  {
  }

  /** Saving the edit form never moves a budget to another franchise or
      period, whatever the form shows, and never touches its approved or
      actual amount or its status. */
  lemma UpdateKeepsScope(b: BudgetModels.Budget, v: FormValues)
    requires Accepted(v)
    ensures BudgetRoutes.ApplyUpdate(b, UpdateBody(v)).franchiseId == b.franchiseId
    ensures BudgetRoutes.ApplyUpdate(b, UpdateBody(v)).period == b.period
    ensures BudgetRoutes.ApplyUpdate(b, UpdateBody(v)).approved == b.approved
    ensures BudgetRoutes.ApplyUpdate(b, UpdateBody(v)).actual == b.actual
    ensures BudgetRoutes.ApplyUpdate(b, UpdateBody(v)).status == b.status
  {
  }

  /** The one request a valid submit sends. */
  datatype Call = Create(body: BudgetCreate) | Update(id: int, update: BudgetUpdate)

  /** `if (budgetId)`: an id of 0 counts as no id. */
  function CallFor(budgetId: Option<int>, v: FormValues): (c: Call)
    requires Accepted(v)
    ensures c.Update? <==> budgetId.Some? && budgetId.value != 0
    ensures c.Update? ==> c.id == budgetId.value && c.update == UpdateBody(v)
    ensures c.Create? ==> c.body == CreateBody(v)
  {
    if budgetId.Some? && budgetId.value != 0 then Update(budgetId.value, UpdateBody(v)) else Create(CreateBody(v))
  }

  const SaveFallback: string := "Failed to save budget"

  /** The form's state; `budgetId` is the budget being edited, if any. */
  class BudgetForm {
    const budgetId: Option<int>
    var values: FormValues
    var loading: bool

    /** A fresh form: nothing chosen, the branch field not yet set, the
        currency field showing "TRY". */
    constructor (budgetId: Option<int>)
      ensures this.budgetId == budgetId && !loading
      ensures values == FormValues(None, Untouched, "", DefaultCurrency, None)
    {
      this.budgetId := budgetId;
      values := FormValues(None, Untouched, "", DefaultCurrency, None);
      loading := false;
    }

    /** Choosing an option of the branch select sets the field to that
        option's value; nothing else changes. */
    method SelectBranch(option: Option<int>)
      modifies this
      ensures values == old(values).(branch := BranchChoice(option))
      ensures loading == old(loading)
    {
      values := values.(branch := BranchChoice(option));
    }

    /** fetchBudget, for the budget being edited: its fields fill the form;
        if it cannot be loaded an error toast appears and the form keeps
        its values. */
    method LoadBudget(toasts: ToastQueue, response: Outcome<BudgetModels.Budget>, now: int)
      requires toasts.Valid()
      modifies this, toasts
      ensures toasts.Valid()
      ensures loading == old(loading)
      ensures response.Done? ==> unchanged(toasts) && values == FormValues(
        Some(response.value.franchiseId),
        if response.value.branchId.Some? then Picked(response.value.branchId.value) else Null,
        response.value.period, response.value.currency, Some(response.value.planned))
      ensures response.Failed? ==>
        && values == old(values)
        && toasts.toasts == old(toasts.toasts) + [Toast(now, "Failed to load budget", Error)]
        && toasts.pending == old(toasts.pending) + [now]
    {
      match response {
        case Done(b) =>
          var branch := if b.branchId.Some? then Picked(b.branchId.value) else Null;
          values := FormValues(Some(b.franchiseId), branch, b.period, b.currency, Some(b.planned));
        case Failed(_) =>
          toasts.AddToast("Failed to load budget", Error, now);
      }
    }

    /** onSubmit, run only when the rules accept the form: one call, create
        or update; on success a toast and a return to the budget list, on
        failure the server's detail or the fallback text. `loading` ends
        false either way. `sent` is the call made, if any. */
    method Submit(app: App, toasts: ToastQueue, response: Outcome<()>, now: int) returns (sent: Option<Call>)
      requires app.Valid() && toasts.Valid()
      modifies this, app, toasts
      ensures app.Valid() && toasts.Valid()
      ensures values == old(values)
      ensures sent.Some? <==> Accepted(values)
      ensures sent.None? ==> loading == old(loading) && unchanged(toasts) && app.State() == old(app.State())
      ensures sent.Some? ==> sent.value == CallFor(budgetId, values) && !loading
      ensures sent.Some? && response.Done? ==>
        && toasts.toasts == old(toasts.toasts) +
             [Toast(now, if sent.value.Update? then "Budget updated successfully" else "Budget created successfully", Success)]
        && toasts.pending == old(toasts.pending) + [now]
        && app.State() == old(app.State()).(currentPage := "budgets")
      ensures sent.Some? && response.Failed? ==>
        && toasts.toasts == old(toasts.toasts) + [Toast(now, ErrorText(response.detail, SaveFallback), Error)]
        && toasts.pending == old(toasts.pending) + [now]
        && app.State() == old(app.State())
    {
      if !Accepted(values) {
        return None;
      }
      loading := true;
      var call := CallFor(budgetId, values);
      sent := Some(call);
      match response {
        case Done(_) =>
          var message := if call.Update? then "Budget updated successfully" else "Budget created successfully";
          toasts.AddToast(message, Success, now);
          app.Navigate("budgets");
        case Failed(detail) =>
          toasts.AddToast(ErrorText(detail, SaveFallback), Error, now);
      }
      loading := false;
    }
  }
}
