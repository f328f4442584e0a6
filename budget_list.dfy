/** The budget list page: the query it sends, the status filter it applies
    itself, the totals it shows, the colour of each status and the actions
    it offers. Amounts are integer hundredths, as on the server. */
module BudgetListPage {
  import opened Common
  import opened Seqs
  import opened Api
  import opened Toasts
  import BudgetModels
  import BudgetRoutes

  /** A budget as the list receives it; the status is the string the server
      sent. */
  datatype BudgetItem = BudgetItem(
    id: int,
    franchiseId: int,
    branchId: Option<int>,
    period: string,
    currency: string,
    planned: int,
    approved: Option<int>,
    actual: int,
    status: string)

  /** The item the server sends for budget `id`. */
  function Item(id: int, b: BudgetModels.Budget): (it: BudgetItem)
    ensures it.id == id && it.planned == b.planned && it.actual == b.actual
    ensures BudgetModels.ParseStatus(it.status) == Some(b.status)
  {
    BudgetModels.StatusNameRoundTrip(b.status);
    BudgetItem(id, b.franchiseId, b.branchId, b.period, b.currency, b.planned, b.approved, b.actual,
      BudgetModels.StatusName(b.status))
  }

  /** The query the page sends: the franchise filter only when it is set and
      not 0, the period filter only when it is not empty, and no paging, so
      the server's default limit applies. */
  function RequestQuery(franchiseFilter: Option<int>, periodFilter: string): (q: BudgetRoutes.BudgetQuery)
    ensures q.franchiseId.Some? <==> franchiseFilter.Some? && franchiseFilter.value != 0
    ensures q.franchiseId.Some? ==> q.franchiseId == franchiseFilter
    ensures q.period.Some? <==> periodFilter != ""
    ensures q.period.Some? ==> q.period.value == periodFilter
    ensures q.branchId.None? && q.skip.None? && q.limit.None?
  {
    BudgetRoutes.BudgetQuery(
      if franchiseFilter.Some? && franchiseFilter.value != 0 then franchiseFilter else None,
      None,
      if periodFilter != "" then Some(periodFilter) else None,
      None,
      None)
  }

  /** The status filter the page applies to what the server sent: an empty
      filter keeps everything, otherwise exactly the budgets with that
      status are kept. */
  function StatusFiltered(rows: seq<BudgetItem>, status: string): (r: seq<BudgetItem>)
    ensures status == "" ==> r == rows
    ensures forall i :: 0 <= i < |r| ==> r[i] in rows && (status != "" ==> r[i].status == status)
    ensures forall i :: 0 <= i < |rows| && (status == "" || rows[i].status == status) ==> rows[i] in r
  {
    if status == "" then rows else Filter(rows, (b: BudgetItem) => b.status == status)
  }

  /** The status filter keeps the server's order: it splits over any split
      of the rows. */
  lemma StatusFilterKeepsOrder(a: seq<BudgetItem>, b: seq<BudgetItem>, status: string)
    ensures StatusFiltered(a + b, status) == StatusFiltered(a, status) + StatusFiltered(b, status)
  {
    if status != "" {
      FilterAppend(a, b, (x: BudgetItem) => x.status == status);
    }
  }

  /** Filtering the server's budgets by a status name keeps exactly the
      budgets with that status. */
  lemma StatusFilterOnServerRows(rows: seq<(int, BudgetModels.Budget)>, s: BudgetModels.BudgetStatus)
    ensures forall it :: it in StatusFiltered(seq(|rows|, i requires 0 <= i < |rows| => Item(rows[i].0, rows[i].1)), BudgetModels.StatusName(s)) ==>
      BudgetModels.ParseStatus(it.status) == Some(s)
  {
    BudgetModels.StatusNameRoundTrip(s);
  }

  /** `budgets.reduce((sum, b) => sum + b.planned_amount, 0)`. */
  function TotalPlanned(rows: seq<BudgetItem>): (t: int)
    ensures rows == [] ==> t == 0
    ensures (forall i :: 0 <= i < |rows| ==> rows[i].planned >= 0) ==> t >= 0
  {
    if rows == [] then 0 else TotalPlanned(rows[..|rows| - 1]) + rows[|rows| - 1].planned
  }

  /** `budgets.reduce((sum, b) => sum + b.actual_amount, 0)`. */
  function TotalActual(rows: seq<BudgetItem>): (t: int)
    ensures rows == [] ==> t == 0
    ensures (forall i :: 0 <= i < |rows| ==> rows[i].actual >= 0) ==> t >= 0
  {
    if rows == [] then 0 else TotalActual(rows[..|rows| - 1]) + rows[|rows| - 1].actual
  }

  /** The totals of a list are the totals of its parts. */
  lemma {:induction false} TotalsAppend(a: seq<BudgetItem>, b: seq<BudgetItem>)
    ensures TotalPlanned(a + b) == TotalPlanned(a) + TotalPlanned(b)
    ensures TotalActual(a + b) == TotalActual(a) + TotalActual(b)
  {
    if b != [] {
      var c := b[..|b| - 1];
      assert (a + b)[..|a + b| - 1] == a + c;
      assert (a + b)[|a + b| - 1] == b[|b| - 1];
      TotalsAppend(a, c);
    } else {
      assert a + b == a;
    }
  }

  /** The variance card: total actual minus total planned. */
  function Variance(rows: seq<BudgetItem>): (v: int)
    ensures v + TotalPlanned(rows) == TotalActual(rows)
  {
    TotalActual(rows) - TotalPlanned(rows)
  }

  /** The variance of a list is the sum of the variances of its parts. */
  lemma VarianceAppend(a: seq<BudgetItem>, b: seq<BudgetItem>)
    ensures Variance(a + b) == Variance(a) + Variance(b)
  {
    TotalsAppend(a, b);
  }

  const DefaultColor: string := "text-gray-600 bg-gray-50"

  /** getStatusColor */
  function StatusColor(status: string): (c: string)
    ensures status !in {"approved", "rejected", "closed"} ==> c == DefaultColor
    ensures status == "approved" ==> c == "text-green-600 bg-green-50"
    ensures status == "rejected" ==> c == "text-red-600 bg-red-50"
    ensures status == "closed" ==> c == "text-blue-600 bg-blue-50"
  {
    if status == "approved" then "text-green-600 bg-green-50"
    else if status == "draft" then "text-gray-600 bg-gray-50"
    else if status == "rejected" then "text-red-600 bg-red-50"
    else if status == "closed" then "text-blue-600 bg-blue-50"
    else DefaultColor
  }

  /** A draft looks like an unknown status; the other three statuses have
      colours of their own, different from each other. */
  lemma StatusColors()
    ensures StatusColor("draft") == StatusColor("pending")
    ensures forall s, t :: s in {"approved", "rejected", "closed"} && t in {"draft", "approved", "rejected", "closed"} && s != t ==>
      StatusColor(s) != StatusColor(t)
  {
  }

  /** Approve and Reject are offered only on a draft. */
  predicate ReviewOffered(b: BudgetItem)
  {
    b.status == "draft"
  }

  /** On the server's rows, the review actions are offered exactly for
      draft budgets, although the server would approve or reject a budget
      in any status. */
  lemma ReviewOfferedOnDrafts(id: int, b: BudgetModels.Budget)
    ensures ReviewOffered(Item(id, b)) <==> b.status == BudgetModels.Draft
  {
  }

  datatype BudgetAction = Delete | Approve | Reject

  /** The toast an action ends with. */
  function ActionToast(action: BudgetAction, succeeded: bool): (r: (string, ToastType))
    ensures r.1 == (if succeeded then Success else Error)
  {
    match action
    case Delete => if succeeded then ("Budget deleted successfully", Success) else ("Failed to delete budget", Error)
    case Approve => if succeeded then ("Budget approved", Success) else ("Failed to approve budget", Error)
    case Reject => if succeeded then ("Budget rejected", Success) else ("Failed to reject budget", Error)
  }

  /** The page's state. */
  class BudgetList {
    var budgets: seq<BudgetItem>
    var loading: bool
    var franchiseFilter: Option<int>
    var periodFilter: string
    var statusFilter: string

    constructor ()
      ensures budgets == [] && loading
      ensures franchiseFilter == None && periodFilter == "" && statusFilter == ""
    {
      budgets, loading := [], true;
      franchiseFilter, periodFilter, statusFilter := None, "", "";
    }

    /** fetchBudgets, given the server's answer to `RequestQuery`: on
        success the shown list is the answer after the status filter; on
        failure the list stays as it was and an error toast appears. The
        filters are untouched and `loading` ends false. */
    method FetchBudgets(toasts: ToastQueue, response: Outcome<seq<BudgetItem>>, now: int)
      requires toasts.Valid()
      modifies this, toasts
      ensures toasts.Valid()
      ensures !loading
      ensures franchiseFilter == old(franchiseFilter) && periodFilter == old(periodFilter) && statusFilter == old(statusFilter)
      ensures response.Done? ==> budgets == StatusFiltered(response.value, statusFilter) && unchanged(toasts)
      ensures response.Failed? ==>
        && budgets == old(budgets)
        && toasts.toasts == old(toasts.toasts) + [Toast(now, "Failed to load budgets", Error)]
        && toasts.pending == old(toasts.pending) + [now]
    {
      loading := true;
      match response {
        case Done(rows) =>
          budgets := StatusFiltered(rows, statusFilter);
        case Failed(_) =>
          toasts.AddToast("Failed to load budgets", Error, now);
      }
      loading := false;
    }

    /** Clear Filters: all three filters become empty; what is shown stays
        until the next fetch. */
    method ClearFilters()
      modifies this
      ensures franchiseFilter == None && periodFilter == "" && statusFilter == ""
      ensures budgets == old(budgets) && loading == old(loading)
      ensures RequestQuery(franchiseFilter, periodFilter) == BudgetRoutes.BudgetQuery(None, None, None, None, None)
    {
      franchiseFilter, periodFilter, statusFilter := None, "", "";
    }

    /** handleDelete, handleApprove and handleReject: an unconfirmed delete
        does nothing; otherwise the server's answer decides the toast, and
        only a success asks for a fresh fetch. The shown list itself is not
        touched. */
    method HandleAction(action: BudgetAction, toasts: ToastQueue, confirmed: bool, succeeded: bool, now: int)
      returns (refetch: bool)
      requires toasts.Valid()
      modifies toasts
      ensures toasts.Valid()
      ensures action == Delete && !confirmed ==> !refetch && unchanged(toasts)
      ensures action != Delete || confirmed ==>
        && refetch == succeeded
        && toasts.toasts == old(toasts.toasts) + [Toast(now, ActionToast(action, succeeded).0, ActionToast(action, succeeded).1)]
        && toasts.pending == old(toasts.pending) + [now]
    {
      if action == Delete && !confirmed {
        return false;
      }
      var (message, kind) := ActionToast(action, succeeded);
      toasts.AddToast(message, kind, now);
      refetch := succeeded;
    }
  }
}
