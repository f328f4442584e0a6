/** The branch management page: the add-branch form, the list of branches
    with the name of each one's franchise, and deletion. */
module BranchManagementPage {
  import opened Common
  import opened Seqs
  import opened Api
  import opened Toasts
  import opened BranchSchemas

  function BranchIdOf(b: BranchResponse): int
  {
    b.id
  }

  /** A franchise as the page's franchise list holds it. */
  datatype FranchiseEntry = FranchiseEntry(id: int, name: string)

  /** The franchise column: the name of the first franchise with the
      branch's franchise id, or nothing when none has it. */
  function FranchiseName(franchises: seq<FranchiseEntry>, franchiseId: int): (r: Option<string>)
    ensures r.None? <==> forall i :: 0 <= i < |franchises| ==> franchises[i].id != franchiseId
    ensures r.Some? ==> exists i :: 0 <= i < |franchises| && franchises[i].id == franchiseId && franchises[i].name == r.value
  {
    if franchises == [] then None
    else if franchises[0].id == franchiseId then Some(franchises[0].name)
    else
      assert forall i :: 0 < i < |franchises| ==> franchises[i] == franchises[1..][i - 1];
      FranchiseName(franchises[1..], franchiseId)
  }

  /** The name shown is the one at the first position with the id. */
  lemma {:induction false} FirstMatch(s: seq<FranchiseEntry>, i: int, franchiseId: int)
    requires 0 <= i < |s| && s[i].id == franchiseId
    requires forall j :: 0 <= j < i ==> s[j].id != franchiseId
    ensures FranchiseName(s, franchiseId) == Some(s[i].name)
  {
    if i > 0 {
      FirstMatch(s[1..], i - 1, franchiseId);
    }
  }

  /** A franchise listed later never hides an earlier one with the same id. */
  lemma {:induction false} FranchiseNameFirstWins(a: seq<FranchiseEntry>, b: seq<FranchiseEntry>, franchiseId: int)
    requires FranchiseName(a, franchiseId).Some?
    ensures FranchiseName(a + b, franchiseId) == FranchiseName(a, franchiseId)
  {
    if a[0].id != franchiseId {
      assert (a + b)[1..] == a[1..] + b;
      FranchiseNameFirstWins(a[1..], b, franchiseId);
    }
  }

  /** The add-branch form's fields; an unchosen franchise is `None`. */
  datatype BranchFormValues = BranchFormValues(franchiseId: Option<int>, name: string, city: string)

  const EmptyForm: BranchFormValues := BranchFormValues(None, "", "")

  /** The message under each field, if any. */
  datatype BranchFormErrors = BranchFormErrors(franchise: Option<string>, name: Option<string>, city: Option<string>)

  function Errors(v: BranchFormValues): (e: BranchFormErrors)
    ensures e.franchise.None? <==> v.franchiseId.Some?
    ensures e.name.None? <==> v.name != ""
    ensures e.city.None? <==> v.city != ""
  {
    BranchFormErrors(
      if v.franchiseId.None? then Some("Franchise is required") else None,
      if v.name == "" then Some("Name is required") else None,
      if v.city == "" then Some("City is required") else None)
  }

  predicate Accepted(v: BranchFormValues)
  {
    Errors(v) == BranchFormErrors(None, None, None)
  }

  /** The body the form sends. The page checks only that the fields are
      filled in; the server also bounds their length, so an accepted form
      is refused exactly when a field is longer than 255 characters. */
  function Body(v: BranchFormValues): (p: BranchCreate)
    requires Accepted(v)
    ensures p.name == v.name && p.city == v.city && p.franchiseId == v.franchiseId.value
    ensures ValidBranchCreate(p) <==> |v.name| <= 255 && |v.city| <= 255
  {
    BranchCreate(v.name, v.city, v.franchiseId.value)
  }

  /** The page's state. */
  class BranchManagement {
    var branches: seq<BranchResponse>
    var franchises: seq<FranchiseEntry>
    var loading: bool
    var form: BranchFormValues

    constructor ()
      ensures branches == [] && franchises == [] && loading && form == EmptyForm
    {
      branches, franchises, loading, form := [], [], true, EmptyForm;
    }

    /** fetchData: the branches are fetched, then the franchises. Only when
        both arrive are both lists replaced; a failure of the first means
        the second is never asked for. A failure shows an error toast, and
        `loading` ends false either way. `askedFranchises` tells whether the
        second request was sent. */
    method FetchData(toasts: ToastQueue, branchesResponse: Outcome<seq<BranchResponse>>,
                     franchisesResponse: Outcome<seq<FranchiseEntry>>, now: int)
      returns (askedFranchises: bool)
      requires toasts.Valid()
      modifies this, toasts
      ensures toasts.Valid()
      ensures !loading && form == old(form)
      ensures askedFranchises <==> branchesResponse.Done?
      ensures branchesResponse.Done? && franchisesResponse.Done? ==>
        branches == branchesResponse.value && franchises == franchisesResponse.value && unchanged(toasts)
      ensures branchesResponse.Failed? || franchisesResponse.Failed? ==>
        && branches == old(branches) && franchises == old(franchises)
        && toasts.toasts == old(toasts.toasts) + [Toast(now, "Failed to load branches and franchises", Error)]
        && toasts.pending == old(toasts.pending) + [now]
    {
      askedFranchises := branchesResponse.Done?;
      if branchesResponse.Done? && franchisesResponse.Done? {
        branches := branchesResponse.value;
        franchises := franchisesResponse.value;
      } else {
        toasts.AddToast("Failed to load branches and franchises", Error, now);
      }
      loading := false;
    }

    /** onSubmit, run only when the form is accepted: on success the form
        is cleared, a fresh fetch is asked for and a success toast appears;
        on failure the form stays and the toast shows the server's detail
        or the fallback text. */
    method Submit(toasts: ToastQueue, response: Outcome<BranchResponse>, now: int)
      returns (sent: Option<BranchCreate>, refetch: bool)
      requires toasts.Valid()
      modifies this, toasts
      ensures toasts.Valid()
      ensures branches == old(branches) && franchises == old(franchises) && loading == old(loading)
      ensures sent.Some? <==> Accepted(old(form))
      ensures sent.Some? ==> sent.value == Body(old(form))
      ensures sent.None? ==> form == old(form) && !refetch && unchanged(toasts)
      ensures sent.Some? && response.Done? ==>
        && form == EmptyForm && refetch
        && toasts.toasts == old(toasts.toasts) + [Toast(now, "Branch created successfully!", Success)]
        && toasts.pending == old(toasts.pending) + [now]
      ensures sent.Some? && response.Failed? ==>
        && form == old(form) && !refetch
        && toasts.toasts == old(toasts.toasts) + [Toast(now, ErrorText(response.detail, "Failed to create branch"), Error)]
        && toasts.pending == old(toasts.pending) + [now]
    {
      if !Accepted(form) {
        return None, false;
      }
      sent := Some(Body(form));
      match response {
        case Done(_) =>
          form := EmptyForm;
          refetch := true;
          toasts.AddToast("Branch created successfully!", Success, now);
        case Failed(detail) =>
          refetch := false;
          toasts.AddToast(ErrorText(detail, "Failed to create branch"), Error, now);
      }
    }

    /** handleDelete: an unconfirmed delete does nothing; once the server
        confirms, exactly the branches with that id leave the list, the
        rest keeping their order; a failed delete leaves the list as it was
        and shows the server's detail or the fallback text. */
    method HandleDelete(id: int, toasts: ToastQueue, confirmed: bool, response: Outcome<()>, now: int)
      requires toasts.Valid()
      modifies this, toasts
      ensures toasts.Valid()
      ensures franchises == old(franchises) && loading == old(loading) && form == old(form)
      ensures !confirmed ==> branches == old(branches) && unchanged(toasts)
      ensures confirmed && response.Done? ==>
        && branches == RemoveKey(old(branches), BranchIdOf, id)
        && toasts.toasts == old(toasts.toasts) + [Toast(now, "Branch deleted successfully", Success)]
      ensures confirmed && response.Failed? ==>
        && branches == old(branches)
        && toasts.toasts == old(toasts.toasts) + [Toast(now, ErrorText(response.detail, "Failed to delete branch"), Error)]
      ensures confirmed ==> toasts.pending == old(toasts.pending) + [now]
    {
      if !confirmed {
        return;
      }
      match response {
        case Done(_) =>
          branches := RemoveKey(branches, BranchIdOf, id);
          toasts.AddToast("Branch deleted successfully", Success, now);
        case Failed(detail) =>
          toasts.AddToast(ErrorText(detail, "Failed to delete branch"), Error, now);
      }
    }
  }

  /** With branch ids distinct, a confirmed delete takes exactly that
      branch out of the list and leaves the others in their order. */
  lemma DeleteOneBranch(before: seq<BranchResponse>, b: BranchResponse, after: seq<BranchResponse>)
    requires forall i :: 0 <= i < |before| ==> before[i].id != b.id
    requires forall i :: 0 <= i < |after| ==> after[i].id != b.id
    ensures RemoveKey(before + [b] + after, BranchIdOf, b.id) == before + after
  {
    assert RemoveKey([b], BranchIdOf, b.id) == [];
    RemoveKeyAppend(before, [b], BranchIdOf, b.id);
    RemoveKeyAbsent(before, BranchIdOf, b.id);
    assert RemoveKey(before + [b], BranchIdOf, b.id) == before;
    RemoveKeyAppend(before + [b], after, BranchIdOf, b.id);
    RemoveKeyAbsent(after, BranchIdOf, b.id);
  }
}
