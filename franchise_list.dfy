/** The franchise list page: the status select, the query it sends, and
    the list it shows as fetches and deletions come back. */
module FranchiseListPage {
  import opened Common
  import opened Seqs
  import opened Api
  import opened Toasts
  import FranchiseRoutes

  /** A franchise as the list receives it. */
  datatype FranchiseItem = FranchiseItem(id: int, name: string, taxNumber: string, isActive: bool, createdAt: int)

  function FranchiseIdOf(f: FranchiseItem): int
  {
    f.id
  }

  /** The value the status select shows for a filter. */
  function EncodeStatus(filter: Option<bool>): (s: string)
    ensures s in {"", "true", "false"}
    ensures s == "" <==> filter.None?
  {
    match filter
    case None => ""
    case Some(b) => if b then "true" else "false"
  }

  /** The filter a choice in the status select sets. */
  function DecodeStatus(s: string): (filter: Option<bool>)
    ensures filter.None? <==> s == ""
    ensures filter == Some(true) <==> s == "true"
  {
    if s == "" then None else Some(s == "true")
  }

  /** The select shows back the filter it set, and each of its three
      options sets the filter it shows. */
  lemma StatusSelectRoundTrip(filter: Option<bool>, s: string)
    ensures DecodeStatus(EncodeStatus(filter)) == filter
    ensures s in {"", "true", "false"} ==> EncodeStatus(DecodeStatus(s)) == s
  {
  }

  /** The query the page sends: an empty search is left out, the activity
      filter is sent as it is, and the limit is always 50. */
  function RequestQuery(search: string, filterActive: Option<bool>): (q: FranchiseRoutes.FranchiseQuery)
    ensures q.search.None? <==> search == ""
    ensures q.search.Some? ==> q.search.value == search
    ensures q.isActive == filterActive && q.limit == Some(50) && q.skip.None?
    ensures FranchiseRoutes.FranchisePageOk(q)
  {
    FranchiseRoutes.FranchiseQuery(None, Some(50), if search == "" then None else Some(search), filterActive)
  }

  /** The page's state. */
  class FranchiseList {
    var franchises: seq<FranchiseItem>
    var loading: bool
    var search: string
    var filterActive: Option<bool>

    constructor ()
      ensures franchises == [] && loading && search == "" && filterActive == None
    {
      franchises, loading, search, filterActive := [], true, "", None;
    }

    /** fetchFranchises, given the server's answer to `RequestQuery`: the
        answer replaces the list, or on failure the list stays and an error
        toast appears. `loading` ends false either way. */
    method FetchFranchises(toasts: ToastQueue, response: Outcome<seq<FranchiseItem>>, now: int)
      requires toasts.Valid()
      modifies this, toasts
      ensures toasts.Valid()
      ensures !loading && search == old(search) && filterActive == old(filterActive)
      ensures response.Done? ==> franchises == response.value && unchanged(toasts)
      ensures response.Failed? ==>
        && franchises == old(franchises)
        && toasts.toasts == old(toasts.toasts) + [Toast(now, "Failed to fetch franchises", Error)]
        && toasts.pending == old(toasts.pending) + [now]
    {
      match response {
        case Done(rows) =>
          franchises := rows;
        case Failed(_) =>
          toasts.AddToast("Failed to fetch franchises", Error, now);
      }
      loading := false;
    }

    /** handleDelete: an unconfirmed delete does nothing; once the server
        confirms, exactly the franchises with that id leave the list, the
        rest keeping their order; a failed delete leaves the list as it was.
        A toast reports the outcome. */
    method HandleDelete(id: int, toasts: ToastQueue, confirmed: bool, succeeded: bool, now: int)
      requires toasts.Valid()
      modifies this, toasts
      ensures toasts.Valid()
      ensures loading == old(loading) && search == old(search) && filterActive == old(filterActive)
      ensures !confirmed ==> franchises == old(franchises) && unchanged(toasts)
      ensures confirmed && succeeded ==>
        && franchises == RemoveKey(old(franchises), FranchiseIdOf, id)
        && toasts.toasts == old(toasts.toasts) + [Toast(now, "Franchise deleted successfully", Success)]
      ensures confirmed && !succeeded ==>
        && franchises == old(franchises)
        && toasts.toasts == old(toasts.toasts) + [Toast(now, "Failed to delete franchise", Error)]
      ensures confirmed ==> toasts.pending == old(toasts.pending) + [now]
    {
      if !confirmed {
        return;
      }
      if succeeded {
        franchises := RemoveKey(franchises, FranchiseIdOf, id);
        toasts.AddToast("Franchise deleted successfully", Success, now);
      } else {
        toasts.AddToast("Failed to delete franchise", Error, now);
      }
    }
  }

  /** Deleting one franchise from the list takes out exactly that one when
      ids are distinct, and leaves the others in order around it. */
  lemma DeleteOneFranchise(before: seq<FranchiseItem>, f: FranchiseItem, after: seq<FranchiseItem>)
    requires forall i :: 0 <= i < |before| ==> before[i].id != f.id
    requires forall i :: 0 <= i < |after| ==> after[i].id != f.id
    ensures RemoveKey(before + [f] + after, FranchiseIdOf, f.id) == before + after
  {
    var one := RemoveKey([f], FranchiseIdOf, f.id);
    assert one == [];
    RemoveKeyAppend(before, [f], FranchiseIdOf, f.id);
    RemoveKeyAbsent(before, FranchiseIdOf, f.id);
    assert RemoveKey(before + [f], FranchiseIdOf, f.id) == before;
    RemoveKeyAppend(before + [f], after, FranchiseIdOf, f.id);
    RemoveKeyAbsent(after, FranchiseIdOf, f.id);
  }
}
