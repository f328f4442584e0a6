/** The `/franchises` request handlers. A handler that changes the tables is
    a method on the `Registry` it is given; a handler that only reads is a
    function of the rows. */
module FranchiseRoutes {
  import opened Common
  import opened Seqs
  import opened SqlLike
  import opened FranchiseSchemas
  import opened FranchiseModels
  import Tables

  const TaxRegistered: string := "Tax number already registered"
  const MaxLimit: int := 100

  // ---------------------------------------------------------------- create

  /** The row create_franchise inserts, stamped with the current time. */
  function NewFranchise(p: FranchiseCreate, now: int): (f: Franchise)
    ensures f.name == p.name && f.taxNumber == p.taxNumber
    ensures f.isActive == CreateIsActive(p) && f.createdAt == now
  {
    Franchise(p.name, p.taxNumber, CreateIsActive(p), now)
  }

  /** The existence query of create_franchise: scans the table for a
      franchise with tax number `tax`. */
  method FindByTaxNumber(db: Registry, tax: string) returns (found: Option<int>)
    requires db.Valid()
    ensures found.Some? ==> found.value in db.franchises && db.franchises[found.value].taxNumber == tax
    ensures found.None? <==> !TaxTaken(db.franchises, tax)
  {
    var i := 0;
    while i < |db.franchiseIds|
      invariant 0 <= i <= |db.franchiseIds|
      invariant forall j :: 0 <= j < i ==> db.franchises[db.franchiseIds[j]].taxNumber != tax
    {
      var id := db.franchiseIds[i];
      if db.franchises[id].taxNumber == tax {
        return Some(id);
      }
      i := i + 1;
    }
    forall k | k in db.franchises ensures db.franchises[k].taxNumber != tax {
      var j :| 0 <= j < |db.franchiseIds| && db.franchiseIds[j] == k;
    }
    return None;
  }

  /** create_franchise: refuses a tax number already registered with a 400
      and leaves the table alone; otherwise inserts the franchise under a
      fresh id. */
  method CreateFranchise(db: Registry, p: FranchiseCreate, now: int) returns (r: Result<(int, Franchise)>)
    requires db.Valid()
    modifies db
    ensures db.Valid()
    ensures r.Err? ==> unchanged(db)
    ensures !ValidFranchiseCreate(p) ==> r == Err(Unprocessable)
    ensures ValidFranchiseCreate(p) && TaxTaken(old(db.franchises), p.taxNumber) ==>
      r == Err(Http(400, TaxRegistered))
    ensures ValidFranchiseCreate(p) && !TaxTaken(old(db.franchises), p.taxNumber) ==>
      && r == Ok((old(db.NextFranchiseId()), NewFranchise(p, now)))
      && old(db.NextFranchiseId()) !in old(db.franchises)
      && db.franchises == old(db.franchises)[old(db.NextFranchiseId()) := NewFranchise(p, now)]
      && db.branches == old(db.branches)
  {
    if !ValidFranchiseCreate(p) {
      return Err(Unprocessable);
    }
    var found := FindByTaxNumber(db, p.taxNumber);
    if found.Some? {
      return Err(Http(400, TaxRegistered));
    }
    var id := db.NextFranchiseId();
    var f := NewFranchise(p, now);
    Tables.InsertValid(db.franchiseIds, db.franchises, f);
    db.franchises := db.franchises[id := f];
    db.franchiseIds := db.franchiseIds + [id];
    r := Ok((id, f));
  }

  // ---------------------------------------------------------------- list

  /** The query parameters of list_franchises; `None` means "not given". */
  datatype FranchiseQuery = FranchiseQuery(
    skip: Option<int>,
    limit: Option<int>,
    search: Option<string>,
    isActive: Option<bool>)

  /** A non-empty search keeps the names that match `%search%`; an activity
      filter keeps the franchises with that flag. */
  predicate MatchesFranchiseQuery(f: Franchise, q: FranchiseQuery)
  {
    && (q.search.Some? && q.search.value != "" ==> Like(f.name, "%" + q.search.value + "%"))
    && (q.isActive.Some? ==> f.isActive == q.isActive.value)
  }

  predicate FranchisePageOk(q: FranchiseQuery)
  {
    0 <= q.skip.GetOr(0) && 1 <= q.limit.GetOr(10) <= MaxLimit
  }

  /** list_franchises over the rows in table order: the window of the
      matching rows that starts `skip` rows in. */
  function ListFranchises(rows: seq<(int, Franchise)>, q: FranchiseQuery): (r: Result<seq<(int, Franchise)>>)
    ensures r.Err? <==> !FranchisePageOk(q)
    ensures r.Err? ==> r.failure == Unprocessable
    ensures r.Ok? ==> r.value == Page(Filter(rows, (x: (int, Franchise)) => MatchesFranchiseQuery(x.1, q)), q.skip.GetOr(0), q.limit.GetOr(10))
    ensures r.Ok? ==> |r.value| <= q.limit.GetOr(10)
    ensures r.Ok? ==> forall i :: 0 <= i < |r.value| ==> r.value[i] in rows && MatchesFranchiseQuery(r.value[i].1, q)
    ensures r.Ok? && q.skip.GetOr(0) == 0 && |Filter(rows, (x: (int, Franchise)) => MatchesFranchiseQuery(x.1, q))| <= q.limit.GetOr(10) ==>
      forall i :: 0 <= i < |rows| && MatchesFranchiseQuery(rows[i].1, q) ==> rows[i] in r.value
  {
    if !FranchisePageOk(q) then Err(Unprocessable)
    else Ok(Query(rows, (x: (int, Franchise)) => MatchesFranchiseQuery(x.1, q), q.skip.GetOr(0), q.limit.GetOr(10)))
  }

  /** With a search text free of `%` and `_`, every listed franchise's name
      contains that text, ignoring case. */
  lemma SearchFindsContaining(rows: seq<(int, Franchise)>, q: FranchiseQuery)
    requires q.search.Some? && q.search.value != "" && Plain(q.search.value)
    requires ListFranchises(rows, q).Ok?
    ensures forall i :: 0 <= i < |ListFranchises(rows, q).value| ==>
      ContainsIgnoringCase(ListFranchises(rows, q).value[i].1.name, q.search.value)
  {
    var r := ListFranchises(rows, q).value;
    forall i | 0 <= i < |r| ensures ContainsIgnoringCase(r[i].1.name, q.search.value) {
      ContainsSearch(r[i].1.name, q.search.value);
    }
  }

  // ---------------------------------------------------------------- stats

  /** The number of active franchises among `rows`. */
  function CountActive(rows: seq<(int, Franchise)>): (n: nat)
    ensures n <= |rows|
    ensures n == |Filter(rows, (x: (int, Franchise)) => x.1.isActive)|
  {
    if rows == [] then 0
    else
      assert rows == [rows[0]] + rows[1..];
      (if rows[0].1.isActive then 1 else 0) + CountActive(rows[1..])
  }

  datatype Stats = Stats(total: int, active: int, inactive: int)

  /** get_franchise_stats: the count of franchises, of active ones, and of
      the rest (written as 0 when there are none). */
  function FranchiseStats(rows: seq<(int, Franchise)>): (s: Stats)
    ensures s.total == |rows|
    ensures s.active == |Filter(rows, (x: (int, Franchise)) => x.1.isActive)|
    ensures s.inactive == s.total - s.active
    ensures 0 <= s.active <= s.total && 0 <= s.inactive
    ensures s.total == 0 ==> s == Stats(0, 0, 0)
  {
    var total, active := |rows|, CountActive(rows);
    Stats(total, active, if total != 0 then total - active else 0)
  }

  // ---------------------------------------------------------------- get / update / delete

  /** get_franchise. */
  function GetFranchise(franchises: map<int, Franchise>, id: int): (r: Result<Franchise>)
    ensures r.Ok? <==> id in franchises
    ensures r.Ok? ==> r.value == franchises[id]
    ensures r.Err? ==> r.failure == NotFound("Franchise")
  {
    if id in franchises then Ok(franchises[id]) else Err(NotFound("Franchise"))
  }

  /** The franchise after update_franchise copies each supplied field onto
      it. */
  function ApplyFranchiseUpdate(f: Franchise, u: FranchiseUpdate): (r: Franchise)
    ensures r.name == u.name.GetOr(f.name) && r.isActive == u.isActive.GetOr(f.isActive)
    ensures r.taxNumber == f.taxNumber && r.createdAt == f.createdAt
  {
    f.(name := u.name.GetOr(f.name), isActive := u.isActive.GetOr(f.isActive))
  }

  /** Sending the same update twice has the effect of sending it once, and an
      empty update changes nothing. */
  lemma FranchiseUpdateIdempotent(f: Franchise, u: FranchiseUpdate)
    ensures ApplyFranchiseUpdate(ApplyFranchiseUpdate(f, u), u) == ApplyFranchiseUpdate(f, u)
    ensures ApplyFranchiseUpdate(f, FranchiseUpdate(None, None)) == f
  {
  }

  /** update_franchise: for a known id, copies exactly the supplied fields
      onto that franchise and touches no other row. */
  method UpdateFranchise(db: Registry, id: int, u: FranchiseUpdate) returns (r: Result<Franchise>)
    requires db.Valid()
    modifies db
    ensures db.Valid()
    ensures r.Err? ==> unchanged(db)
    ensures !ValidFranchiseUpdate(u) ==> r == Err(Unprocessable)
    ensures ValidFranchiseUpdate(u) && id !in old(db.franchises) ==> r == Err(NotFound("Franchise"))
    ensures ValidFranchiseUpdate(u) && id in old(db.franchises) ==>
      var nf := ApplyFranchiseUpdate(old(db.franchises)[id], u);
      && r == Ok(nf)
      && db.franchises == old(db.franchises)[id := nf]
      && db.branches == old(db.branches)
  {
    if !ValidFranchiseUpdate(u) {
      return Err(Unprocessable);
    }
    if id !in db.franchises {
      return Err(NotFound("Franchise"));
    }
    var nf := ApplyFranchiseUpdate(db.franchises[id], u);
    Tables.ReplaceValid(db.franchiseIds, db.franchises, id, nf);
    db.franchises := db.franchises[id := nf];
    r := Ok(nf);
  }

  /** delete_franchise: removes the franchise and, by the cascade, every
      branch of it; nothing else changes. */
  method DeleteFranchise(db: Registry, id: int) returns (r: Result<()>)
    requires db.Valid()
    modifies db
    ensures db.Valid()
    ensures r.Err? ==> unchanged(db)
    ensures id !in old(db.franchises) ==> r == Err(NotFound("Franchise"))
    ensures id in old(db.franchises) ==>
      && r == Ok(())
      && db.franchises == old(db.franchises) - {id}
      && db.branches == old(db.branches) - BranchesOf(old(db.branches), id)
  {
    if id !in db.franchises {
      return Err(NotFound("Franchise"));
    }
    var gone := BranchesOf(db.branches, id);
    Tables.RemoveValid(db.franchiseIds, db.franchises, {id});
    Tables.RemoveValid(db.branchIds, db.branches, gone);
    CascadeKeepsOwned(db.franchises, db.branches, id);
    db.franchises := db.franchises - {id};
    db.franchiseIds := Tables.Without(db.franchiseIds, {id});
    db.branches := db.branches - gone;
    db.branchIds := Tables.Without(db.branchIds, gone);
    r := Ok(());
  }

  // ---------------------------------------------------------------- branches of a franchise

  /** list_branches_for_franchise: query bounds first, then the franchise
      must exist, then its branches in table order, paged. */
  function ListBranchesForFranchise(franchises: map<int, Franchise>, rows: seq<(int, Branch)>, id: int, skip: Option<int>, limit: Option<int>): (r: Result<seq<(int, Branch)>>)
    ensures !(0 <= skip.GetOr(0) && 1 <= limit.GetOr(50) <= MaxLimit) ==> r == Err(Unprocessable)
    ensures 0 <= skip.GetOr(0) && 1 <= limit.GetOr(50) <= MaxLimit && id !in franchises ==> r == Err(NotFound("Franchise"))
    ensures r.Ok? ==> id in franchises && |r.value| <= limit.GetOr(50)
    ensures r.Ok? <==> 0 <= skip.GetOr(0) && 1 <= limit.GetOr(50) <= MaxLimit && id in franchises
    ensures r.Ok? ==> r.value == Page(Filter(rows, (x: (int, Branch)) => x.1.franchiseId == id), skip.GetOr(0), limit.GetOr(50))
    ensures r.Ok? ==> forall i :: 0 <= i < |r.value| ==> r.value[i] in rows && r.value[i].1.franchiseId == id
    ensures r.Ok? && skip.GetOr(0) == 0 && |Filter(rows, (x: (int, Branch)) => x.1.franchiseId == id)| <= limit.GetOr(50) ==>
      forall i :: 0 <= i < |rows| && rows[i].1.franchiseId == id ==> rows[i] in r.value
  {
    var s, l := skip.GetOr(0), limit.GetOr(50);
    if !(0 <= s && 1 <= l <= MaxLimit) then Err(Unprocessable)
    else if id !in franchises then Err(NotFound("Franchise"))
    else Ok(Query(rows, (x: (int, Branch)) => x.1.franchiseId == id, s, l))
  }
}
