/** The `/branches` request handlers. */
module BranchRoutes {
  import opened Common
  import opened Seqs
  import opened BranchSchemas
  import opened FranchiseModels
  import Tables

  /** The row create_branch inserts: the payload as given. */
  function NewBranch(p: BranchCreate): (b: Branch)
    ensures b.name == p.name && b.city == p.city && b.franchiseId == p.franchiseId
  {
    Branch(p.name, p.city, p.franchiseId)
  }

  /** create_branch: a branch whose franchise does not exist is refused with
      404 and nothing is inserted; otherwise the branch is inserted under a
      fresh id. */
  method CreateBranch(db: Registry, p: BranchCreate) returns (r: Result<BranchResponse>)
    requires db.Valid()
    modifies db
    ensures db.Valid()
    ensures r.Err? ==> unchanged(db)
    ensures !ValidBranchCreate(p) ==> r == Err(Unprocessable)
    ensures ValidBranchCreate(p) && p.franchiseId !in old(db.franchises) ==> r == Err(NotFound("Franchise"))
    ensures ValidBranchCreate(p) && p.franchiseId in old(db.franchises) ==>
      && r == Ok(BranchOut(old(db.NextBranchId()), NewBranch(p)))
      && old(db.NextBranchId()) !in old(db.branches)
      && db.branches == old(db.branches)[old(db.NextBranchId()) := NewBranch(p)]
      && db.franchises == old(db.franchises)
  {
    if !ValidBranchCreate(p) {
      return Err(Unprocessable);
    }
    if p.franchiseId !in db.franchises {
      return Err(NotFound("Franchise"));
    }
    var id := db.NextBranchId();
    var b := NewBranch(p);
    Tables.InsertValid(db.branchIds, db.branches, b);
    db.branches := db.branches[id := b];
    db.branchIds := db.branchIds + [id];
    r := Ok(BranchOut(id, b));
  }

  /** The franchise filter of list_branches, tested for truth: an absent or
      zero id filters nothing. */
  predicate MatchesFranchise(b: Branch, franchiseId: Option<int>)
  {
    franchiseId.Some? && franchiseId.value != 0 ==> b.franchiseId == franchiseId.value
  }

  /** list_branches: no bounds are checked on `skip` and `limit`, so the
      database's own reading applies (a negative offset counts as zero, a
      negative limit as no limit). */
  function ListBranches(rows: seq<(int, Branch)>, franchiseId: Option<int>, skip: Option<int>, limit: Option<int>): (r: seq<(int, Branch)>)
    ensures r == Page(Filter(rows, (x: (int, Branch)) => MatchesFranchise(x.1, franchiseId)), skip.GetOr(0), limit.GetOr(10))
    ensures 0 <= limit.GetOr(10) ==> |r| <= limit.GetOr(10)
    ensures forall i :: 0 <= i < |r| ==> r[i] in rows && MatchesFranchise(r[i].1, franchiseId)
    ensures (franchiseId.None? || franchiseId == Some(0)) && skip.GetOr(0) <= 0 && limit.GetOr(10) < 0 ==> r == rows
  {
    var p := (x: (int, Branch)) => MatchesFranchise(x.1, franchiseId);
    if (franchiseId.None? || franchiseId == Some(0)) then
      FilterKeepsAll(rows, p);
      Query(rows, p, skip.GetOr(0), limit.GetOr(10))
    else
      Query(rows, p, skip.GetOr(0), limit.GetOr(10))
  }

  /** get_branch. */
  function GetBranch(branches: map<int, Branch>, id: int): (r: Result<BranchResponse>)
    ensures r.Ok? <==> id in branches
    ensures r.Ok? ==> r.value == BranchOut(id, branches[id])
    ensures r.Err? ==> r.failure == NotFound("Branch")
  {
    if id in branches then Ok(BranchOut(id, branches[id])) else Err(NotFound("Branch"))
  }

  /** delete_branch: removes exactly that branch. */
  method DeleteBranch(db: Registry, id: int) returns (r: Result<()>)
    requires db.Valid()
    modifies db
    ensures db.Valid()
    ensures r.Err? ==> unchanged(db)
    ensures id !in old(db.branches) ==> r == Err(NotFound("Branch"))
    ensures id in old(db.branches) ==>
      && r == Ok(())
      && db.branches == old(db.branches) - {id}
      && db.franchises == old(db.franchises)
  {
    if id !in db.branches {
      return Err(NotFound("Branch"));
    }
    Tables.RemoveValid(db.branchIds, db.branches, {id});
    db.branches := db.branches - {id};
    db.branchIds := Tables.Without(db.branchIds, {id});
    r := Ok(());
  }
}
