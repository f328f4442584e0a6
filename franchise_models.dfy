/** The `franchises` and `branches` tables: record shapes, the unique tax
    number, the `is_active` default, and the cascade from a franchise to its
    branches. */
module FranchiseModels {
  import opened BranchSchemas
  import Tables

  /** A row of `franchises`; `createdAt` is the insertion time, in whatever
      unit the caller's clock gives. */
  datatype Franchise = Franchise(name: string, taxNumber: string, isActive: bool, createdAt: int)

  /** A row of `branches`. */
  datatype Branch = Branch(name: string, city: string, franchiseId: int)

  /** What a branch looks like in a response. */
  function BranchOut(id: int, b: Branch): (r: BranchResponse)
    ensures r.id == id && r.name == b.name && r.city == b.city && r.franchiseId == b.franchiseId
  {
    BranchResponse(id, b.name, b.city, b.franchiseId)
  }

  /** The column `tax_number` is unique. */
  ghost predicate TaxUnique(franchises: map<int, Franchise>)
  {
    forall i, j :: i in franchises && j in franchises && i != j ==>
      franchises[i].taxNumber != franchises[j].taxNumber
  }

  /** Some franchise already carries tax number `tax`. */
  ghost predicate TaxTaken(franchises: map<int, Franchise>, tax: string)
  {
    exists k :: k in franchises && franchises[k].taxNumber == tax
  }

  /** Every branch belongs to a stored franchise. */
  ghost predicate Owned(franchises: map<int, Franchise>, branches: map<int, Branch>)
  {
    forall k :: k in branches ==> branches[k].franchiseId in franchises
  }

  /** The ids of the branches of franchise `id`: what deleting that franchise
      deletes with it (`cascade="all, delete-orphan"`). */
  function BranchesOf(branches: map<int, Branch>, id: int): (gone: set<int>)
    ensures forall k :: k in gone <==> k in branches && branches[k].franchiseId == id
  {
    set k | k in branches && branches[k].franchiseId == id
  }

  /** Deleting a franchise together with its branches leaves every remaining
      branch with a stored franchise. */
  lemma CascadeKeepsOwned(franchises: map<int, Franchise>, branches: map<int, Branch>, id: int)
    requires Owned(franchises, branches)
    ensures Owned(franchises - {id}, branches - BranchesOf(branches, id))
  {
  }

  /** The franchise and branch tables of one database. */
  class Registry {
    var franchises: map<int, Franchise>
    var franchiseIds: seq<int>
    var branches: map<int, Branch>
    var branchIds: seq<int>

    /** Both tables are well formed, tax numbers are unique, and every branch
        has its franchise. */
    ghost predicate Valid()
      reads this
    {
      && Tables.Valid(franchiseIds, franchises)
      && Tables.Valid(branchIds, branches)
      && TaxUnique(franchises)
      && Owned(franchises, branches)
    }

    constructor ()
      ensures Valid()
      ensures franchises == map[] && branches == map[]
    {
      franchises, franchiseIds := map[], [];
      branches, branchIds := map[], [];
    }

    /** The key the next inserted franchise receives. */
    function NextFranchiseId(): int
      reads this
      requires Valid()
    {
      Tables.NextKey(franchiseIds)
    }

    /** The key the next inserted branch receives. */
    function NextBranchId(): int
      reads this
      requires Valid()
    {
      Tables.NextKey(branchIds)
    }

    /** The franchises as a query without ORDER BY lists them. */
    function FranchiseRows(): seq<(int, Franchise)>
      reads this
      requires Valid()
    {
      Tables.Rows(franchiseIds, franchises)
    }

    /** The branches as a query without ORDER BY lists them. */
    function BranchRows(): seq<(int, Branch)>
      reads this
      requires Valid()
    {
      Tables.Rows(branchIds, branches)
    }
  }
}
