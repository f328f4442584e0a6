/** The request bodies of the franchise endpoints and their field
    constraints. Lengths count characters. */
module FranchiseSchemas {
  import opened Common

  /** `FranchiseCreate`; `isActive` is `None` when the body leaves it out. */
  datatype FranchiseCreate = FranchiseCreate(name: string, taxNumber: string, isActive: Option<bool>)

  /** A name of 1 to 255 characters and a tax number of 1 to 50. */
  predicate ValidFranchiseCreate(p: FranchiseCreate)
  {
    1 <= |p.name| <= 255 && 1 <= |p.taxNumber| <= 50
  }

  /** The activity flag a create stores: the one given, or true. */
  function CreateIsActive(p: FranchiseCreate): (active: bool)
    ensures p.isActive.None? ==> active
    ensures p.isActive.Some? ==> active == p.isActive.value
  {
    p.isActive.GetOr(true)
  }

  /** `FranchiseUpdate`: a name and an activity flag, each `None` when not
      sent. There is no tax number field, so an update can never change it. */
  datatype FranchiseUpdate = FranchiseUpdate(name: Option<string>, isActive: Option<bool>)

  /** A supplied name has 1 to 255 characters. */
  predicate ValidFranchiseUpdate(u: FranchiseUpdate)
  {
    u.name.Some? ==> 1 <= |u.name.value| <= 255
  }
}
