/** The request body of branch creation and the shape of a branch response. */
module BranchSchemas {

  datatype BranchCreate = BranchCreate(name: string, city: string, franchiseId: int)

  /** A name and a city of 1 to 255 characters each. */
  predicate ValidBranchCreate(p: BranchCreate)
  {
    1 <= |p.name| <= 255 && 1 <= |p.city| <= 255
  }

  /** `BranchResponse`: exactly the id, name, city and franchise id. */
  datatype BranchResponse = BranchResponse(id: int, name: string, city: string, franchiseId: int)
}
