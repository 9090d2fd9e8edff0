/** Value types shared by the data-access layer (the record and interface
    declarations of types.ts). */
module Types {

  /** An optional value; `None` stands for an absent (undefined) argument. */
  datatype Option<+T> = None | Some(value: T)

  /** Page metadata returned next to a listing.
      `Empty` is the empty object that a listing with a non-positive page
      returns in place of real metadata: none of the four fields is set. */
  datatype Pagination =
    | Empty
    | Pagination(page: int, pageSize: int, total: nat, totalPages: nat)
}
