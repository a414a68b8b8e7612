/** The database rows of backend/celebrity_compare/models.py that the core reads and writes. */
module Models {
  import opened Common

  /** A `Celebrity` row. Every nullable column is an `Option`; the photo is a URL string. */
  datatype Celebrity = Celebrity(
    id: nat,
    name: string,
    photo: string,
    faceToken: Option<string>,
    description: Option<string>,
    gender: Option<string>,
    nationality: Option<string>,
    birthDate: Option<string>,
    detailUrl: Option<string>,
    source: Option<string>)

  /** A `ComparisonDetail` row: one ranked celebrity of one comparison. */
  datatype Detail = Detail(comparison: nat, celebrityId: nat, similarity: int)

  /** Whether some row of the table has the given id (`Celebrity.objects.get(id=...)` finds it). */
  predicate HasId(table: seq<Celebrity>, id: nat)
  {
    exists i :: 0 <= i < |table| && table[i].id == id
  }
}
