/** The reminder record a data source stores. */
module ReminderDto {
  import opened Results

  /** A geographic coordinate. The store never computes with coordinates, it
      only keeps them and hands them back, so a coordinate is the 64-bit
      pattern of its double-precision value, compared only for equality. */
  datatype Degrees = Degrees(bits: bv64)

  /** A saved reminder. Field order follows the six-argument constructor,
      with the identifier last. Every field but the identifier is optional. */
  datatype ReminderDTO = ReminderDTO(
    title: Option<string>,
    description: Option<string>,
    location: Option<string>,
    latitude: Option<Degrees>,
    longitude: Option<Degrees>,
    id: string
  )

  /** Some reminder of `list` carries identifier `id`. */
  predicate HasId(list: seq<ReminderDTO>, id: string) {
    exists i :: 0 <= i < |list| && list[i].id == id
  }

  /** Position `i` holds the first reminder of `list` whose identifier is `id`. */
  predicate FirstWithId(list: seq<ReminderDTO>, id: string, i: int) {
    && 0 <= i < |list|
    && list[i].id == id
    && forall j :: 0 <= j < i ==> list[j].id != id
  }
}
