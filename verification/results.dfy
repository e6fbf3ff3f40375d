/** The two-variant outcome the reminder data sources hand back, and an
    optional value for the nullable fields and lookups of the store. */
module Results {

  /** A value that may be absent: Kotlin's nullable `T?`. */
  datatype Option<+T> = None | Some(value: T)

  /** `Result.Success(data)` or `Result.Error(message)`: the answer of a
      read operation of a reminder data source. */
  datatype Result<+T> = Success(data: T) | Error(message: string)
}
