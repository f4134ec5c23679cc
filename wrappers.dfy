/** An optional value and a success-or-error result, used for the table lookups and for shape errors. */
module Wrappers {

  /** A value that may be missing (a failed lookup, a shape the tensor engine rejects). */
  datatype Option<+T> = None | Some(value: T)

  /** A constructed value, or the error that construction fails with. */
  datatype Result<+T, +E> = Success(value: T) | Failure(error: E)
}
