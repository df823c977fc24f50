/** Results of operations that the source lets throw or return null. */
module Wrappers {

  /** Identifiers are UUIDs in the source; only their distinctness matters here. */
  type Id = nat

  datatype Option<+T> = None | Some(value: T)

  datatype Result<+T, +E> = Success(value: T) | Failure(error: E)

  datatype Outcome<+E> = Pass | Fail(error: E)
}
