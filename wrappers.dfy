/** Value-or-absence and value-or-error datatypes shared by the other modules. */
module Wrappers {

  datatype Option<+T> = None | Some(value: T)

  /** The result of an operation that the script would abort on: either a value or the reason. */
  datatype Result<+R, +E> = Success(value: R) | Failure(error: E)
}
