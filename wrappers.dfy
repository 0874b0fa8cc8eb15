/** Option and Result: a missing value (`null` in the source) and an outcome
    that either carries a value or the message of the error that was thrown. */
module Wrappers {

  datatype Option<+T> = None | Some(value: T)

  /** `Failure(error)` stands for a thrown `Error` whose `message` is `error`. */
  datatype Result<+T> = Success(value: T) | Failure(error: string)
}
