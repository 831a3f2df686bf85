/** Small failure-carrying datatypes shared by the whole model: Go's
    `(value, error)` pairs become `Result`, a lone `error` becomes `Outcome`,
    and a possibly-nil pointer becomes `Option`. */
module Wrappers {

  datatype Option<+T> = None | Some(value: T)

  datatype Result<+R, +E> = Success(value: R) | Failure(error: E)

  /** An operation that returns only an error: `Pass` is Go's `nil`. */
  datatype Outcome<+E> = Pass | Fail(error: E)
}
