/** The values the notifier exchanges with its collaborators: Go `error` values and
    the (value, error) pairs its calls return. */
module Outcomes {

  /** A Go `error`, known by the text its Error() method returns. */
  datatype Error = Error(text: string)

  /** An `error` result that may be nil. */
  datatype Option<+T> = None | Some(value: T)

  /** A Go (value, error) pair in which exactly one side is meaningful. */
  datatype Result<+T, +E> = Success(value: T) | Failure(error: E)
}
