/** Absent values and raised exceptions, as plain values. */
module Outcomes {

  /** A Python value that may be `None`. */
  datatype Option<+T> = None | Some(value: T)

  /** The outcome of a call that either returns a value or raises. */
  datatype Result<+R, +E> = Success(value: R) | Failure(error: E)

  /** A `KeyError` raised by subscripting a dict with a missing key. */
  datatype KeyError = KeyError(key: string)
}
