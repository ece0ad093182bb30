/** Small shared vocabulary: optional values, results with an error, and the
    maximum of two times. */
module Base {

  /** A value that may be absent (Python's `None`, JavaScript's `null`). */
  datatype Option<+T> = None | Some(value: T)

  /** The outcome of an operation that can raise. */
  datatype Result<+T, +E> = Success(value: T) | Failure(error: E)

  /** Python's `max(a, b)` over times. */
  function Max(a: real, b: real): (m: real)
    ensures m >= a && m >= b
    ensures m == a || m == b
  {
    if b > a then b else a
  }
}
