/** Absent-or-present values and success-or-failure values, used wherever the
    source returns `null`/`undefined` or throws. */
module Wrappers {

  datatype Option<+T> = None | Some(value: T) {
    /** JavaScript's `a ?? b`: keep a present value, fall back only on absence. */
    function OrElse(fallback: Option<T>): Option<T> {
      if Some? then this else fallback
    }
  }

  /** A call that either returns `value` or throws `error`. */
  datatype Result<+R, +E> = Success(value: R) | Failure(error: E)

  /** A call that returns nothing or throws `error`. */
  datatype Outcome<+E> = Pass | Fail(error: E)
}
