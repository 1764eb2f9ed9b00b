/** Option, Result and Outcome: Kotlin's nullable values, a collaborator's
    value-or-exception, and a Unit-returning call that completes or throws. */
module Wrappers {

  /** A Kotlin nullable value: `None` is `null`. */
  datatype Option<+T> = None | Some(value: T)

  /** What a collaborator call yields: its value, or the exception it throws. */
  datatype Result<+R, +E> = Success(value: R) | Failure(error: E)

  /** A call returning `Unit`: it completes, or the exception escapes to the caller. */
  datatype Outcome<+E> = Pass | Fail(error: E)
}
