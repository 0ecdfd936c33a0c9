/** Optional values and results, used for JavaScript's `undefined` and for operations that fail. */
module Wrappers {

  /** A value that may be absent (JavaScript's `undefined`). */
  datatype Option<+T> = None | Some(value: T) {
    function GetOr(default: T): T {
      match this
      case Some(v) => v
      case None => default
    }
  }

  /** The outcome of an operation that either produces a value or fails with an error. */
  datatype Result<+T, +E> = Success(value: T) | Failure(error: E)

  /** JavaScript truthiness of an optional string: present and not empty. */
  predicate Truthy(s: Option<string>)
  {
    s.Some? && s.value != ""
  }
}

/** The error value the command-line tool raises (`FirebaseError`). */
module Errors {
  import opened Wrappers

  /** A message and, when the raiser gives one, the process exit code; `None` leaves
      the exit code to FirebaseError's own default. */
  datatype FirebaseError = FirebaseError(message: string, exit: Option<nat>)
}
