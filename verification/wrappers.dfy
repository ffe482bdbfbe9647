/** Failure-carrying datatypes shared by the option model and the facade. */
module Wrappers {

  /** A value that may be absent: `undefined` on the TypeScript side, `Option` on the Rust side. */
  datatype Option<+T> = None | Some(value: T) {

    /** The carried value, or `default` when absent. */
    function GetOr(default: T): T
    {
      match this
      case Some(v) => v
      case None => default
    }
  }

  /** Either a computed value or an error. */
  datatype Result<+R, +E> = Success(value: R) | Failure(error: E)

  /** Either a plain pass or a failure carrying an error. */
  datatype Outcome<+E> = Pass | Fail(error: E)
}
