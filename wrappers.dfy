/** Option and Result types shared by every module of the model. */
module Wrappers {

  /** A value that may be absent (TypeScript's `T | null` / `T | undefined`). */
  datatype Option<+T> = None | Some(value: T) {
    function GetOr(default: T): T {
      match this
      case Some(v) => v
      case None => default
    }
  }

  /** The outcome of an operation that may throw: `Ok(v)` or a thrown error. */
  datatype Result<+T> = Ok(value: T) | Threw
}
