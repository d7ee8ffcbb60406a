/** Failure-carrying datatypes shared by every module, and the Python exceptions the
    modelled code raises or re-raises. */
module Wrappers {

  datatype Option<+T> = None | Some(value: T) {
    function GetOr(default: T): T {
      match this
      case Some(v) => v
      case None => default
    }
  }

  datatype Result<+T, +E> = Ok(value: T) | Err(error: E)

  /** The outcome of a call that returns nothing but may raise. */
  datatype Outcome<+E> = Pass | Fail(error: E)

  /** The exception classes the modelled code distinguishes; `Raised` is any exception
      that comes out of a library call unchanged. `message` is what `str(e)` gives. */
  datatype Error =
    | FileNotFound(message: string)
    | ValueError(message: string)
    | IndexError(message: string)
    | Raised(message: string)
}
