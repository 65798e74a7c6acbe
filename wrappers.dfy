/** Failure-compatible wrappers used throughout the model: a .NET `null`
    becomes `None`, a thrown exception becomes `Failure`. */
module Wrappers {

  datatype Option<+T> = None | Some(value: T) {
    function GetOr(default: T): T {
      match this
      case Some(v) => v
      case None => default
    }
  }

  datatype Result<+R, +E> = Success(value: R) | Failure(error: E)

  /** The outcome of a `bool TryX(..., out T value)` call. */
  datatype TryResult<+T> = TryResult(ok: bool, value: T)

  /** A .NET string reference: `None` is `null`. */
  type NString = Option<string>

  /** `string.IsNullOrEmpty` */
  predicate IsNullOrEmpty(s: NString) {
    s == None || s == Some("")
  }
}
