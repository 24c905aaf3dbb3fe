/** Python's `Optional[T]`, and a value or a raised exception. */
module Wrappers {

  datatype Option<+T> = None | Some(value: T) {

    /** The value, or `default` when there is none (Python's `x or default` for non-empty values). */
    function GetOr(default: T): T {
      match this
      case Some(v) => v
      case None => default
    }
  }

  /** The outcome of a Python call that may raise: its value, or the exception, by its type name or, where it is recorded, its message. */
  datatype Result<+T> = Success(value: T) | Failure(error: string)
}
