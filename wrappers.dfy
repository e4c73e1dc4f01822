/** Small failure-carrying datatypes shared by both bridges. */
module Wrappers {

  /** A value that may be absent: a missing JSON key or a Python `None`. */
  datatype Option<+T> = None | Some(value: T) {

    /** The value, or `default` when absent (Python's `dict.get(key, default)`). */
    function GetOr(default: T): T {
      match this
      case Some(v) => v
      case None => default
    }
  }

  /** The outcome of a Python call: it returns a value, or it raises an
      exception whose `str(e)` is `message`. */
  datatype Attempt<+T> = Returned(value: T) | Raised(message: string)
}
