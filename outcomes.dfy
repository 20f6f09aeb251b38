/** Values shared by the math tool and the agent: an optional value, and the
    outcome of a Python call, which either returns a value or raises. */
module Outcomes {

  /** `None` or a present value, as in a nullable field of an API response. */
  datatype Option<T> = None | Some(value: T) {

    /** The value if present, else `default` (Python's `x or default` on strings). */
    function GetOr(default: T): T {
      match this
      case Some(v) => v
      case None => default
    }
  }

  /** What a Python call does: it returns a value, or it raises an exception
      whose text (what `str(e)` gives) is `message`. */
  datatype Attempt<T> = Returned(value: T) | Raised(message: string)
}
