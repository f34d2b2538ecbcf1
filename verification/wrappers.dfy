/** Wrappers used by the question store model:
    `Option` for Python's `Optional[...]` fields and parameters, and
    `Result` for an endpoint that either answers or raises an HTTP error. */
module Wrappers {

  /** `None` is Python's `None` (or an omitted optional parameter). */
  datatype Option<+T> = None | Some(value: T) {

    /** The wrapped value, or `default` when there is none. */
    function GetOr(default: T): (r: T)
      ensures Some? ==> r == value
      ensures None? ==> r == default
    {
      match this
      case Some(v) => v
      case None => default
    }
  }

  /** Either the value an endpoint returns or the error it raises. */
  datatype Result<+R, +E> = Success(value: R) | Failure(error: E)
}
