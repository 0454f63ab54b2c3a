/** Optional values and results with an error, shared by the other modules. */
module Wrappers {

  /** A value that may be absent, as an unset property of the widget is. */
  datatype Option<+T> = None | Some(value: T) {

    /** The wrapped value, or `default` when there is none. */
    function GetOr(default: T): (r: T)
      ensures Some? ==> r == value
      ensures None? ==> r == default
    {
      match this
      case Some(v) => v
      case None => default
    }
  }

  /** The outcome of validating a configuration value. */
  datatype Result<+R, +E> = Ok(value: R) | Err(error: E)
}
