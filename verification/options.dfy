/** Optional values (a missing or undefined metric) and results (a run that fails). */
module Options {

  /** A value that may be undefined: pandas' NaN in the source becomes None here. */
  datatype Option<+T> = None | Some(value: T) {

    /** The value, or the given default when undefined (pandas' fillna). */
    function GetOr(default: T): T {
      match this
      case Some(v) => v
      case None => default
    }
  }

  /** The outcome of a step that can raise. */
  datatype Result<+R, +E> = Success(value: R) | Failure(error: E)
}
