/** The Some/None datatype used for Python's None, pandas' NaN and SQL's NULL. */
module Wrappers {

  datatype Option<+T> = None | Some(value: T) {

    /** The wrapped value, or `default` when there is none (a skipped NaN counts as `default`). */
    function GetOr(default: T): T {
      match this
      case Some(v) => v
      case None => default
    }
  }
}
