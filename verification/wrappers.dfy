/** An optional value; `None` stands for null, undefined or NaN. */
module Wrappers {

  /** `None` stands in for a missing value: a JavaScript `null`, `undefined`
      or, for numbers, NaN. */
  datatype Option<+T> = None | Some(value: T) {

    /** The wrapped value, or `default` when there is none. */
    function GetOr(default: T): T {
      match this
      case Some(v) => v
      case None => default
    }
  }
}
