/** The optional value shared by the pages: `None` stands for JavaScript's
    `null`/`undefined`, or for `NaN` where a number parse produced one. */
module Wrappers {
  datatype Option<+T> = None | Some(value: T) {
    /** The value, or `default` for `None` (JavaScript's `x || default` on a non-zero number). */
    function GetOr(default: T): T {
      match this
      case Some(v) => v
      case None => default
    }
  }
}
