/** Option, for values that JavaScript represents as `undefined`, `null`,
    `NaN` or a failed `find`. */
module Wrappers {

  datatype Option<+T> = None | Some(value: T) {

    /** The value, or `d` when there is none. */
    function GetOr(d: T): T {
      match this
      case Some(v) => v
      case None => d
    }
  }
}
