/** Option, shared by every module. */
module Wrappers {

  /** A value that may be absent (`undefined` / `null` in the app). */
  datatype Option<+T> = None | Some(value: T) {
    function GetOr(default: T): T {
      match this
      case Some(v) => v
      case None => default
    }
  }
}
