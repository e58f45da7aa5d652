/** Option, Result and the three-state optional-nullable input field. */
module Wrappers {

  datatype Option<+T> = None | Some(value: T) {
    function GetOr(default: T): T {
      match this
      case Some(v) => v
      case None => default
    }
  }

  datatype Result<+R, +E> = Ok(value: R) | Err(error: E)

  /** A field of an input object that is `.nullable().optional()`:
      absent (undefined), explicit null, or a value. */
  datatype Patch<+T> = Absent | Null | Value(value: T)
}
