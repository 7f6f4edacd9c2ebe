/** Optional values and results, used for nullable columns, absent request
    fields and the error paths of the handlers. */
module Wrappers {

  datatype Option<+T> = None | Some(value: T) {
    function GetOr(default: T): T {
      match this
      case Some(v) => v
      case None => default
    }
  }

  /** A call that either returns a value or fails with an error message
      (a thrown `Error`, or a store error object). */
  datatype Result<+T> = Ok(value: T) | Err(error: string)
}
