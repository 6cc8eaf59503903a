/** Values that may be absent, and the outcome of one remote call. */
module Wrappers {

  /** A JavaScript value that may be `null`/`undefined` (None) or present (Some). */
  datatype Option<+T> = None | Some(value: T) {
    function GetOr(default: T): T {
      match this
      case Some(v) => v
      case None => default
    }
  }

  /**
   * The settled state of one awaited remote call: the response it resolved
   * with, or a rejection (transport error, non-success status, ...).
   */
  datatype Remote<+T> = Ok(value: T) | Failed
}
