/** Option and error-carrying results shared by the whole model. */
module Wrappers {

  datatype Option<+T> = None | Some(value: T) {
    function GetOr(default: T): T {
      match this
      case Some(v) => v
      case None => default
    }
  }

  /** The value of a call that either returns or raises an exception. */
  datatype Result<+T> = Ok(value: T) | Raised(error: string)

  /** The outcome of a call that returns nothing or raises an exception. */
  datatype Outcome = Done | Failed(error: string)
}
