/** Small failure-compatible datatypes shared by the model. */
module Wrappers {

  /** A value that may be absent: a missing dictionary key, a NaN cell, a regex search
      that found nothing, or a float() conversion that raised. */
  datatype Option<T> = None | Some(value: T) {
    function GetOr(default: T): T {
      if Some? then value else default
    }
  }

  /** The outcome of an HTTP handler: a body, or the HTTPException it raises. */
  datatype Response<T> = Ok(body: T) | HttpError(status: nat, detail: string)
}
