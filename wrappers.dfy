/** Optional values and endpoint answers shared by every module. */
module Wrappers {

  /** A value that a request body, a query string or a table cell may lack
      (JavaScript's undefined / null, SQL's NULL). */
  datatype Option<+T> = None | Some(value: T) {

    /** `x || d` for a field that is either absent or holds a usable value. */
    function GetOr(default: T): T {
      match this
      case Some(v) => v
      case None => default
    }
  }

  /** What an endpoint answers: a value (2xx), or an HTTP status with its error text. */
  datatype Outcome<+T> = Ok(value: T) | Fail(status: nat, message: string)
}
