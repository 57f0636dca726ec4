/** Small shared datatypes: an optional value and the error a service raises
    with `ctx.throw(status, message)`. */
module Common {

  datatype Option<T> = None | Some(value: T) {
    function GetOr(default: T): T {
      match this
      case Some(v) => v
      case None => default
    }
  }

  /** An error thrown by `ctx.throw(status, message)`. */
  datatype ServiceError = ServiceError(status: int, message: string)

  /** The outcome of a service call: a value, or the error it threw. */
  datatype Result<T> = Ok(value: T) | Err(error: ServiceError)

  /** A string parameter that is present and truthy (non-empty). */
  predicate Given(s: Option<string>) {
    s.Some? && s.value != ""
  }
}
