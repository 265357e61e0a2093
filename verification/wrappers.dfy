/** Optional values and the outcome of a remote request. */
module Wrappers {

  datatype Option<+T> = None | Some(value: T) {
    /** The value, or `default` when there is none (JavaScript's `v ?? default`). */
    function GetOr(default: T): T {
      match this
      case Some(v) => v
      case None => default
    }
  }

  /** What a request to a remote endpoint yields: its decoded answer, or a failure
      (a non-success response or a connection error; the model does not tell them apart). */
  datatype Response<+T> = Ok(value: T) | NetworkError
}
