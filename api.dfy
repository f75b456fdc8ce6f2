/** Values shared by every handler: optional request fields, the typed
    application error the handlers throw, and the outcome of a handler. */
module Api {

  /** A document identifier (the hex string of a MongoDB ObjectId). */
  type ObjectId = string

  /** A request field or a document path that may be absent (`undefined`). */
  datatype Option<+T> = None | Some(value: T) {
    /** The value, or `default` when absent. */
    function GetOr(default: T): T {
      match this
      case Some(v) => v
      case None => default
    }
  }

  /** What a failing handler throws: an `ApiError` carries an HTTP status and a
      message; `Uncaught` is an exception that no handler catches (a library
      error or a TypeError), whose status the error middleware decides. */
  datatype Error = ApiError(statusCode: int, message: string) | Uncaught(name: string)

  /** The outcome of a handler: the response data, or the error it throws. */
  datatype Result<+T> = Ok(value: T) | Err(error: Error)

  /** JavaScript truthiness of a string-valued field: neither `undefined` nor `""`. */
  predicate IsTruthy(s: Option<string>) {
    s.Some? && s.value != ""
  }

  /** `s || undefined`: the empty string becomes an absent field. */
  function OrUndefined(s: string): (r: Option<string>)
    ensures r.None? <==> s == ""
    ensures r.Some? ==> r.value == s
  {
    if s == "" then None else Some(s)
  }

  /** `s || ''` on an optional string: an absent field becomes the empty string,
      and a present one (the empty string included) is kept. */
  function OrEmpty(s: Option<string>): (r: string)
    ensures r == s.GetOr("")
    ensures s.None? ==> r == ""
  {
    if IsTruthy(s) then s.value else ""
  }
}
