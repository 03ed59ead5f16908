/** Small value types shared by the dashboard's modules. */
module Wrappers {

  /** A value that may be missing: JavaScript's `undefined` or `null`. */
  datatype Option<+T> = None | Some(value: T)

  /** How an HTTP request made with axios settles: with the response body, or with an
      error that carries nothing (transport failure or a non-success status). */
  datatype Response<+T> = Ok(payload: T) | Err

  /** What a component stores once a request settles: the payload, or its own
      stand-in for "no data" when the request failed. */
  function Outcome<T>(r: Response<T>, onError: T): (v: T)
    ensures r.Ok? ==> v == r.payload
    ensures r.Err? ==> v == onError
  {
    match r
    case Ok(p) => p
    case Err => onError
  }
}
