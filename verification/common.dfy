/** Shared vocabulary of the order engine: optional values, the exceptions the
    Python code raises and catches, and results that either carry a value or
    an exception. */
module Common {

  datatype Option<+T> = None | Some(value: T) {
    /** Python's `d.get(key, default)` once the lookup has been made */
    function GetOr(default: T): T {
      match this
      case Some(v) => v
      case None => default
    }
  }

  /** The exceptions the engine distinguishes. `ApiError` is the exchange
      client's `BinanceAPIException` (HTTP status code and message); every
      other exception the engine only catches as `Exception`, so transport
      failures, missing keys and unparsable numbers are all `OtherError`. */
  datatype Exc =
    | ApiError(code: int, message: string)
    | ValueError(message: string)
    | RuntimeError(message: string)
    | OtherError(message: string)

  /** A call that either returns a value or raises. */
  datatype Result<+T> = Ok(value: T) | Raise(exc: Exc)

  function Min(a: int, b: int): int {
    if a <= b then a else b
  }

  function Max(a: int, b: int): int {
    if a >= b then a else b
  }
}
