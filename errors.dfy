/** Exceptions the crawler core can raise, the outcome of an operation that may raise one,
    and an Option for values Python represents with None. */
module Errors {

  /** The exception kinds the modelled code raises or lets propagate. */
  datatype Exc =
    | ConnectionError          // requests.exceptions.ConnectionError
    | RequestTimeout           // requests.exceptions.Timeout
    | RequestError             // any other exception raised by an HTTP request
    | SeleniumTimeout          // selenium TimeoutException raised by WebDriverWait.until
    | NoSuchElement            // selenium NoSuchElementException
    | IndexError               // a list index out of range, e.g. `text.split("|")[1]`
    | KeyError(key: string)    // a missing key in a decoded JSON object
    | JsonDecodeError          // json.loads rejected its input
    | TypeError                // re.search with a pattern of None, or a key looked up in a
                               // decoded JSON value that is not an object

  /** A value, or Python's None. */
  datatype Option<T> = None | Some(value: T)

  /** A value or the exception raised instead of it. */
  datatype Result<T> = Ok(value: T) | Err(exc: Exc)

  /** How an operation ends: it returns a value, it raises, or it is still looping when the
      finite input the model is given (proxy lists, solver replies) runs out. The source keeps
      looping in that last case; the model stops and says so. */
  datatype Outcome<T> = Done(value: T) | Raised(exc: Exc) | Stalled
}
