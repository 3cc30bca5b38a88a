/** The exceptions the client raises, and the throwables it catches from the HTTP layer. */
module Errors {
  import opened Wrappers

  /** One constructor per exception kind the client lets escape. */
  datatype Error =
    | RequestError(message: string, code: int)     // RequestException
    | ResponseError(message: string)               // ResponseException: the JSON decoder's message
    | InvalidArgument(message: string)             // InvalidArgumentException from local validation
    | BadResource                                  // BadResourceException, message "Bad resource passed"
    | EngineError(message: string)                 // a PHP Error or TypeError raised by the engine

  /** What a caught throwable offers to `getErrorMessage`. */
  datatype Upstream =
    | NoResponseAccessor        // the throwable has no callable getResponse()
    | ResponseUnreadable        // getResponse() exists, but reading the body throws (no response, closed stream)
    | ResponseBody(content: string)

  /**
   * A throwable as the client sees it: getMessage(), getCode(), the status code
   * from getStatusCode() when that method is callable, and its response access.
   */
  datatype Throwable = Throwable(message: string, code: int, statusCode: Option<int>, upstream: Upstream)

  /** An exception of the client's own, raised inside a try block and caught there again. */
  function Rethrown(err: Error): Throwable
  {
    match err
    case RequestError(m, c) => Throwable(m, c, None, NoResponseAccessor)
    case ResponseError(m) => Throwable(m, 0, None, NoResponseAccessor)
    case InvalidArgument(m) => Throwable(m, 0, None, NoResponseAccessor)
    case BadResource => Throwable("Bad resource passed", 0, None, NoResponseAccessor)
    case EngineError(m) => Throwable(m, 0, None, NoResponseAccessor)
  }
}
