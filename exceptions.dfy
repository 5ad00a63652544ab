/** WebAppException (src/jss/webframework/WebAppException.java) and the
    other throwables the dispatch core tells apart. */
module Exceptions {

  import opened Wrappers

  /** WebAppException.DEFAULT_ERROR_CODE. */
  const DefaultErrorCode: int := 500

  /** An application failure: a message (null allowed), an HTTP status code
      fixed at construction and readable only through `code` (getCode), and
      an optional cause. */
  datatype WebAppException = WebAppException(message: Option<string>, code: int, cause: Option<Throwable>)

  /** What the core can catch: a WebAppException, the reflective wrapper
      InvocationTargetException around what a controller's constructor threw,
      or any other exception, known by its class name and message. */
  datatype Throwable =
    | WebApp(exc: WebAppException)
    | InvocationTarget(target: Throwable)
    | Other(className: string, message: Option<string>)

  /** `new WebAppException(message, cause)`. */
  function WithCause(message: Option<string>, cause: Throwable): (e: WebAppException)
    ensures e.code == DefaultErrorCode && e.message == message && e.cause == Some(cause)
  {
    WebAppException(message, DefaultErrorCode, Some(cause))
  }

  /** `new WebAppException(message)`. */
  function OfMessage(message: Option<string>): (e: WebAppException)
    ensures e.code == DefaultErrorCode && e.message == message && e.cause == None
  {
    WebAppException(message, DefaultErrorCode, None)
  }

  /** `new WebAppException(message, code, cause)`. */
  function WithCodeAndCause(message: Option<string>, code: int, cause: Throwable): (e: WebAppException)
    ensures e.code == code && e.message == message && e.cause == Some(cause)
  {
    WebAppException(message, code, Some(cause))
  }

  /** `new WebAppException(message, code)`. */
  function WithCode(message: Option<string>, code: int): (e: WebAppException)
    ensures e.code == code && e.message == message && e.cause == None
  {
    WebAppException(message, code, None)
  }

  /** Throwable.getMessage: an InvocationTargetException built by reflection
      carries no message of its own. */
  function MessageOf(t: Throwable): (m: Option<string>)
    ensures t.InvocationTarget? ==> m == None
  {
    match t
    case WebApp(e) => e.message
    case InvocationTarget(_) => None
    case Other(_, msg) => msg
  }

  /** `if (e instanceof InvocationTargetException) e = e.getTargetException()`:
      one level of unwrapping, never more. */
  function Unwrap(t: Throwable): (u: Throwable)
    ensures t.InvocationTarget? ==> u == t.target
    ensures !t.InvocationTarget? ==> u == t
  {
    if t.InvocationTarget? then t.target else t
  }

  /** A `java.lang.NullPointerException` raised without a message. */
  const NullPointer: Throwable := Other("java.lang.NullPointerException", None)

  /** A `java.io.IOException` with the given message. */
  function IOFailure(message: Option<string>): Throwable
  {
    Other("java.io.IOException", message)
  }
}
