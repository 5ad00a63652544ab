/** The servlet container as the core sees it: the request it reads and the
    effects it issues on the response. Nothing here is computed by the core. */
module Http {

  import opened Wrappers
  import opened Exceptions

  newtype byte = x: int | 0 <= x < 256

  /** HTTP method passed on to controllers (HttpMethodType). */
  datatype HttpMethod = GET | POST | PUT | DELETE

  /** java.util.Locale: a language and a country, either possibly empty. */
  datatype Locale = Locale(language: string, country: string)

  datatype Cookie = Cookie(name: string, value: string)

  /** One multipart part. `lines` are what BufferedReader.readLine yields
      for its body, line terminators removed. */
  datatype Part = Part(
    name: string,
    submittedFileName: Option<string>,
    size: int,
    contentType: Option<string>,
    lines: seq<string>)

  /** What the core reads from HttpServletRequest. */
  datatype Request = Request(
    servletPath: string,
    contextPath: string,
    forwardServletPath: Option<string>,   // attribute javax.servlet.forward.servlet_path
    includeServletPath: Option<string>,   // attribute javax.servlet.include.servlet_path
    contentType: Option<string>,
    parts: seq<Part>,
    parameterMap: map<string, seq<string>>,
    locale: Locale,                       // getLocale()
    locales: seq<Locale>,                 // getLocales(), in preference order
    acceptLanguage: Option<string>,       // header Accept-Language
    cookies: Option<seq<Cookie>>,
    errorException: Option<Throwable>,    // attribute javax.servlet.error.exception
    errorStatusCode: Option<int>,         // attribute javax.servlet.error.status_code
    exceptionCode: Option<int>)           // attribute jss.webframework.exc_code

  /** Request attribute names the core writes. */
  const ErrorExceptionAttr: string := "javax.servlet.error.exception"
  const ExceptionCodeAttr: string := "jss.webframework.exc_code"

  datatype AttrValue = ThrowableValue(t: Throwable) | IntValue(i: int)

  /** One call of the core on the response, request dispatcher or controller. */
  datatype Effect =
    | SetContentType(contentType: string)
    | SetStatus(status: int)
    | Include(path: string)
    | Forward(path: string)
    | WriteText(text: string)
    | WriteBytes(bytes: seq<byte>)
    | SendError(status: int, message: Option<string>)
    | SetAttribute(name: string, value: AttrValue)
    | SendRedirect(location: string)
    | EndJob
    | DefaultErrorPage(errorCode: Option<int>, stackTrace: bool)

  /** The effects an operation issued, and what it threw, if anything. */
  datatype Trace = Trace(effects: seq<Effect>, failure: Option<Throwable>)

  /** How many times `endJob` appears in a sequence of effects. */
  function CountEndJob(effects: seq<Effect>): (n: nat)
    ensures n <= |effects|
    ensures n == 0 <==> forall i :: 0 <= i < |effects| ==> effects[i] != EndJob
  {
    if effects == [] then 0
    else CountEndJob(effects[..|effects| - 1]) + (if effects[|effects| - 1] == EndJob then 1 else 0)
  }

  lemma {:induction false} CountEndJobAppend(a: seq<Effect>, b: seq<Effect>)
    ensures CountEndJob(a + b) == CountEndJob(a) + CountEndJob(b)
    decreases |b|
  {
    if b == [] {
      assert a + b == a;
    } else {
      var n := |b| - 1;
      assert (a + b)[..|a + b| - 1] == a + b[..n];
      CountEndJobAppend(a, b[..n]);
    }
  }
}
