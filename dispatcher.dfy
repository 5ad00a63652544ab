/** DispatcherServlet (src/jss/webframework/DispatcherServlet.java): route
    resolution, request and error processing, and redirects. The reflective
    scan of `init` is replaced by route tables given at construction. */
module Servlet {

  import opened Wrappers
  import opened Text
  import opened Routes
  import opened Http
  import opened Exceptions
  import opened Config
  import opened Params
  import opened Parameters
  import opened LocaleResolution
  import opened Translations
  import opened Lifecycle

  /** HttpServletResponse.SC_NOT_FOUND and SC_INTERNAL_SERVER_ERROR. */
  const NotFound: int := 404
  const InternalServerError: int := 500

  /** The content type of the built-in error page. */
  const ErrorPageContentType: string := "text/html; charset=utf-8"

  /** What a controller receives (ControllerData): the request, its HTTP
      method, the parsed parameters (null for an error dispatch), the
      dispatcher and the locale. */
  datatype ControllerData = ControllerData(
    request: Request,
    httpMethod: HttpMethod,
    params: Option<map<string, RequestParam>>,
    dispatcher: DispatcherServlet,
    locale: Locale)

  /** redirect(path): the location sent to the client, with a leading slash
      added when missing, under the context path unless the application
      sits behind a proxy. */
  function RedirectLocation(path: string, contextPath: string, isProxy: bool): (r: string)
    ensures EndsWith(r, path)
    ensures isProxy ==> StartsWith(r, "/")
    ensures !isProxy ==> StartsWith(r, contextPath + "/")
    ensures |r| == (if isProxy then 0 else |contextPath|) + |WithLeadingSlash(path)|
  {
    if isProxy then WithLeadingSlash(path) else contextPath + WithLeadingSlash(path)
  }

  /** Writing the leading slash yourself changes nothing, unless the path
      already had one: a slash is added only when missing, never a second. */
  lemma LeadingSlashOnce(path: string, contextPath: string, isProxy: bool)
    ensures RedirectLocation(path, contextPath, isProxy) == RedirectLocation("/" + path, contextPath, isProxy)
            <==> !StartsWith(path, "/")
    ensures RedirectLocation(WithLeadingSlash(path), contextPath, isProxy) == RedirectLocation(path, contextPath, isProxy)
  {
    assert StartsWith("/" + path, "/");
    if StartsWith(path, "/") {
      assert |("/" + path)| != |path|;
      if isProxy {
        assert |RedirectLocation("/" + path, contextPath, isProxy)| == |path| + 1;
      } else {
        assert |RedirectLocation("/" + path, contextPath, isProxy)| == |contextPath| + |path| + 1;
      }
    }
  }

  /** The first route, in scan order, mapped to `controller`. */
  function FirstMapped(routes: seq<Route>, controller: ControllerId): (r: Option<nat>)
    ensures r.None? <==> forall i :: 0 <= i < |routes| ==> routes[i].controller != controller
    ensures r.Some? ==> r.value < |routes| && routes[r.value].controller == controller
                        && forall j :: 0 <= j < r.value ==> routes[j].controller != controller
    decreases |routes|
  {
    if routes == [] then None
    else if routes[0].controller == controller then Some(0)
    else
      var r := FirstMapped(routes[1..], controller);
      assert forall i :: 1 <= i < |routes| ==> routes[i] == routes[1..][i - 1];
      if r.None? then None else Some(r.value + 1)
  }

  /** `value()[0]` of an annotation with no patterns. */
  const NoPattern: Throwable := Other("java.lang.ArrayIndexOutOfBoundsException", Some("Index 0 out of bounds for length 0"))

  /** How the request handler answers a throwable that escaped the
      controller: unwrap one InvocationTargetException; a WebAppException
      gives its own status and message, anything else 500 with "Internal
      server error! " and its message ("null" when it has none); the
      exception, and for a WebAppException its code, become request
      attributes only when the configuration asks for it; then the error
      path is included. */
  function FailureEffects(t: Throwable, addErrorCause: bool, errorPath: string): (r: seq<Effect>)
    ensures 2 <= |r| && r[|r| - 1] == Include(errorPath)
    ensures Unwrap(t).WebApp? ==> r[0] == SendError(Unwrap(t).exc.code, Unwrap(t).exc.message)
    ensures !Unwrap(t).WebApp? ==>
              r[0] == SendError(InternalServerError, Some("Internal server error! " + Show(MessageOf(Unwrap(t)))))
    ensures !addErrorCause ==> |r| == 2
    ensures addErrorCause ==> r[1] == SetAttribute(ErrorExceptionAttr, ThrowableValue(Unwrap(t)))
    ensures addErrorCause && Unwrap(t).WebApp? ==>
              |r| == 4 && r[2] == SetAttribute(ExceptionCodeAttr, IntValue(Unwrap(t).exc.code))
    ensures addErrorCause && !Unwrap(t).WebApp? ==> |r| == 3
  {
    var e := Unwrap(t);
    match e
    case WebApp(exc) =>
      [SendError(exc.code, exc.message)]
      + (if addErrorCause
         then [SetAttribute(ErrorExceptionAttr, ThrowableValue(e)), SetAttribute(ExceptionCodeAttr, IntValue(exc.code))]
         else [])
      + [Include(errorPath)]
    case _ =>
      [SendError(InternalServerError, Some("Internal server error! " + Show(MessageOf(e))))]
      + (if addErrorCause then [SetAttribute(ErrorExceptionAttr, ThrowableValue(e))] else [])
      + [Include(errorPath)]
  }

  /** Only one level of InvocationTargetException is removed: a wrapped
      exception is answered as if thrown directly, but a doubly wrapped one
      is answered as an internal error whose message is "null". */
  lemma UnwrapOnce(t: Throwable, addErrorCause: bool, errorPath: string)
    ensures !t.InvocationTarget? ==>
              FailureEffects(InvocationTarget(t), addErrorCause, errorPath) == FailureEffects(t, addErrorCause, errorPath)
    ensures FailureEffects(InvocationTarget(InvocationTarget(t)), addErrorCause, errorPath)[0]
            == SendError(InternalServerError, Some("Internal server error! null"))
  {
    var inner := InvocationTarget(t);
    assert Unwrap(InvocationTarget(inner)) == inner;
    assert Show(MessageOf(inner)) == "null";
    assert "Internal server error! " + "null" == "Internal server error! null";
  }

  /** What processRequest answers once a controller has run: its effects,
      followed by the failure handling when it threw. */
  function Handled(d: Trace, addErrorCause: bool, errorPath: string): (r: seq<Effect>)
    ensures d.failure.None? ==> r == d.effects
    ensures d.failure.Some? ==> r == d.effects + FailureEffects(d.failure.value, addErrorCause, errorPath)
    ensures d.failure.Some? ==> |d.effects| + 2 <= |r| && r[..|d.effects|] == d.effects && r[|r| - 1] == Include(errorPath)
  {
    if d.failure.Some? then
      var f := FailureEffects(d.failure.value, addErrorCause, errorPath);
      assert (d.effects + f)[..|d.effects|] == d.effects;
      d.effects + f
    else d.effects
  }

  /** The response to a normal request, as a specification: 404 and the
      error path when no controller is found, otherwise the controller's run
      with any failure handled. Nothing is ever thrown out. */
  function RequestTrace(routes: seq<Route>, path: string, run: ControllerRun, addErrorCause: bool,
                        errorPath: string, jspDir: string, resourceExists: string -> bool): (r: Trace)
    reads ViewFrame(run)
    ensures r.failure == None
    ensures Resolve(routes, path).None? ==> r.effects == [SendError(NotFound, Some("Not found!")), Include(errorPath)]
    ensures Resolve(routes, path).Some? ==> r.effects == Handled(Dispatched(run, jspDir, resourceExists), addErrorCause, errorPath)
  {
    if Resolve(routes, path).None? then Trace([SendError(NotFound, Some("Not found!")), Include(errorPath)], None)
    else Trace(Handled(Dispatched(run, jspDir, resourceExists), addErrorCause, errorPath), None)
  }

  /** When a controller was found and constructed, the response carries its
      effects first and ends either with EndJob (no failure) or with the
      error path included (a failure); exactly one EndJob is written. */
  lemma FoundRequestShape(routes: seq<Route>, path: string, run: ControllerRun, addErrorCause: bool,
                          errorPath: string, jspDir: string, resourceExists: string -> bool)
    requires Resolve(routes, path).Some? && run.construct.None?
    ensures var r := RequestTrace(routes, path, run, addErrorCause, errorPath, jspDir, resourceExists);
            var d := Dispatched(run, jspDir, resourceExists);
            && r.effects[..|run.jobEffects|] == run.jobEffects
            && (d.failure.None? ==> r.effects[|r.effects| - 1] == EndJob)
            && (d.failure.Some? ==> r.effects[|r.effects| - 1] == Include(errorPath))
  {
    var d := Dispatched(run, jspDir, resourceExists);
    var h := Handled(d, addErrorCause, errorPath);
    assert h[..|d.effects|] == d.effects;
    assert h[..|run.jobEffects|] == h[..|d.effects|][..|run.jobEffects|];
  }

  /** The built-in error page: HTML, the status from the exception-code
      attribute or else the container's status attribute, and a stack trace
      only when configured and an exception is present. */
  function DefaultError(request: Request, showStackTrace: bool): (r: seq<Effect>)
    ensures |r| == 2 && r[1].DefaultErrorPage?
    ensures r[0] == SetContentType(ErrorPageContentType)
    ensures r[1].stackTrace <==> showStackTrace && request.errorException.Some?
    ensures request.exceptionCode.Some? ==> r[1].errorCode == request.exceptionCode
    ensures request.exceptionCode.None? ==> r[1].errorCode == request.errorStatusCode
  {
    var code := if request.exceptionCode.Some? then request.exceptionCode else request.errorStatusCode;
    [SetContentType(ErrorPageContentType), DefaultErrorPage(code, showStackTrace && request.errorException.Some?)]
  }

  /** The response to an error dispatch, as a specification: the error
      controller's run, or the built-in error page when there is no error
      controller or it threw. Nothing is ever thrown out. */
  function ErrorTrace(errorRoutes: seq<ErrorRoute>, path: string, run: ControllerRun, request: Request,
                      showStackTrace: bool, jspDir: string, resourceExists: string -> bool): (r: Trace)
    reads ViewFrame(run)
    ensures r.failure == None
    ensures ResolveError(errorRoutes, path).None? ==> r.effects == DefaultError(request, showStackTrace)
    ensures ResolveError(errorRoutes, path).Some? ==>
              var d := Dispatched(run, jspDir, resourceExists);
              r.effects == d.effects + (if d.failure.Some? then DefaultError(request, showStackTrace) else [])
  {
    if ResolveError(errorRoutes, path).None? then Trace(DefaultError(request, showStackTrace), None)
    else
      var d := Dispatched(run, jspDir, resourceExists);
      if d.failure.Some? then Trace(d.effects + DefaultError(request, showStackTrace), None)
      else Trace(d.effects, None)
  }

  /** The built-in error page never ends a job. */
  lemma DefaultErrorNoEndJob(request: Request, showStackTrace: bool)
    ensures CountEndJob(DefaultError(request, showStackTrace)) == 0
  {
    var page := DefaultError(request, showStackTrace);
    assert page == [page[0]] + [page[1]];
    CountEndJobAppend([page[0]], [page[1]]);
  }

  /** An error controller that is found but cannot be constructed leaves
      exactly the built-in page. */
  lemma ErrorUnconstructed(errorRoutes: seq<ErrorRoute>, path: string, run: ControllerRun, request: Request,
                           showStackTrace: bool, jspDir: string, resourceExists: string -> bool)
    requires ResolveError(errorRoutes, path).Some? && run.construct.Some?
    ensures ErrorTrace(errorRoutes, path, run, request, showStackTrace, jspDir, resourceExists).effects
            == DefaultError(request, showStackTrace)
  {
    assert Dispatched(run, jspDir, resourceExists) == Trace([], run.construct);
  }

  /** An error controller that is found and constructed has its job
      effects first and exactly one EndJob more than the job wrote itself,
      whether or not the built-in page follows. */
  lemma ErrorEndJobOnce(errorRoutes: seq<ErrorRoute>, path: string, run: ControllerRun, request: Request,
                        showStackTrace: bool, jspDir: string, resourceExists: string -> bool)
    requires ResolveError(errorRoutes, path).Some? && run.construct.None?
    ensures var r := ErrorTrace(errorRoutes, path, run, request, showStackTrace, jspDir, resourceExists);
            && |run.jobEffects| <= |r.effects| && r.effects[..|run.jobEffects|] == run.jobEffects
            && CountEndJob(r.effects) == CountEndJob(run.jobEffects) + 1
  {
    var r := ErrorTrace(errorRoutes, path, run, request, showStackTrace, jspDir, resourceExists);
    var d := Dispatched(run, jspDir, resourceExists);
    EndJobOnce(run, jspDir, resourceExists);
    if d.failure.Some? {
      var page := DefaultError(request, showStackTrace);
      assert r.effects == d.effects + page;
      DefaultErrorNoEndJob(request, showStackTrace);
      CountEndJobAppend(d.effects, page);
      assert r.effects[..|d.effects|] == d.effects;
    } else {
      assert r.effects == d.effects;
    }
    assert r.effects[..|run.jobEffects|] == r.effects[..|d.effects|][..|run.jobEffects|];
  }

  /** The servlet path before an error dispatch: the forward attribute, or
      failing that the include attribute. */
  function ErrorPathOf(request: Request): (r: Option<string>)
    ensures r.Some? <==> request.forwardServletPath.Some? || request.includeServletPath.Some?
    ensures request.forwardServletPath.Some? ==> r == request.forwardServletPath
  {
    if request.forwardServletPath.Some? then request.forwardServletPath else request.includeServletPath
  }

  /** The matcher's variables after scanning `slots`, as the spec of the scan
      says they should be: nothing found, or the winning slot's entry, with
      `bestPath` the path's prefix of the winning pattern's length. */
  ghost predicate Tracks(slots: seq<Slot>, path: string, routes: seq<Route>,
                         bestPath: string, found: Option<ControllerId>, foundPath: Option<Route>)
  {
    match Select(slots, path)
    case None => bestPath == "" && found == None && foundPath == None
    case Some(k) =>
      && slots[k].entry < |routes|
      && foundPath == Some(routes[slots[k].entry])
      && found == Some(routes[slots[k].entry].controller)
      && |slots[k].pattern| <= |path|
      && bestPath == path[..|slots[k].pattern|]
  }

  ghost predicate TracksError(slots: seq<Slot>, path: string, routes: seq<ErrorRoute>,
                              bestPath: string, found: Option<ControllerId>)
  {
    match Select(slots, path)
    case None => bestPath == "" && found == None
    case Some(k) =>
      && slots[k].entry < |routes|
      && found == Some(routes[slots[k].entry].controller)
      && |slots[k].pattern| <= |path|
      && bestPath == path[..|slots[k].pattern|]
  }

  /** Scanning one more slot keeps Tracks, when the variables are updated as
      findController updates them: replaced when the slot is a candidate at
      least as long as the best so far, kept otherwise. */
  lemma TracksStep(before: seq<Slot>, slot: Slot, path: string, routes: seq<Route>,
                   bestPath: string, found: Option<ControllerId>, foundPath: Option<Route>,
                   bestPath': string, found': Option<ControllerId>, foundPath': Option<Route>)
    requires Tracks(before, path, routes, bestPath, found, foundPath)
    requires slot.entry < |routes|
    requires if IsCandidate(path, slot.pattern) && |slot.pattern| >= |bestPath|
             then bestPath' == path[..|slot.pattern|] && found' == Some(routes[slot.entry].controller)
                  && foundPath' == Some(routes[slot.entry])
             else bestPath' == bestPath && found' == found && foundPath' == foundPath
    ensures Tracks(before + [slot], path, routes, bestPath', found', foundPath')
  {
    assert (before + [slot])[..|before|] == before;
  }

  lemma TracksErrorStep(before: seq<Slot>, slot: Slot, path: string, routes: seq<ErrorRoute>,
                        bestPath: string, found: Option<ControllerId>,
                        bestPath': string, found': Option<ControllerId>)
    requires TracksError(before, path, routes, bestPath, found)
    requires slot.entry < |routes|
    requires if IsCandidate(path, slot.pattern) && |slot.pattern| >= |bestPath|
             then bestPath' == path[..|slot.pattern|] && found' == Some(routes[slot.entry].controller)
             else bestPath' == bestPath && found' == found
    ensures TracksError(before + [slot], path, routes, bestPath', found')
  {
    assert (before + [slot])[..|before|] == before;
  }

  /** One more error route: a default one changes the fallback and adds no
      slots; another adds its patterns' slots and keeps the fallback. */
  lemma ErrorPrefixStep(routes: seq<ErrorRoute>, i: nat)
    requires i < |routes|
    ensures routes[i].isDefault ==> DefaultOf(routes[..i + 1]) == Some(routes[i].controller)
    ensures routes[i].isDefault ==> ErrorSlots(routes[..i + 1]) == ErrorSlots(routes[..i])
    ensures !routes[i].isDefault ==> DefaultOf(routes[..i + 1]) == DefaultOf(routes[..i])
  {
    assert routes[..i + 1][..i] == routes[..i];
    if routes[i].isDefault {
      assert ErrorSlots(routes[..i + 1]) == ErrorSlots(routes[..i]) + [];
    }
  }

  /** The first route mapped to a controller is the one a scan stops at. */
  lemma FirstMappedAt(routes: seq<Route>, controller: ControllerId, i: nat)
    requires i < |routes| && routes[i].controller == controller
    requires forall j :: 0 <= j < i ==> routes[j].controller != controller
    ensures FirstMapped(routes, controller) == Some(i)
  {
  }

  lemma AppendNext(done: seq<Slot>, slots: seq<Slot>, j: nat)
    requires j < |slots|
    ensures done + slots[..j + 1] == (done + slots[..j]) + [slots[j]]
  {
    assert slots[..j + 1] == slots[..j] + [slots[j]];
  }

  class DispatcherServlet {
    const routes: seq<Route>
    const errorRoutes: seq<ErrorRoute>
    const config: WebAppConfig
    const localeBundle: Option<LocaleBundle>

    /** What init leaves behind: the route tables its scan found, and the
        configuration and translations the initializer published. */
    constructor (routes: seq<Route>, errorRoutes: seq<ErrorRoute>, config: WebAppConfig, localeBundle: Option<LocaleBundle>)
      ensures this.routes == routes && this.errorRoutes == errorRoutes
      ensures this.config == config && this.localeBundle == localeBundle
    {
      this.routes := routes;
      this.errorRoutes := errorRoutes;
      this.config := config;
      this.localeBundle := localeBundle;
    }

    /** onRequest: an error dispatch when a forward or include servlet path
        is set, a normal request otherwise. */
    method OnRequest(request: Request, httpMethod: HttpMethod, run: ControllerRun, decode: Decoder,
                     resourceExists: string -> bool)
      returns (t: Trace, data: Option<ControllerData>)
      ensures ErrorPathOf(request).Some? ==>
                t == ErrorTrace(errorRoutes, StripTrailingSlash(ErrorPathOf(request).value), run, request,
                                config.defErrorShowStackTrace, config.jspDir, resourceExists)
      ensures ErrorPathOf(request).Some? && data.Some? ==> data.value.params.None? && data.value.locale == request.locale
      ensures ErrorPathOf(request).None? ==>
                t == RequestTrace(routes, StripTrailingSlash(request.servletPath), run, config.addErrorCause,
                                  config.errorPath, config.jspDir, resourceExists)
      ensures ErrorPathOf(request).None? && data.Some? ==> data.value.params.Some?
    {
      var pathOfError := request.forwardServletPath;
      if pathOfError.None? {
        pathOfError := request.includeServletPath;
      }
      if pathOfError.Some? {
        t, data := ProcessError(request, httpMethod, pathOfError.value, run, resourceExists);
      } else {
        t, data := ProcessRequest(request, httpMethod, run, decode, resourceExists);
      }
    }

    /** processRequest. The controller found, if any, runs as `run`
        describes. */
    method ProcessRequest(request: Request, httpMethod: HttpMethod, run: ControllerRun, decode: Decoder,
                          resourceExists: string -> bool)
      returns (t: Trace, data: Option<ControllerData>)
      ensures t == RequestTrace(routes, StripTrailingSlash(request.servletPath), run, config.addErrorCause,
                                config.errorPath, config.jspDir, resourceExists)
      ensures data.Some? <==> Resolve(routes, StripTrailingSlash(request.servletPath)).Some?
      ensures data.Some? ==> data.value.request == request && data.value.httpMethod == httpMethod
      ensures data.Some? ==> data.value.params.Some? && data.value.params.value.Keys == BuildParams(request, decode).Keys
      ensures data.Some? ==> forall k :: k in data.value.params.value ==>
                && data.value.params.value[k].name == k
                && data.value.params.value[k].values == BuildParams(request, decode)[k].values
                && FilesAre(data.value.params.value[k].files, BuildParams(request, decode)[k].files)
      ensures data.Some? && config.localeResolver.None? ==> data.value.locale == request.locale
      ensures data.Some? && config.localeResolver.Some? ==>
                Resolved(config.localeResolver.value.cookieName, config.localeResolver.value.supportedLocales,
                         config.localeResolver.value.defaultLocale, request, data.value.locale)
    {
      var locale := RequestLocale(request);
      var path := request.servletPath;
      if EndsWith(path, "/") {
        path := path[..|path| - 1];
      }
      var controller := FindController(path);
      if controller.Some? {
        var params := ProcessParameters(request, decode);
        data := Some(ControllerData(request, httpMethod, Some(params), this, locale));
        t := Respond(run, resourceExists);
      } else {
        data := None;
        t := Trace([SendError(NotFound, Some("Not found!")), Include(config.errorPath)], None);
      }
    }

    /** The configured resolver's locale, or the container's. */
    method RequestLocale(request: Request) returns (locale: Locale)
      ensures config.localeResolver.None? ==> locale == request.locale
      ensures config.localeResolver.Some? ==>
                Resolved(config.localeResolver.value.cookieName, config.localeResolver.value.supportedLocales,
                         config.localeResolver.value.defaultLocale, request, locale)
    {
      locale := request.locale;
      if config.localeResolver.Some? {
        locale := config.localeResolver.value.ResolveLocale(request);
      }
    }

    /** Runs the found controller and handles what it throws. */
    method Respond(run: ControllerRun, resourceExists: string -> bool) returns (t: Trace)
      ensures t == Trace(Handled(Dispatched(run, config.jspDir, resourceExists), config.addErrorCause, config.errorPath), None)
    {
      var d := DispatchToController(run, config.jspDir, resourceExists);
      if d.failure.Some? {
        var failure := FailureEffects(d.failure.value, config.addErrorCause, config.errorPath);
        t := Trace(d.effects + failure, None);
      } else {
        t := Trace(d.effects, None);
      }
    }

    /** processError: no parameters and the request's own locale for the
        error controller; the built-in page when there is none or it
        throws. */
    method ProcessError(request: Request, httpMethod: HttpMethod, pathOfError: string, run: ControllerRun,
                        resourceExists: string -> bool)
      returns (t: Trace, data: Option<ControllerData>)
      ensures t == ErrorTrace(errorRoutes, StripTrailingSlash(pathOfError), run, request,
                              config.defErrorShowStackTrace, config.jspDir, resourceExists)
      ensures data.Some? <==> ResolveError(errorRoutes, StripTrailingSlash(pathOfError)).Some?
      ensures data.Some? ==> data.value == ControllerData(request, httpMethod, None, this, request.locale)
    {
      var path := pathOfError;
      if EndsWith(path, "/") {
        path := path[..|path| - 1];
      }
      var controller := FindErrorController(path);
      if controller.Some? {
        data := Some(ControllerData(request, httpMethod, None, this, request.locale));
        var d := DispatchToController(run, config.jspDir, resourceExists);
        if d.failure.Some? {
          t := Trace(d.effects + DefaultError(request, config.defErrorShowStackTrace), None);
        } else {
          t := Trace(d.effects, None);
        }
      } else {
        data := None;
        t := Trace(DefaultError(request, config.defErrorShowStackTrace), None);
      }
    }

    /** redirect(path): one sendRedirect, or what it threw. */
    method RedirectPath(path: string, request: Request, sendFailure: Option<Throwable>) returns (t: Trace)
      ensures sendFailure.None? ==> t == Trace([SendRedirect(RedirectLocation(path, request.contextPath, config.isProxy))], None)
      ensures sendFailure.Some? ==> t == Trace([], sendFailure)
    {
      var p := path;
      if !StartsWith(p, "/") {
        p := "/" + p;
      }
      if sendFailure.Some? {
        return Trace([], sendFailure);
      }
      if config.isProxy {
        t := Trace([SendRedirect(p)], None);
      } else {
        t := Trace([SendRedirect(request.contextPath + p)], None);
      }
    }

    /** redirect(controller): to the first pattern of the first route mapped
        to the controller; nothing when no route is; an empty pattern list
        fails on the index. */
    method RedirectController(controller: ControllerId, request: Request, sendFailure: Option<Throwable>)
      returns (t: Trace)
      ensures FirstMapped(routes, controller).None? ==> t == Trace([], None)
      ensures FirstMapped(routes, controller).Some? && routes[FirstMapped(routes, controller).value].patterns == [] ==>
                t == Trace([], Some(NoPattern))
      ensures (FirstMapped(routes, controller).Some? && routes[FirstMapped(routes, controller).value].patterns != []
               && sendFailure.None?) ==>
                t == Trace([SendRedirect(RedirectLocation(routes[FirstMapped(routes, controller).value].patterns[0],
                                                          request.contextPath, config.isProxy))], None)
      ensures (FirstMapped(routes, controller).Some? && routes[FirstMapped(routes, controller).value].patterns != []
               && sendFailure.Some?) ==> t == Trace([], sendFailure)
    {
      t := Trace([], None);
      var i := 0;
      while i < |routes|
        invariant 0 <= i <= |routes|
        invariant forall j :: 0 <= j < i ==> routes[j].controller != controller
      {
        if routes[i].controller == controller {
          FirstMappedAt(routes, controller, i);
          if routes[i].patterns == [] {
            return Trace([], Some(NoPattern));
          }
          t := RedirectPath(routes[i].patterns[0], request, sendFailure);
          return;
        }
        i := i + 1;
      }
    }

    /** findController: scans every pattern of every route, keeps the longest
        candidate (the later one on equal length), then applies the winner's
        redirect policy. */
    method FindController(path: string) returns (found: Option<ControllerId>)
      ensures found == Resolve(routes, path)
    {
      var bestPath := "";
      found := None;
      var foundPath: Option<Route> := None;
      var i := 0;
      while i < |routes|
        invariant 0 <= i <= |routes|
        invariant Tracks(RouteSlots(routes[..i]), path, routes, bestPath, found, foundPath)
      {
        bestPath, found, foundPath := ScanRoute(path, i, bestPath, found, foundPath);
        assert routes[..i + 1][..i] == routes[..i];
        i := i + 1;
      }
      assert routes[..i] == routes;
      if foundPath.Some? {
        if !foundPath.value.redirectAfterPath {
          if bestPath != path {
            return None;
          }
        }
      }
    }

    /** The inner loop of findController: the patterns of route i. */
    method ScanRoute(path: string, i: nat, bestPath0: string, found0: Option<ControllerId>, foundPath0: Option<Route>)
      returns (bestPath: string, found: Option<ControllerId>, foundPath: Option<Route>)
      requires i < |routes|
      requires Tracks(RouteSlots(routes[..i]), path, routes, bestPath0, found0, foundPath0)
      ensures Tracks(RouteSlots(routes[..i]) + PatternSlots(routes[i].patterns, i), path, routes, bestPath, found, foundPath)
    {
      bestPath, found, foundPath := bestPath0, found0, foundPath0;
      var p := routes[i];
      ghost var done := RouteSlots(routes[..i]);
      ghost var slots := PatternSlots(p.patterns, i);
      ghost var seen := done;
      assert done + slots[..0] == done;
      var j := 0;
      while j < |p.patterns|
        invariant 0 <= j <= |p.patterns|
        invariant seen == done + slots[..j]
        invariant Tracks(seen, path, routes, bestPath, found, foundPath)
      {
        ghost var slot := slots[j];
        ghost var bestPath1, found1, foundPath1 := bestPath, found, foundPath;
        var s := StripTrailingSlash(p.patterns[j]);
        assert slot == Slot(s, i);
        bestPath, found, foundPath := ConsiderPattern(path, s, p, bestPath, found, foundPath);
        TracksStep(seen, slot, path, routes, bestPath1, found1, foundPath1, bestPath, found, foundPath);
        AppendNext(done, slots, j);
        seen := seen + [slot];
        j := j + 1;
      }
      assert slots[..j] == slots;
    }

    /** One pattern of a route: a case-insensitive prefix of the path at
        least as long as the best so far replaces it. */
    method ConsiderPattern(path: string, s: string, p: Route, bestPath0: string, found0: Option<ControllerId>,
                           foundPath0: Option<Route>)
      returns (bestPath: string, found: Option<ControllerId>, foundPath: Option<Route>)
      ensures if IsCandidate(path, s) && |s| >= |bestPath0|
              then bestPath == path[..|s|] && found == Some(p.controller) && foundPath == Some(p)
              else bestPath == bestPath0 && found == found0 && foundPath == foundPath0
    {
      bestPath, found, foundPath := bestPath0, found0, foundPath0;
      if |path| >= |s| {
        var tempPath := path[..|s|];
        if EqualsIgnoreCase(tempPath, s) {
          if |tempPath| >= |bestPath| {
            bestPath := tempPath;
            found := Some(p.controller);
            foundPath := Some(p);
          }
        }
      }
    }

    /** findErrorController: remembers the last default entry, scans the
        patterns of the others, and falls back on the default entry only when
        no pattern matched. */
    method FindErrorController(path: string) returns (found: Option<ControllerId>)
      ensures found == ResolveError(errorRoutes, path)
    {
      var defController: Option<ControllerId> := None;
      var bestPath := "";
      var foundController: Option<ControllerId> := None;
      var i := 0;
      while i < |errorRoutes|
        invariant 0 <= i <= |errorRoutes|
        invariant defController == DefaultOf(errorRoutes[..i])
        invariant TracksError(ErrorSlots(errorRoutes[..i]), path, errorRoutes, bestPath, foundController)
      {
        var pe := errorRoutes[i];
        ErrorPrefixStep(errorRoutes, i);
        if pe.isDefault {
          defController := Some(pe.controller);
        } else {
          bestPath, foundController := ScanErrorRoute(path, i, bestPath, foundController);
        }
        i := i + 1;
      }
      assert errorRoutes[..i] == errorRoutes;
      if foundController == None {
        found := defController;
      } else {
        found := foundController;
      }
    }

    /** The inner loop of findErrorController: the patterns of the
        non-default error route i. */
    method ScanErrorRoute(path: string, i: nat, bestPath0: string, found0: Option<ControllerId>)
      returns (bestPath: string, found: Option<ControllerId>)
      requires i < |errorRoutes| && !errorRoutes[i].isDefault
      requires TracksError(ErrorSlots(errorRoutes[..i]), path, errorRoutes, bestPath0, found0)
      ensures TracksError(ErrorSlots(errorRoutes[..i + 1]), path, errorRoutes, bestPath, found)
    {
      bestPath, found := bestPath0, found0;
      var pe := errorRoutes[i];
      ghost var done := ErrorSlots(errorRoutes[..i]);
      ghost var slots := PatternSlots(pe.patterns, i);
      ghost var seen := done;
      assert errorRoutes[..i + 1][..i] == errorRoutes[..i];
      assert done + slots[..0] == done;
      var j := 0;
      while j < |pe.patterns|
        invariant 0 <= j <= |pe.patterns|
        invariant seen == done + slots[..j]
        invariant TracksError(seen, path, errorRoutes, bestPath, found)
      {
        ghost var slot := slots[j];
        ghost var bestPath1, found1 := bestPath, found;
        var s := StripTrailingSlash(pe.patterns[j]);
        assert slot == Slot(s, i);
        if |path| >= |s| {
          var tempPath := path[..|s|];
          if EqualsIgnoreCase(tempPath, s) {
            if |tempPath| >= |bestPath| {
              bestPath := tempPath;
              found := Some(pe.controller);
            }
          }
        }
        TracksErrorStep(seen, slot, path, errorRoutes, bestPath1, found1, bestPath, found);
        AppendNext(done, slots, j);
        seen := seen + [slot];
        j := j + 1;
      }
      assert slots[..j] == slots;
    }
  }
}
