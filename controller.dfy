/** AbstractController (src/jss/webframework/AbstractController.java): the
    base every controller extends. What it does on the response is recorded
    as a trace of effects; what the overridable endJob hook and the
    container's calls throw are parameters. */
module Controllers {

  import opened Wrappers
  import opened Http
  import opened Exceptions
  import opened Params
  import opened Parameters
  import opened Translations
  import opened Routes
  import opened Servlet
  import opened Lifecycle

  /** The class names of the checked exceptions the hand-offs catch. */
  const IOExceptionClass: string := "java.io.IOException"
  const ServletExceptionClass: string := "javax.servlet.ServletException"

  /** What getTranslations throws when no LocaleBundle was published. */
  const NotInitialized: Throwable := Other("java.lang.IllegalStateException", Some("Translations not initialized!"))

  /** The path sendError forwards to: a literal, not the configured error
      path. */
  const ErrorForward: string := "/error"

  /** `catch (X e) { throw new WebAppException(e.getMessage(), e); }` for the
      exception classes in `caught`; any other throwable passes through
      unchanged, and no failure stays no failure. */
  function Rethrown(failure: Option<Throwable>, caught: set<string>): (r: Option<Throwable>)
    ensures failure.None? <==> r.None?
    ensures failure.Some? && failure.value.Other? && failure.value.className in caught ==>
              r.value.WebApp? && r.value.exc.code == DefaultErrorCode
              && r.value.exc.message == MessageOf(failure.value) && r.value.exc.cause == failure
    ensures failure.Some? && !(failure.value.Other? && failure.value.className in caught) ==> r == failure
  {
    match failure
    case Some(Other(name, message)) =>
      if name in caught then Some(WebApp(WithCause(message, failure.value))) else failure
    case _ => failure
  }

  class AbstractController {
    const data: ControllerData

    constructor (data: ControllerData)
      ensures this.data == data
    {
      this.data := data;
    }

    /** redirect(path): endJob first, then the dispatcher's redirect; an
        endJob failure stops it, an IOException from the container becomes
        a WebAppException with the same message and code 500. */
    method Redirect(path: string, endJobFailure: Option<Throwable>, sendFailure: Option<Throwable>)
      returns (t: Trace)
      ensures endJobFailure.Some? ==> t == Trace([EndJob], endJobFailure)
      ensures endJobFailure.None? && sendFailure.None? ==>
                t == Trace([EndJob, SendRedirect(RedirectLocation(path, data.request.contextPath,
                                                                  data.dispatcher.config.isProxy))], None)
      ensures endJobFailure.None? && sendFailure.Some? ==>
                t == Trace([EndJob], Rethrown(sendFailure, {IOExceptionClass}))
    {
      if endJobFailure.Some? {
        return Trace([EndJob], endJobFailure);
      }
      var d := data.dispatcher.RedirectPath(path, data.request, sendFailure);
      t := Trace([EndJob] + d.effects, Rethrown(d.failure, {IOExceptionClass}));
    }

    /** redirect(controller): endJob first, then the dispatcher's redirect to
        the controller's first pattern; an unmapped controller sends
        nothing, and the index failure on an empty pattern list is not an
        IOException, so it passes through. */
    method RedirectTo(controller: ControllerId, endJobFailure: Option<Throwable>, sendFailure: Option<Throwable>)
      returns (t: Trace)
      ensures endJobFailure.Some? ==> t == Trace([EndJob], endJobFailure)
      ensures endJobFailure.None? && FirstMapped(data.dispatcher.routes, controller).None? ==> t == Trace([EndJob], None)
      ensures endJobFailure.None? && FirstMapped(data.dispatcher.routes, controller).Some? ==>
                var route := data.dispatcher.routes[FirstMapped(data.dispatcher.routes, controller).value];
                && (route.patterns == [] ==> t == Trace([EndJob], Some(NoPattern)))
                && (route.patterns != [] && sendFailure.None? ==>
                      t == Trace([EndJob, SendRedirect(RedirectLocation(route.patterns[0], data.request.contextPath,
                                                                        data.dispatcher.config.isProxy))], None))
                && (route.patterns != [] && sendFailure.Some? ==>
                      t == Trace([EndJob], Rethrown(sendFailure, {IOExceptionClass})))
    {
      if endJobFailure.Some? {
        return Trace([EndJob], endJobFailure);
      }
      var d := data.dispatcher.RedirectController(controller, data.request, sendFailure);
      t := Trace([EndJob] + d.effects, Rethrown(d.failure, {IOExceptionClass}));
    }

    /** sendError: endJob, then the status and message, then a forward to
        "/error"; a failure of either container call is rethrown as a
        WebAppException and stops what follows. */
    method SendError(code: int, message: Option<string>, endJobFailure: Option<Throwable>,
                     sendFailure: Option<Throwable>, forwardFailure: Option<Throwable>)
      returns (t: Trace)
      ensures endJobFailure.Some? ==> t == Trace([EndJob], endJobFailure)
      ensures endJobFailure.None? && sendFailure.Some? ==>
                t == Trace([EndJob], Rethrown(sendFailure, {IOExceptionClass, ServletExceptionClass}))
      ensures endJobFailure.None? && sendFailure.None? && forwardFailure.Some? ==>
                t == Trace([EndJob, Effect.SendError(code, message)],
                           Rethrown(forwardFailure, {IOExceptionClass, ServletExceptionClass}))
      ensures endJobFailure.None? && sendFailure.None? && forwardFailure.None? ==>
                t == Trace([EndJob, Effect.SendError(code, message), Forward(ErrorForward)], None)
    {
      if endJobFailure.Some? {
        return Trace([EndJob], endJobFailure);
      }
      var effects := [EndJob];
      if sendFailure.Some? {
        return Trace(effects, Rethrown(sendFailure, {IOExceptionClass, ServletExceptionClass}));
      }
      effects := effects + [Effect.SendError(code, message)];
      if forwardFailure.Some? {
        return Trace(effects, Rethrown(forwardFailure, {IOExceptionClass, ServletExceptionClass}));
      }
      t := Trace(effects + [Forward(ErrorForward)], None);
    }

    /** sendCode: one status change on the response, nothing else and no
        endJob. */
    method SendCode(code: int) returns (t: Trace)
      ensures t.failure.None? && t.effects == [SetStatus(code)]
      ensures CountEndJob(t.effects) == 0
    {
      t := Trace([SetStatus(code)], None);
    }

    /** getParams: the map the dispatcher parsed, null in an error
        controller. */
    function GetParams(): (r: Option<map<string, RequestParam>>)
      ensures r.None? <==> data.params.None?
      ensures r.Some? ==> r.value == data.params.value
    {
      data.params
    }

    /** getParam: a lookup in the parsed map; a missing name gives null, and
        with no map at all (an error controller) the lookup throws. */
    function GetParam(name: string): (r: Result<Option<RequestParam>, Throwable>)
      ensures r.Failure? <==> data.params.None?
      ensures r.Failure? ==> r.error == NullPointer
      ensures r.Success? ==> (r.value.Some? <==> name in data.params.value)
      ensures r.Success? && r.value.Some? ==> r.value.value == data.params.value[name]
    {
      match data.params
      case None => Failure(NullPointer)
      case Some(m) => Success(if name in m then Some(m[name]) else None)
    }

    /** getSingleParam: null for a missing name, otherwise that parameter's
        single value (null unless it has exactly one). */
    function GetSingleParam(name: string): (r: Result<Option<string>, Throwable>)
      reads if data.params.Some? then data.params.value.Values else {}
      ensures r.Failure? <==> data.params.None?
      ensures r.Failure? ==> r.error == NullPointer
      ensures r.Success? && name !in data.params.value ==> r.value == None
      ensures r.Success? && name in data.params.value ==> r.value == data.params.value[name].SingleValue()
      ensures r.Success? && r.value.Some? <==>
                data.params.Some? && name in data.params.value && |data.params.value[name].values| == 1
    {
      match data.params
      case None => Failure(NullPointer)
      case Some(m) => Success(if name in m then m[name].SingleValue() else None)
    }

    /** getTranslations(file, locale): the published LocaleBundle's cached
        lookup; without one it throws IllegalStateException. */
    method GetTranslations(file: string, locale: Locale, load: Loader) returns (r: Result<Bundle, Throwable>)
      modifies if data.dispatcher.localeBundle.Some? then {data.dispatcher.localeBundle.value} else {}
      ensures data.dispatcher.localeBundle.None? ==> r == Failure(NotInitialized)
      ensures data.dispatcher.localeBundle.Some? ==>
                var b := data.dispatcher.localeBundle.value;
                && (old(b.Cached(file, locale)) ==> r == Success(old(b.cache)[locale][file]) && b.cache == old(b.cache))
                && (!old(b.Cached(file, locale)) ==> r == load(b.classRoot, file, locale))
                && (!old(b.Cached(file, locale)) ==>
                      b.cache == old(b.cache)[locale := (if locale in old(b.cache) then old(b.cache)[locale] else map[])
                                                        + (if r.Success? then map[file := r.value] else map[])])
                && (r.Success? ==> b.Cached(file, locale) && b.cache[locale][file] == r.value)
    {
      if data.dispatcher.localeBundle.None? {
        return Failure(NotInitialized);
      }
      r := data.dispatcher.localeBundle.value.GetTranslations(file, locale, load);
    }

    /** getTranslations(file): the same lookup in the locale resolved for
        this request. */
    method GetTranslationsOf(file: string, load: Loader) returns (r: Result<Bundle, Throwable>)
      modifies if data.dispatcher.localeBundle.Some? then {data.dispatcher.localeBundle.value} else {}
      ensures data.dispatcher.localeBundle.None? ==> r == Failure(NotInitialized)
      ensures data.dispatcher.localeBundle.Some? ==>
                var b := data.dispatcher.localeBundle.value;
                && (old(b.Cached(file, data.locale)) ==> r == Success(old(b.cache)[data.locale][file]) && b.cache == old(b.cache))
                && (!old(b.Cached(file, data.locale)) ==> r == load(b.classRoot, file, data.locale))
                && (!old(b.Cached(file, data.locale)) ==>
                      b.cache == old(b.cache)[data.locale := (if data.locale in old(b.cache) then old(b.cache)[data.locale] else map[])
                                                             + (if r.Success? then map[file := r.value] else map[])])
    {
      r := GetTranslations(file, data.locale, load);
    }
  }

  /** A controller that redirects from doJob ends its job twice: once in
      the redirect, once in the lifecycle's finally. */
  lemma RedirectEndsJobTwice(run: ControllerRun, jspDir: string, resourceExists: string -> bool,
                             before: seq<Effect>, location: string, after: seq<Effect>)
    requires run.construct.None?
    requires run.jobEffects == before + [EndJob, SendRedirect(location)] + after
    requires CountEndJob(before) == 0 && CountEndJob(after) == 0
    ensures CountEndJob(Dispatched(run, jspDir, resourceExists).effects) == 2
  {
    OneEndJob(before, location, after);
    EndJobOnce(run, jspDir, resourceExists);
  }

  /** The redirect's own effects hold the only EndJob of a job that ends no
      job elsewhere. */
  lemma OneEndJob(before: seq<Effect>, location: string, after: seq<Effect>)
    requires CountEndJob(before) == 0 && CountEndJob(after) == 0
    ensures CountEndJob(before + [EndJob, SendRedirect(location)] + after) == 1
  {
    var redirect := [EndJob, SendRedirect(location)];
    assert CountEndJob(redirect) == 1 by {
      assert redirect[..1] == [EndJob];
      assert [EndJob][..0] == [];
    }
    CountEndJobAppend(before, redirect);
    CountEndJobAppend(before + redirect, after);
  }

  /** In a controller the dispatcher found, getSingleParam returns the
      request parameter's decoded value exactly when the request carried
      exactly one value under that name. */
  lemma SingleParamOfRequest(c: AbstractController, request: Request, decode: Decoder, name: string)
    requires c.data.params.Some?
    requires c.data.params.value.Keys == BuildParams(request, decode).Keys
    requires forall k :: k in c.data.params.value ==> c.data.params.value[k].values == BuildParams(request, decode)[k].values
    ensures name !in BuildParams(request, decode) ==> c.GetSingleParam(name) == Success(None)
    ensures name in BuildParams(request, decode) ==>
              var vs := BuildParams(request, decode)[name].values;
              c.GetSingleParam(name) == Success(if |vs| == 1 then Some(vs[0]) else None)
  {
    if name in BuildParams(request, decode) {
      assert name in c.data.params.value;
      var p := c.data.params.value[name];
      assert p.values == BuildParams(request, decode)[name].values;
    }
  }
}
