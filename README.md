# JSSWebFramework request-dispatch core in Dafny

This project models the request-dispatch core of JSSWebFramework, a small Java
servlet framework, and proves properties of that model. The core covers:

- the dispatcher servlet: it picks a controller by the longest
  case-insensitive path prefix, or picks an error controller for error
  dispatches, and turns a controller failure into an error response;
- the parameter-map builder over multipart parts and the flat parameter map;
- the request-parameter record and its save-once uploaded file;
- the controller lifecycle (construct, `doJob`, render the view, `endJob` in
  `finally`) and the base controller's redirect, error and lookup helpers;
- the header-and-cookie locale resolver;
- the translation cache;
- the exception, view and configuration records.

Nothing in the container is computed by the core, so the container is modelled
in two ways:

- The response is a `Trace`: the ordered list of `Effect`s the core issues
  (content type, status, include, forward, body writes, `sendError`,
  attributes, `sendRedirect`, the controller's `endJob`, the built-in error
  page), plus the throwable that escaped, if any.
- Calls into the container and the Java library are parameters:
  - URL decoding is `decode`;
  - file copying is `copy`;
  - real-path lookup is `realPath`;
  - resource-bundle loading is `load`;
  - `ServletContext.getResource` is `resourceExists`;
  - what a controller's constructor, `doJob` and `endJob` do or throw is a
    `ControllerRun`, and what a container call throws is an
    `Option<Throwable>` argument.

Java `null` is `Option.None`, and a thrown exception is a `Result.Failure`
or the failure of a `Trace`.

Route tables are sequences whose order stands in for the scan order of the
source's `HashMap`. Every result about "the later entry wins" is relative to
that order.

Files:

- `wrappers.dfy`, `text.dfy`, `exceptions.dfy`, `http.dfy`: the
  vocabulary.
- `routes.dfy`: the route-selection specification.
- `dispatcher.dfy`: `DispatcherServlet`.
- `params.dfy`: `RequestParam` and `FileInfo`.
- `parameters.dfy`: `processParameters`.
- `lifecycle.dfy`: `dispatchToController`.
- `controller.dfy`: `AbstractController`.
- `locale_resolver.dfy`, `translations.dfy`, `view.dfy`, `config.dfy`.

The imperative parts of the source are classes and methods with loops:

- the two route scans;
- the parameter-map builder;
- the locale resolver's searches;
- the translation cache;
- the mutable records.

Each is proved against a specification function, and the properties are
proved about that function.

The `RequestParam` constructor URL-decodes every value it is given
(`src/jss/webframework/RequestParam.java:45`), so in the model every
multipart text value, and every flat parameter value, is decoded exactly
once.

## Model

| member | source | states |
|---|---|---|
| Text.StripTrailingSlash | src/jss/webframework/DispatcherServlet.java:104-107 | exactly one trailing slash is removed, and only when present |
| Text.WithTrailing | src/jss/webframework/RequestParam.java:246-248 | the directory ends with the separator afterwards, and is unchanged if it already did |
| Text.WithLeadingSlash | src/jss/webframework/DispatcherServlet.java:195-197 | the path starts with "/" afterwards, and is unchanged if it already did |
| Exceptions.WithCause | src/jss/webframework/WebAppException.java:15-18 | the `(message, cause)` constructor gives code 500, the given message and the cause |
| Exceptions.OfMessage | src/jss/webframework/WebAppException.java:20-23 | the `(message)` constructor gives code 500 and no cause |
| Exceptions.WithCodeAndCause | src/jss/webframework/WebAppException.java:25-28 | the `(message, code, cause)` constructor keeps exactly the given code |
| Exceptions.WithCode | src/jss/webframework/WebAppException.java:36-39 | the `(message, code)` constructor keeps exactly the given code and has no cause |
| Exceptions.MessageOf | src/jss/webframework/DispatcherServlet.java:135-136 | `getMessage` of a reflective InvocationTargetException is null |
| Exceptions.Unwrap | src/jss/webframework/DispatcherServlet.java:120-122 | exactly one level of InvocationTargetException is removed |
| Http.CountEndJobAppend | src/jss/webframework/FrameworkUtils.java:150-154 | the number of `endJob` calls of two consecutive effect lists adds up |
| Routes.PathRoute | src/jss/webframework/Path.java:20 | a `@Path` entry without `redirectAfterPath` does not redirect sub-paths |
| Routes.PathErrorRoute | src/jss/webframework/PathError.java:20-25 | a `@PathError` entry defaults to no patterns and not default |
| Routes.PatternSlots | src/jss/webframework/DispatcherServlet.java:231-234 | each pattern of an entry is scanned once, in order, with one trailing slash removed |
| Routes.ErrorSlots | src/jss/webframework/DispatcherServlet.java:278-284 | the error scan only ever sees patterns of non-default entries |
| Routes.WinnerUnique | src/jss/webframework/DispatcherServlet.java:236-245 | the longest candidate, the later one among equals, is unique |
| Routes.SelectSpec | src/jss/webframework/DispatcherServlet.java:223-248 | the scan selects nothing iff no pattern is a case-insensitive character prefix of the path, otherwise the longest candidate, the later one on equal length (`>=`) |
| Routes.WinnerIsSelected | src/jss/webframework/DispatcherServlet.java:236-245 | whichever slot is the winner is the one the scan returns |
| Routes.Resolve | src/jss/webframework/DispatcherServlet.java:223-260 | findController: null with no candidate; otherwise the winner's controller, unless the winner does not redirect sub-paths and its pattern is shorter than the path |
| Routes.RouteSlotsCover | src/jss/webframework/DispatcherServlet.java:228-234 | every pattern of every entry, and nothing else, is scanned |
| Routes.DefaultOfSpec | src/jss/webframework/DispatcherServlet.java:278-279 | the fallback is null iff there is no default entry, and otherwise the last default entry scanned |
| Routes.ResolveError | src/jss/webframework/DispatcherServlet.java:269-305 | findErrorController: the longest non-default candidate with no redirect check, else the last default entry |
| Routes.DefaultPatternsIgnored | src/jss/webframework/DispatcherServlet.java:278-281 | the patterns of default error entries never affect the result |
| Routes.SameErrorScan | src/jss/webframework/DispatcherServlet.java:275-297 | two error tables that agree on non-default patterns and default order select alike |
| Servlet.RedirectLocation | src/jss/webframework/DispatcherServlet.java:194-205 | the location ends with the path and starts with "/" behind a proxy, otherwise with the context path and "/"; its length is exactly the path with one leading slash, plus the context path when not behind a proxy |
| Servlet.LeadingSlashOnce | src/jss/webframework/DispatcherServlet.java:195-197 | writing the leading slash yourself gives the same location iff the path lacked one; a slash is added only when missing, never a second |
| Servlet.FirstMapped | src/jss/webframework/DispatcherServlet.java:185-190 | the first entry in scan order mapped to the controller, or none iff none is |
| Servlet.FailureEffects | src/jss/webframework/DispatcherServlet.java:118-143 | after one unwrap: a WebAppException gives its own code and message, anything else gives 500 "Internal server error! " plus its message; the exception and code attributes appear only with addErrorCause; the error path is always included last |
| Servlet.UnwrapOnce | src/jss/webframework/DispatcherServlet.java:120-136 | a wrapped failure is answered as the bare one, and a doubly wrapped one as 500 "Internal server error! null" |
| Servlet.Handled | src/jss/webframework/DispatcherServlet.java:111-143 | a controller run's effects come first; on failure they are followed by exactly the `FailureEffects` of that failure, ending with the include of the error path |
| Servlet.RequestTrace | src/jss/webframework/DispatcherServlet.java:94-149 | processRequest throws nothing beyond what the container calls throw (assumed none); with no controller the answer is exactly `sendError(404, "Not found!")` then the include of the error path |
| Servlet.FoundRequestShape | src/jss/webframework/DispatcherServlet.java:111-143 | a found and constructed controller's job effects come first; the response ends with its `endJob` if it succeeded and with the error include if it failed |
| Servlet.DefaultError | src/jss/webframework/DispatcherServlet.java:317-335 | the built-in page is HTML; its code is the exception-code attribute, else the container's status; the stack trace appears iff configured and an exception is present |
| Servlet.DefaultErrorNoEndJob | src/jss/webframework/DispatcherServlet.java:174-177 | the built-in error page never calls `endJob` |
| Servlet.ErrorUnconstructed | src/jss/webframework/DispatcherServlet.java:168-175 | an error controller that is found but whose construction throws leaves exactly the built-in page |
| Servlet.ErrorEndJobOnce | src/jss/webframework/DispatcherServlet.java:168-175 | a found and constructed error controller's job effects come first, and the answer has exactly one `endJob` more than the job itself wrote, whether or not the built-in page follows |
| Servlet.ErrorTrace | src/jss/webframework/DispatcherServlet.java:159-179 | processError throws nothing beyond what the container calls throw (assumed none); with no error controller the answer is the built-in page; with one, the answer is that controller's run, followed by the built-in page only if the run failed |
| Servlet.ErrorPathOf | src/jss/webframework/DispatcherServlet.java:72-76 | the error path is the forward servlet path, or failing that the include one; it is present iff either is |
| Servlet.FirstMappedAt | src/jss/webframework/DispatcherServlet.java:185-190 | the entry where the scan first meets the controller is the first mapped one |
| Servlet.DispatcherServlet.constructor | src/jss/webframework/DispatcherServlet.java:35-60 | what init leaves: the route tables, the configuration and the translations |
| Servlet.DispatcherServlet.OnRequest | src/jss/webframework/DispatcherServlet.java:69-83 | the error branch iff a forward or include servlet path is set; error controllers get no parameters and the plain request locale |
| Servlet.DispatcherServlet.ProcessRequest | src/jss/webframework/DispatcherServlet.java:94-149 | the answer is `RequestTrace`; parameters are built, and match the parameter specification, only when a controller was found; the locale is the resolver's when one is configured, else the request's |
| Servlet.DispatcherServlet.RequestLocale | src/jss/webframework/DispatcherServlet.java:97-101 | the configured resolver decides the locale, else the request's locale is used |
| Servlet.DispatcherServlet.Respond | src/jss/webframework/DispatcherServlet.java:116-143 | the found controller runs, and whatever it throws is handled as `FailureEffects` says |
| Servlet.DispatcherServlet.ProcessError | src/jss/webframework/DispatcherServlet.java:159-179 | the answer is `ErrorTrace`; the error controller gets null parameters and the request's own locale |
| Servlet.DispatcherServlet.RedirectPath | src/jss/webframework/DispatcherServlet.java:194-205 | one `sendRedirect` to `RedirectLocation`, or what the container threw |
| Servlet.DispatcherServlet.RedirectController | src/jss/webframework/DispatcherServlet.java:182-192 | nothing when no entry maps the controller; otherwise a redirect to pattern [0] of the first such entry, failing on the index when it has none |
| Servlet.DispatcherServlet.FindController | src/jss/webframework/DispatcherServlet.java:223-260 | the nested scan returns exactly `Resolve` of the route table |
| Servlet.DispatcherServlet.ScanRoute | src/jss/webframework/DispatcherServlet.java:231-247 | the scan of one entry's patterns keeps the best candidate of everything scanned so far |
| Servlet.DispatcherServlet.ConsiderPattern | src/jss/webframework/DispatcherServlet.java:236-245 | a pattern replaces the best match exactly when it is a case-insensitive prefix of the path at least as long as the best so far; otherwise nothing changes |
| Servlet.DispatcherServlet.FindErrorController | src/jss/webframework/DispatcherServlet.java:269-305 | the nested scan returns exactly `ResolveError` of the error table |
| Servlet.DispatcherServlet.ScanErrorRoute | src/jss/webframework/DispatcherServlet.java:281-296 | the scan of one non-default entry's patterns keeps the best candidate so far |
| LocaleResolution.LocaleOf | src/jss/webframework/HeaderAndCookieLocaleResolver.java:61 | `new Locale(lang)` lower-cases the language and has no country |
| LocaleResolution.CookieLanguage | src/jss/webframework/HeaderAndCookieLocaleResolver.java:81-98 | a value iff a cookie has exactly the configured name; it is the first such cookie's value cut to at most two characters |
| LocaleResolution.Truncated | src/jss/webframework/HeaderAndCookieLocaleResolver.java:87-90 | exactly the first two characters of a longer value, the whole value when it is short |
| LocaleResolution.FirstValue | src/jss/webframework/HeaderAndCookieLocaleResolver.java:84-95 | the first cookie with the name, cut, or none iff no cookie has it |
| LocaleResolution.HeaderAndCookieLocaleResolver.constructor | src/jss/webframework/HeaderAndCookieLocaleResolver.java:22-24 | no supported locales and no default |
| LocaleResolution.HeaderAndCookieLocaleResolver.WithLocales | src/jss/webframework/HeaderAndCookieLocaleResolver.java:26-36 | the supported set is exactly the given locales, and the default is the given one |
| LocaleResolution.HeaderAndCookieLocaleResolver.SetDefaultLocale | src/jss/webframework/HeaderAndCookieLocaleResolver.java:38-40 | the default becomes the given locale |
| LocaleResolution.HeaderAndCookieLocaleResolver.AddLocale | src/jss/webframework/HeaderAndCookieLocaleResolver.java:42-44 | the supported set only grows, by the given locale |
| LocaleResolution.HeaderAndCookieLocaleResolver.AddLocales | src/jss/webframework/HeaderAndCookieLocaleResolver.java:46-53 | the supported set only grows, by exactly the given locales |
| LocaleResolution.HeaderAndCookieLocaleResolver.ResolveLocale | src/jss/webframework/HeaderAndCookieLocaleResolver.java:56-76 | the priority rule: a cookie language (header never consulted), else the header's locale, else the default, else the request's locale |
| LocaleResolution.HeaderAndCookieLocaleResolver.GetLangByCookie | src/jss/webframework/HeaderAndCookieLocaleResolver.java:81-98 | the loop returns exactly `CookieLanguage` |
| LocaleResolution.HeaderAndCookieLocaleResolver.GetLocaleByHttpHeader | src/jss/webframework/HeaderAndCookieLocaleResolver.java:103-127 | no header gives none; an empty supported set or a supported request locale gives the request locale; otherwise a supported locale whose language matches, ignoring case, the first browser locale with any match, or none |
| Views.AbstractView.constructor | src/jss/webframework/AbstractView.java:9-20 | the kind is fixed and every other field starts null |
| Views.AbstractView.SetCode | src/jss/webframework/AbstractView.java:32-34 | the code reads back as set and nothing else changes |
| Views.AbstractView.SetContentType | src/jss/webframework/AbstractView.java:46-48 | the content type reads back as set and nothing else changes |
| Views.AbstractView.SetJspFile | src/jss/webframework/AbstractView.java:60-62 | the JSP file reads back as set and nothing else changes |
| Views.AbstractView.SetJspPrependFile | src/jss/webframework/AbstractView.java:74-76 | the prepend file reads back as set and nothing else changes |
| Views.AbstractView.SetJspAppendFile | src/jss/webframework/AbstractView.java:88-90 | the append file reads back as set and nothing else changes |
| Views.AbstractView.SetContent | src/jss/webframework/AbstractView.java:102-104 | the text content reads back as set and nothing else changes |
| Views.AbstractView.SetContentBytes | src/jss/webframework/AbstractView.java:116-118 | the byte content reads back as set and nothing else changes |
| Config.WebAppConfig.constructor | src/jss/webframework/WebAppConfig.java:13-21 | jspDir "/" and errorPath "/error"; the flags false; the resolver, language dir, scan package and own properties null |
| Config.WebAppConfig.SetLocaleResolver | src/jss/webframework/WebAppConfig.java:30-32 | the resolver reads back as set and nothing else changes |
| Config.WebAppConfig.SetLangDir | src/jss/webframework/WebAppConfig.java:41-43 | the language dir reads back as set and nothing else changes |
| Config.WebAppConfig.SetJspDir | src/jss/webframework/WebAppConfig.java:52-54 | the JSP dir reads back as set and nothing else changes |
| Config.WebAppConfig.SetScanPackage | src/jss/webframework/WebAppConfig.java:63-65 | the scan package reads back as set and nothing else changes |
| Config.WebAppConfig.SetErrorPath | src/jss/webframework/WebAppConfig.java:74-76 | the error path reads back as set and nothing else changes |
| Config.WebAppConfig.SetAddErrorCause | src/jss/webframework/WebAppConfig.java:85-87 | the flag reads back as set and nothing else changes |
| Config.WebAppConfig.SetDefErrorShowStackTrace | src/jss/webframework/WebAppConfig.java:96-98 | the flag reads back as set and nothing else changes |
| Config.WebAppConfig.SetProxy | src/jss/webframework/WebAppConfig.java:110-112 | `isProxy` reads back as set and nothing else changes |
| Config.WebAppConfig.SetOwnProperties | src/jss/webframework/WebAppConfig.java:121-123 | the properties read back as set and nothing else changes |
| Translations.FallbackLocale | src/jss/webframework/LocaleBundle.java:70-75 | the control never falls back: null, and a NullPointerException iff an argument is null |
| Translations.LocaleBundle.constructor | src/jss/webframework/LocaleBundle.java:35-36 | a bundle over a resolved class root starts with an empty cache |
| Translations.NewLocaleBundle | src/jss/webframework/LocaleBundle.java:28-37 | the class root is the real path of the directory with a separator appended if missing, and the cache starts empty; a directory without a real path gives a NullPointerException and no bundle |
| Translations.LocaleBundle.GetTranslations | src/jss/webframework/LocaleBundle.java:46-59 | a cached (locale, file) is returned without loading and nothing changes; otherwise the loader's result is returned, the locale's inner map is created, and only that file's entry is added, on success |
| Translations.SecondLookupHits | src/jss/webframework/LocaleBundle.java:53-57 | a second lookup of a loaded (locale, file) returns the same bundle, and other locales are untouched |
| Params.DecodeAll | src/jss/webframework/RequestParam.java:43-47 | every value is decoded once, in order |
| Params.Destination | src/jss/webframework/RequestParam.java:266-271 | the target is the directory, a separator if it lacked one, then the file name |
| Params.FileInfo.constructor | src/jss/webframework/RequestParam.java:204-210 | the file record holds what it was given |
| Params.FileInfo.SaveFileInPath | src/jss/webframework/RequestParam.java:261-279 | "File was already saved!" when the part or request is gone; otherwise the copy's outcome; success clears both, failure keeps both |
| Params.FileInfo.SaveFileInsideWebapp | src/jss/webframework/RequestParam.java:241-252 | already saved fails first; the directory gets a separator, its real path is taken, and then it saves as `SaveFileInPath` does |
| Params.SaveOnce | src/jss/webframework/RequestParam.java:261-279 | after a successful save a second save fails with "File was already saved!"; after a failed copy the file can still be saved |
| Params.RequestParam.OfValues | src/jss/webframework/RequestParam.java:39-53 | the stored values are the given ones decoded once, in order; null gives none; no files |
| Params.RequestParam.OfFiles | src/jss/webframework/RequestParam.java:71-73 | the stored files are the given ones, null giving none; no values |
| Params.RequestParam.SingleValue | src/jss/webframework/RequestParam.java:86-92 | a value iff there is exactly one, and then it is that one |
| Params.RequestParam.SingleFile | src/jss/webframework/RequestParam.java:105-111 | a file iff there is exactly one, and then it is that one |
| Params.RequestParam.MultipleValues | src/jss/webframework/RequestParam.java:97-99 | exactly the stored values, in order |
| Params.RequestParam.MultipleFiles | src/jss/webframework/RequestParam.java:116-118 | exactly the stored files, in order |
| Params.HasBySize | src/jss/webframework/RequestParam.java:123-168 | the has* predicates by count: one, more than one, at least one; and `hasSingleValue` iff `getSingleValue` is not null |
| Parameters.ConcatAppend | src/jss/webframework/AbstractServlet.java:187-192 | joining lines distributes over appending lines |
| Parameters.ConcatLength | src/jss/webframework/AbstractServlet.java:187-192 | lines are joined with no separator: the length is the sum of the line lengths |
| Parameters.TextValuesSnoc | src/jss/webframework/AbstractServlet.java:185-200 | a new text part of a name adds one decoded value at the end of that name's values |
| Parameters.UploadsSnoc | src/jss/webframework/AbstractServlet.java:175-184 | a new non-empty upload of a name adds one file at the end of that name's files |
| Parameters.MultipartByName | src/jss/webframework/AbstractServlet.java:166-201 | a name is in the multipart result iff some accepted part carries it; its values are its text parts decoded in order, and its files its non-empty uploads in order |
| Parameters.NoneBefore | src/jss/webframework/AbstractServlet.java:175-200 | a name no part carries has no values and no files |
| Parameters.BuildParamsSpec | src/jss/webframework/AbstractServlet.java:160-217 | keys are exactly the accepted part names plus the flat names; a flat entry replaces the whole entry with its decoded values and no files; otherwise the multipart values and files |
| Parameters.ReadText | src/jss/webframework/AbstractServlet.java:187-192 | the loop joins the part's lines with no separator |
| Parameters.AppendFile | src/jss/webframework/AbstractServlet.java:179-180 | one file is added at the end of an existing name's files, and nothing else changes |
| Parameters.AppendValue | src/jss/webframework/AbstractServlet.java:194-196 | one value is added at the end of an existing name's values, and nothing else changes |
| Parameters.OverlayStep | src/jss/webframework/AbstractServlet.java:207-214 | a flat entry replaces the entry of its name and nothing else |
| Parameters.PutFresh | src/jss/webframework/AbstractServlet.java:181-183 | a fresh parameter under a new name joins the map |
| Parameters.AddPartTo | src/jss/webframework/AbstractServlet.java:171-200 | one part updates the live map exactly as `AddPart` does |
| Parameters.ProcessParts | src/jss/webframework/AbstractServlet.java:166-201 | the multipart loop builds exactly the multipart specification |
| Parameters.PutFlat | src/jss/webframework/AbstractServlet.java:208-213 | one flat entry is put as the overlay specification says |
| Parameters.ApplyFlat | src/jss/webframework/AbstractServlet.java:207-214 | the flat loop applies every flat entry |
| Parameters.ProcessParameters | src/jss/webframework/AbstractServlet.java:160-217 | the built map has exactly the specified keys, and each entry has its name, values and files |
| Lifecycle.Includes | src/jss/webframework/FrameworkUtils.java:120-138 | one include per path, in order |
| Lifecycle.IncludeAllSpec | src/jss/webframework/FrameworkUtils.java:119-138 | all includes happen iff every resource exists; otherwise the ones before the first missing resource, then "JSP file not found!" with code 500 |
| Lifecycle.IncludeAllIncludes | src/jss/webframework/FrameworkUtils.java:119-138 | JSP rendering writes nothing but includes |
| Lifecycle.JspPaths | src/jss/webframework/FrameworkUtils.java:113-139 | prepend, then main, then append, each under the JSP directory; a null main file gives "…null" |
| Lifecycle.Header | src/jss/webframework/FrameworkUtils.java:103-110 | content type first, then status, each only when set |
| Lifecycle.Render | src/jss/webframework/FrameworkUtils.java:102-147 | the header comes first, then only body writes: the JSP includes (as `IncludeAll`), the text, exactly one write of the bytes (a NullPointerException and no write when they are null), or nothing |
| Lifecycle.Dispatched | src/jss/webframework/FrameworkUtils.java:88-155 | a constructor failure gives no effects; otherwise the job's effects, then the render, then `endJob`; a throwing `doJob` gives its effects then `endJob` with no render; an `endJob` failure overrides any other failure |
| Lifecycle.RenderHasNoEndJob | src/jss/webframework/FrameworkUtils.java:102-147 | rendering never calls `endJob` |
| Lifecycle.EndJobOnce | src/jss/webframework/FrameworkUtils.java:150-154 | the lifecycle adds exactly one `endJob` iff construction succeeded |
| Lifecycle.DispatchToController | src/jss/webframework/FrameworkUtils.java:88-155 | the try/finally sequence produces exactly `Dispatched` |
| Lifecycle.RenderView | src/jss/webframework/FrameworkUtils.java:102-147 | the rendering steps produce exactly `Render` |
| Lifecycle.IncludeJsp | src/jss/webframework/FrameworkUtils.java:113-139 | the three guarded includes produce exactly the includes of `JspPaths`, stopping at a missing resource |
| Controllers.Rethrown | src/jss/webframework/AbstractController.java:57-59 | a caught checked exception becomes a WebAppException with its message, code 500 and it as cause; others pass through |
| Controllers.AbstractController.constructor | src/jss/webframework/AbstractController.java:26-28 | the controller keeps its data |
| Controllers.AbstractController.Redirect | src/jss/webframework/AbstractController.java:68-75 | `endJob` first (its failure stops everything), then the dispatcher's redirect; an IOException is rethrown as a WebAppException |
| Controllers.AbstractController.RedirectTo | src/jss/webframework/AbstractController.java:53-60 | `endJob` first, then a redirect to the first pattern of the first entry mapped to the controller, or nothing |
| Controllers.AbstractController.SendError | src/jss/webframework/AbstractController.java:84-92 | `endJob`, then `sendError(code, message)`, then a forward to the literal "/error"; a container failure is rethrown as a WebAppException and stops the rest |
| Controllers.AbstractController.SendCode | src/jss/webframework/AbstractController.java:99-101 | one status change and no `endJob` |
| Controllers.AbstractController.GetParams | src/jss/webframework/AbstractController.java:114-116 | the data's map, null for error controllers |
| Controllers.AbstractController.GetParam | src/jss/webframework/AbstractController.java:124-127 | a plain lookup: null for a missing name, and a NullPointerException without a map |
| Controllers.AbstractController.GetSingleParam | src/jss/webframework/AbstractController.java:137-143 | null for a missing name, otherwise that parameter's single value, which is present iff it has exactly one value |
| Controllers.AbstractController.GetTranslations | src/jss/webframework/AbstractController.java:211-218 | an IllegalStateException without a bundle; otherwise the bundle's cached lookup: a hit returns the cached bundle and leaves the cache unchanged, a miss returns the loader's result, creates the locale's inner map and adds only that file's entry on success |
| Controllers.AbstractController.GetTranslationsOf | src/jss/webframework/AbstractController.java:203-205 | the same lookup, with the same cache contract, in the data's locale |
| Controllers.RedirectEndsJobTwice | src/jss/webframework/AbstractController.java:68-75 | a controller that redirects from `doJob` gets `endJob` twice, once in the redirect and once in the lifecycle's `finally` |
| Controllers.OneEndJob | src/jss/webframework/AbstractController.java:68-70 | the redirect's own effects carry exactly one `endJob` |
| Controllers.SingleParamOfRequest | src/jss/webframework/AbstractController.java:137-143 | in a found controller, `getSingleParam` is the decoded request value iff the request carried exactly one value under that name |

## Left out

- LocaleResolution.LocaleOf: only lower-cases the language. Java's `Locale` constructor also maps the obsolete ISO 639 codes "he", "yi" and "id" to "iw", "ji" and "in" (the mapping runs the other way from JDK 17). A locale also has a variant and a script, which `equals` and so `supportedLocales.contains` compare. Neither is modelled: the mapping depends on the JDK version, and model locales are compared on language and country only.
- Case-insensitive comparison and `toLowerCase` fold ASCII letters only; Java's full Unicode case mapping is not modelled.
- Writer and stream I/O, the HTML text of the built-in error page and `printStackTrace` are not modelled. The page is one `DefaultErrorPage` effect carrying its status and whether a stack trace is shown.
- The reflective `init` scan (`getClasses`, `findClasses`, annotation reading) and `WebFrameworkMainInitializer` are not part of this model. The route tables, configuration and translations are constructor arguments.
- `HashMap` and `HashSet` iteration order is not modelled. Route tables are sequences, and "the later entry wins" holds relative to that order. Among supported locales with the same language, the one chosen is any that matches.
- Two controllers whose `@Path` annotations are equal, or whose `@PathError` annotations are equal (two bare `@PathError(isDefault = true)` controllers, say), share one `HashMap` key in the source (`classes` and `classesErr`), so one of them replaces the other. The model keeps both entries, and "the last default entry" of `DefaultOfSpec` refers to the table as given.
- Concurrency is not modelled: neither the `synchronized` `init` nor the unsynchronized cache in `LocaleBundle`.
- URL decoding is a total function. The `IllegalArgumentException` that `URLDecoder.decode` throws on malformed input is not modelled.
- `getParts` failures, `getConstructor` failures, and exceptions from `processParameters` are not modelled. The source catches these with `Throwable`, and the model has none of them.
- Container calls other than `sendRedirect` are assumed not to throw: `include`, `sendError`, `getWriter` and `getOutputStream` (and the writes made through them) always succeed in the model.
- Lifecycle.IncludeAll: fails only on a missing resource; a JSP whose own include throws (a `ServletException` from a page with a runtime error, `src/jss/webframework/FrameworkUtils.java:125,131,138`) is not modelled, so that failure never reaches the dispatcher's handler.
- Servlet.RequestTrace: always ends without failure; in the source a throwing `sendError` or `include` in the 404 branch (`src/jss/webframework/DispatcherServlet.java:146-147`) or inside the failure handlers propagates out of `processRequest`.
- Servlet.ErrorTrace: always ends without failure; a throwing `sendError`, `include` or writer call while answering the error request is not modelled.
- `MalformedURLException` from `LocaleBundle`'s constructor is not modelled, nor is the class loader it builds.
- A part's body is the list of lines `readLine` yields. Reading itself is not modelled, so neither are its `IOException`s.
- The `LocaleResolver` interface is not modelled. `HeaderAndCookieLocaleResolver` is its only implementation in the core and stands for it.
- `ControllerData`, `Dispatcher`, `ParameterLoader`, `TranslationLoader` and `WebAppInitializer` are interfaces or holders with no behaviour. `ControllerData` is a datatype, and the response it carries is the trace.
- `getRequestData`, `getRequestBinaryData`, `setAttribute`, `getSession`, `getCookies` and `getMethod` of `AbstractController`, and the `doGet`/`doPost`/`doPut`/`doDelete` and `requestProc` plumbing, are not modelled. They are stream reading or pass-through to the container.
- A null `jspDir` or error path is not modelled. The configuration holds strings, so `null` concatenation does not arise there; a null main JSP file does print as "null".
- Controllers.Rethrown: only an exception whose class is exactly `java.io.IOException` or `javax.servlet.ServletException` is caught. Subclasses are not distinguished from other exceptions.
- `File.separator` is taken to be "/".
