/** WebAppConfig (src/jss/webframework/WebAppConfig.java): the settings an
    application supplies at start-up and the dispatcher reads on every
    request. */
module Config {

  import opened Wrappers
  import opened LocaleResolution

  /** The name of Tomcat's default servlet. */
  const DefaultServletTomcat: string := "org.apache.catalina.servlets.DefaultServlet"

  class WebAppConfig {
    var localeResolver: Option<HeaderAndCookieLocaleResolver>
    var langDir: Option<string>
    var jspDir: string
    var scanPackage: Option<string>
    var errorPath: string
    var addErrorCause: bool
    var defErrorShowStackTrace: bool
    var isProxy: bool
    var ownProperties: Option<map<string, string>>

    /** The field initialisers: JSPs under "/", errors under "/error",
        every flag off, everything else unset. */
    constructor ()
      ensures localeResolver == None && langDir == None && scanPackage == None && ownProperties == None
      ensures jspDir == "/" && errorPath == "/error"
      ensures !addErrorCause && !defErrorShowStackTrace && !isProxy
    {
      localeResolver := None;
      langDir := None;
      jspDir := "/";
      scanPackage := None;
      errorPath := "/error";
      addErrorCause := false;
      defErrorShowStackTrace := false;
      isProxy := false;
      ownProperties := None;
    }

    method SetLocaleResolver(v: Option<HeaderAndCookieLocaleResolver>)
      modifies this`localeResolver
      ensures localeResolver == v
    {
      localeResolver := v;
    }

    method SetLangDir(v: Option<string>)
      modifies this`langDir
      ensures langDir == v
    {
      langDir := v;
    }

    method SetJspDir(v: string)
      modifies this`jspDir
      ensures jspDir == v
    {
      jspDir := v;
    }

    method SetScanPackage(v: Option<string>)
      modifies this`scanPackage
      ensures scanPackage == v
    {
      scanPackage := v;
    }

    method SetErrorPath(v: string)
      modifies this`errorPath
      ensures errorPath == v
    {
      errorPath := v;
    }

    method SetAddErrorCause(v: bool)
      modifies this`addErrorCause
      ensures addErrorCause == v
    {
      addErrorCause := v;
    }

    method SetDefErrorShowStackTrace(v: bool)
      modifies this`defErrorShowStackTrace
      ensures defErrorShowStackTrace == v
    {
      defErrorShowStackTrace := v;
    }

    method SetProxy(v: bool)
      modifies this`isProxy
      ensures isProxy == v
    {
      isProxy := v;
    }

    method SetOwnProperties(v: Option<map<string, string>>)
      modifies this`ownProperties
      ensures ownProperties == v
    {
      ownProperties := v;
    }
  }
}
