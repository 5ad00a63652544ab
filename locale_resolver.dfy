/** HeaderAndCookieLocaleResolver
    (src/jss/webframework/HeaderAndCookieLocaleResolver.java): a cookie
    first, then the Accept-Language header against the supported locales,
    then the default locale, then the request's own locale. Only languages
    are compared, never countries. */
module LocaleResolution {

  import opened Wrappers
  import opened Text
  import opened Http

  /** `new Locale(language)`: Java lower-cases the language and leaves the
      country empty. */
  function LocaleOf(language: string): (l: Locale)
    ensures l.country == "" && |l.language| == |language|
    ensures forall i :: 0 <= i < |language| ==> l.language[i] == LowerChar(language[i])
  {
    Locale(ToLower(language), "")
  }

  /** Two locales have the same language, ignoring case. */
  predicate SameLanguage(a: Locale, b: Locale)
  {
    EqualsIgnoreCase(a.language, b.language)
  }

  /** The language a cookie named `cookieName` carries: the value of the
      first cookie with exactly that name, cut to at most two characters. */
  function CookieLanguage(cookieName: string, cookies: Option<seq<Cookie>>): (r: Option<string>)
    ensures r.Some? <==> cookies.Some? && exists i :: 0 <= i < |cookies.value| && cookies.value[i].name == cookieName
    ensures r.Some? ==> |r.value| <= 2
    ensures r.Some? ==> exists i :: FirstNamed(cookies.value, cookieName, i) && r.value == Truncated(cookies.value[i].value)
  {
    if cookies.None? then None else FirstValue(cookies.value, cookieName)
  }

  /** Cookie i is the first one named `name`. */
  predicate FirstNamed(cookies: seq<Cookie>, name: string, i: int)
  {
    0 <= i < |cookies| && cookies[i].name == name && forall j :: 0 <= j < i ==> cookies[j].name != name
  }

  /** `if (value.length() > 2) value = value.substring(0, 2)`. */
  function Truncated(value: string): (r: string)
    ensures |r| <= 2 && |r| <= |value| && r == value[..|r|]
    ensures |value| <= 2 ==> r == value
    ensures |value| > 2 ==> r == value[..2]
  {
    if |value| > 2 then value[..2] else value
  }

  function FirstValue(cookies: seq<Cookie>, name: string): (r: Option<string>)
    ensures r.Some? <==> exists i :: 0 <= i < |cookies| && cookies[i].name == name
    ensures r.Some? ==> exists i :: FirstNamed(cookies, name, i) && r.value == Truncated(cookies[i].value)
    decreases |cookies|
  {
    if cookies == [] then None
    else if cookies[0].name == name then
      assert FirstNamed(cookies, name, 0);
      Some(Truncated(cookies[0].value))
    else
      var r := FirstValue(cookies[1..], name);
      if r.Some? then
        var i :| FirstNamed(cookies[1..], name, i) && r.value == Truncated(cookies[1..][i].value);
        assert FirstNamed(cookies, name, i + 1);
        r
      else
        assert forall i :: 0 < i < |cookies| ==> cookies[i] == cookies[1..][i - 1];
        r
  }

  /** What getLocaleByHttpHeader may answer: nothing without an
      Accept-Language header; the request's locale when no locale is
      supported or it is itself supported; otherwise a supported locale
      whose language matches the first browser locale, in preference order,
      that matches any, or nothing when none matches. Which of several
      supported locales of that language is an artifact of set order. */
  ghost predicate HeaderLocale(supported: set<Locale>, request: Request, r: Option<Locale>)
  {
    if request.acceptLanguage.None? then r.None?
    else if supported == {} || request.locale in supported then r == Some(request.locale)
    else
      && (r.None? <==> forall i, s :: 0 <= i < |request.locales| && s in supported ==> !SameLanguage(request.locales[i], s))
      && (r.Some? ==> r.value in supported && exists i :: FirstMatching(request.locales, supported, i)
                                                       && SameLanguage(request.locales[i], r.value))
  }

  /** Browser locale i is the first one some supported locale matches. */
  ghost predicate FirstMatching(locales: seq<Locale>, supported: set<Locale>, i: int)
  {
    && 0 <= i < |locales|
    && (exists s :: s in supported && SameLanguage(locales[i], s))
    && forall j, s :: 0 <= j < i && s in supported ==> !SameLanguage(locales[j], s)
  }

  /** What resolveLocale may answer. */
  ghost predicate Resolved(cookieName: string, supported: set<Locale>, defaultLocale: Option<Locale>,
                           request: Request, l: Locale)
  {
    match CookieLanguage(cookieName, request.cookies)
    case Some(language) => l == LocaleOf(language)
    case None =>
      exists h :: HeaderLocale(supported, request, h)
                  && l == if h.Some? then h.value else defaultLocale.GetOr(request.locale)
  }

  class HeaderAndCookieLocaleResolver {
    var supportedLocales: set<Locale>
    const cookieName: string
    var defaultLocale: Option<Locale>

    constructor (cookieName: string)
      ensures this.cookieName == cookieName && supportedLocales == {} && defaultLocale == None
    {
      this.cookieName := cookieName;
      supportedLocales := {};
      defaultLocale := None;
    }

    /** The two constructors that take supported locales (as a collection
        or as an array) and a default locale. */
    constructor WithLocales(cookieName: string, supported: seq<Locale>, defaultLocale: Option<Locale>)
      ensures this.cookieName == cookieName && this.defaultLocale == defaultLocale
      ensures supportedLocales == set l | l in supported
    {
      this.cookieName := cookieName;
      this.defaultLocale := defaultLocale;
      supportedLocales := {};
      new;
      AddLocales(supported);
    }

    method SetDefaultLocale(l: Option<Locale>)
      modifies this`defaultLocale
      ensures defaultLocale == l
    {
      defaultLocale := l;
    }

    method AddLocale(l: Locale)
      modifies this`supportedLocales
      ensures supportedLocales == old(supportedLocales) + {l}
    {
      supportedLocales := supportedLocales + {l};
    }

    /** addLocales: only ever adds. */
    method AddLocales(ls: seq<Locale>)
      modifies this`supportedLocales
      ensures supportedLocales == old(supportedLocales) + set l | l in ls
    {
      for i := 0 to |ls|
        invariant supportedLocales == old(supportedLocales) + set l | l in ls[..i]
      {
        assert ls[..i + 1] == ls[..i] + [ls[i]];
        supportedLocales := supportedLocales + {ls[i]};
      }
      assert ls[..|ls|] == ls;
    }

    /** resolveLocale. */
    method ResolveLocale(request: Request) returns (l: Locale)
      ensures Resolved(cookieName, supportedLocales, defaultLocale, request, l)
    {
      var locale := defaultLocale;
      var byCookie := GetLangByCookie(request);
      ghost var h: Option<Locale> := None;
      if byCookie.Some? {
        locale := Some(LocaleOf(byCookie.value));
      } else {
        var headerLocale := GetLocaleByHttpHeader(request);
        h := headerLocale;
        if headerLocale.Some? {
          locale := headerLocale;
        }
      }
      if locale.None? {
        locale := Some(request.locale);
      }
      l := locale.value;
      assert byCookie.None? ==> HeaderLocale(supportedLocales, request, h);
    }

    /** getLangByCookie: a scan with early return. */
    method GetLangByCookie(request: Request) returns (r: Option<string>)
      ensures r == CookieLanguage(cookieName, request.cookies)
    {
      if request.cookies.Some? {
        var cookies := request.cookies.value;
        var i := 0;
        while i < |cookies|
          invariant 0 <= i <= |cookies|
          invariant forall j :: 0 <= j < i ==> cookies[j].name != cookieName
        {
          if cookies[i].name == cookieName {
            var value := cookies[i].value;
            if |value| > 2 {
              value := value[..2];
            }
            assert FirstNamed(cookies, cookieName, i);
            ghost var w := CookieLanguage(cookieName, request.cookies);
            ghost var k :| FirstNamed(cookies, cookieName, k) && w.value == Truncated(cookies[k].value);
            assert k == i;
            return Some(value);
          }
          i := i + 1;
        }
      }
      return None;
    }

    /** getLocaleByHttpHeader: browser locales in preference order, each
        against every supported locale. */
    method GetLocaleByHttpHeader(request: Request) returns (r: Option<Locale>)
      ensures HeaderLocale(supportedLocales, request, r)
    {
      if request.acceptLanguage.None? {
        return None;
      }
      if supportedLocales == {} || request.locale in supportedLocales {
        return Some(request.locale);
      }
      var locales := request.locales;
      var i := 0;
      while i < |locales|
        invariant 0 <= i <= |locales|
        invariant forall j, s :: 0 <= j < i && s in supportedLocales ==> !SameLanguage(locales[j], s)
      {
        var l := locales[i];
        var rest := supportedLocales;
        while rest != {}
          invariant rest <= supportedLocales
          invariant forall s :: s in supportedLocales - rest ==> !SameLanguage(l, s)
          decreases rest
        {
          var supported :| supported in rest;
          if SameLanguage(l, supported) {
            assert FirstMatching(locales, supportedLocales, i);
            return Some(supported);
          }
          rest := rest - {supported};
        }
        i := i + 1;
      }
      return None;
    }
  }
}
