/** LocaleBundle (src/jss/webframework/LocaleBundle.java): translation
    bundles loaded through a class loader rooted at the translations
    directory, cached per locale and per file name. */
module Translations {

  import opened Wrappers
  import opened Text
  import opened Http
  import opened Exceptions

  /** The contents of one loaded resource bundle. */
  type Bundle = map<string, string>

  /** A loader: class-loader root, base name and locale to the bundle, or
      the exception ResourceBundle.getBundle throws (a missing bundle, an
      unreadable file). The JDK's search is not part of this model. */
  type Loader = (string, string, Locale) -> Result<Bundle, Throwable>

  /** The bundle-search control's fallback locale: null arguments are
      refused, and otherwise there is no fallback, so the JVM's default
      locale is never consulted. */
  function FallbackLocale(baseName: Option<string>, locale: Option<Locale>): (r: Result<Option<Locale>, Throwable>)
    ensures r.Failure? <==> baseName.None? || locale.None?
    ensures r.Failure? ==> r.error == NullPointer
    ensures r.Success? ==> r.value.None?
  {
    if baseName.None? || locale.None? then Failure(NullPointer) else Success(None)
  }

  class LocaleBundle {
    /** The real path of the translations directory: the class loader's
        only root. */
    const classRoot: string
    var cache: map<Locale, map<string, Bundle>>

    /** A bundle over an already resolved class-loader root, with an empty
        cache. */
    constructor (classRoot: string)
      ensures this.classRoot == classRoot
      ensures cache == map[]
    {
      this.classRoot := classRoot;
      cache := map[];
    }

    /** Whether a bundle for this locale and file is cached. */
    predicate Cached(file: string, locale: Locale)
      reads this
    {
      locale in cache && file in cache[locale]
    }

    /** getTranslations: get-or-load. A locale seen for the first time gets
        an empty inner map even when loading then fails. */
    method GetTranslations(file: string, locale: Locale, load: Loader) returns (r: Result<Bundle, Throwable>)
      modifies this`cache
      ensures old(Cached(file, locale)) ==> r == Success(old(cache)[locale][file]) && cache == old(cache)
      ensures !old(Cached(file, locale)) ==> r == load(classRoot, file, locale)
      ensures !old(Cached(file, locale)) ==>
                cache == old(cache)[locale := (if locale in old(cache) then old(cache)[locale] else map[])
                                              + (if r.Success? then map[file := r.value] else map[])]
    {
      var files: map<string, Bundle>;
      if locale in cache {
        files := cache[locale];
      } else {
        files := map[];
        cache := cache[locale := files];
      }
      if file in files {
        return Success(files[file]);
      }
      r := load(classRoot, file, locale);
      if r.Success? {
        assert files[file := r.value] == files + map[file := r.value];
        files := files[file := r.value];
        cache := cache[locale := files];
      } else {
        assert files + map[] == files;
        assert cache == cache[locale := files];
      }
    }
  }

  /** `new LocaleBundle(dir, ctx)`: the directory gets a trailing separator
      before it is resolved through the servlet context; a directory with
      no real path makes `new File(null)` throw, and no bundle exists. */
  method NewLocaleBundle(dir: string, realPath: string -> Option<string>) returns (r: Result<LocaleBundle, Throwable>)
    ensures r.Failure? <==> realPath(WithTrailing(dir, Separator)).None?
    ensures r.Failure? ==> r.error == NullPointer
    ensures r.Success? ==> fresh(r.value) && r.value.cache == map[]
                           && r.value.classRoot == realPath(WithTrailing(dir, Separator)).value
  {
    var path := dir;
    if !EndsWith(path, Separator) {
      path := path + Separator;
    }
    var root := realPath(path);
    if root.None? {
      return Failure(NullPointer);
    }
    var b := new LocaleBundle(root.value);
    r := Success(b);
  }

  /** Once a bundle is loaded, asking again returns the same bundle and
      does not load. */
  method SecondLookupHits(b: LocaleBundle, file: string, locale: Locale, load: Loader)
    returns (first: Result<Bundle, Throwable>, second: Result<Bundle, Throwable>)
    modifies b
    ensures first.Success? ==> second == first
    ensures first.Success? ==> locale in b.cache && b.cache == old(b.cache)[locale := b.cache[locale]]
  {
    first := b.GetTranslations(file, locale, load);
    second := b.GetTranslations(file, locale, load);
  }
}
