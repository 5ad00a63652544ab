/** The few operations of java.lang.String that the framework relies on,
    over strings as sequences of characters. */
module Text {

  import opened Wrappers

  /** Character.toLowerCase restricted to the ASCII letters. */
  function LowerChar(c: char): (r: char)
    ensures 'A' <= c <= 'Z' ==> 'a' <= r <= 'z'
    ensures !('A' <= c <= 'Z') ==> r == c
  {
    if 'A' <= c <= 'Z' then (c as int + 32) as char else c
  }

  /** String.toLowerCase. */
  function ToLower(s: string): (r: string)
    ensures |r| == |s|
    ensures forall i :: 0 <= i < |s| ==> r[i] == LowerChar(s[i])
  {
    if s == [] then [] else [LowerChar(s[0])] + ToLower(s[1..])
  }

  /** String.equalsIgnoreCase: same length and equal character by character
      once both sides are lower-cased. */
  predicate EqualsIgnoreCase(a: string, b: string)
  {
    |a| == |b| && forall i :: 0 <= i < |a| ==> LowerChar(a[i]) == LowerChar(b[i])
  }

  predicate StartsWith(s: string, prefix: string)
  {
    |prefix| <= |s| && s[..|prefix|] == prefix
  }

  predicate EndsWith(s: string, suffix: string)
  {
    |suffix| <= |s| && s[|s| - |suffix|..] == suffix
  }

  /** `s.indexOf(sub) > -1`: `sub` occurs somewhere in `s`. */
  predicate Contains(s: string, sub: string)
    decreases |s|
  {
    StartsWith(s, sub) || (|s| > 0 && Contains(s[1..], sub))
  }

  /** `if (s.endsWith("/")) s = s.substring(0, s.length() - 1)`: drops one
      trailing slash, and only one. */
  function StripTrailingSlash(s: string): (r: string)
    ensures r == s || (r + "/" == s)
    ensures EndsWith(s, "/") <==> |r| == |s| - 1
  {
    if EndsWith(s, "/") then s[..|s| - 1] else s
  }

  /** File.separator of the host platform, taken to be a POSIX one. */
  const Separator: string := "/"

  /** `if (!dir.endsWith(sep)) dir = dir + sep`. */
  function WithTrailing(dir: string, sep: string): (r: string)
    ensures EndsWith(r, sep)
    ensures EndsWith(dir, sep) ==> r == dir
    ensures !EndsWith(dir, sep) ==> r == dir + sep
  {
    if EndsWith(dir, sep) then dir else dir + sep
  }

  /** `if (!path.startsWith("/")) path = "/" + path`. */
  function WithLeadingSlash(path: string): (r: string)
    ensures StartsWith(r, "/")
    ensures StartsWith(path, "/") ==> r == path
    ensures !StartsWith(path, "/") ==> r == "/" + path
  {
    if StartsWith(path, "/") then path else "/" + path
  }

  /** `String.valueOf` of a possibly-null string, as string concatenation
      and `print` render it. */
  function Show(s: Option<string>): string
  {
    match s
    case Some(v) => v
    case None => "null"
  }
}
