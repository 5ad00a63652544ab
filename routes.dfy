/** The route tables of DispatcherServlet and the longest-prefix selection
    that findController and findErrorController perform over them, stated as
    functions over the scan order. */
module Routes {

  import opened Wrappers
  import opened Text

  /** A controller, known by its class name. */
  type ControllerId = string

  /** One `@Path` registration: its patterns, its redirect policy and the
      controller class it is attached to. */
  datatype Route = Route(patterns: seq<string>, redirectAfterPath: bool, controller: ControllerId)

  /** One `@PathError` registration. */
  datatype ErrorRoute = ErrorRoute(patterns: seq<string>, isDefault: bool, controller: ControllerId)

  /** `@Path(value = patterns)` with its annotation default for the policy. */
  function PathRoute(patterns: seq<string>, controller: ControllerId): (r: Route)
    ensures !r.redirectAfterPath && r.patterns == patterns && r.controller == controller
  {
    Route(patterns, false, controller)
  }

  /** `@PathError` with both of its annotation defaults. */
  function PathErrorRoute(controller: ControllerId): (r: ErrorRoute)
    ensures !r.isDefault && r.patterns == [] && r.controller == controller
  {
    ErrorRoute([], false, controller)
  }

  /** One pattern as the scan sees it: trailing slash removed, with the index
      of the table entry that declared it. */
  datatype Slot = Slot(pattern: string, entry: nat)

  /** The slots of one entry's patterns, in declaration order. */
  function PatternSlots(patterns: seq<string>, entry: nat): (s: seq<Slot>)
    ensures |s| == |patterns|
    ensures forall j :: 0 <= j < |s| ==> s[j] == Slot(StripTrailingSlash(patterns[j]), entry)
  {
    seq(|patterns|, j requires 0 <= j < |patterns| => Slot(StripTrailingSlash(patterns[j]), entry))
  }

  /** Every pattern of every route, in scan order: entry by entry, and
      within an entry in declaration order. */
  function RouteSlots(routes: seq<Route>): (s: seq<Slot>)
    ensures forall k :: 0 <= k < |s| ==> s[k].entry < |routes|
  {
    if routes == [] then []
    else
      var n := |routes| - 1;
      RouteSlots(routes[..n]) + PatternSlots(routes[n].patterns, n)
  }

  /** The slots of the error table; default entries contribute none, their
      patterns are never consulted. */
  function ErrorSlots(routes: seq<ErrorRoute>): (s: seq<Slot>)
    ensures forall k :: 0 <= k < |s| ==> s[k].entry < |routes| && !routes[s[k].entry].isDefault
  {
    if routes == [] then []
    else
      var n := |routes| - 1;
      ErrorSlots(routes[..n]) + (if routes[n].isDefault then [] else PatternSlots(routes[n].patterns, n))
  }

  /** A pattern is a candidate for a path when it is no longer than the path
      and equals, ignoring case, the path's prefix of its length. The
      comparison is on characters, not on path segments. */
  predicate IsCandidate(path: string, pattern: string)
  {
    |pattern| <= |path| && EqualsIgnoreCase(path[..|pattern|], pattern)
  }

  /** Slot k wins the scan: it is a candidate, no candidate is longer, and
      every candidate scanned after it is strictly shorter. */
  ghost predicate IsWinner(slots: seq<Slot>, path: string, k: int)
  {
    && 0 <= k < |slots|
    && IsCandidate(path, slots[k].pattern)
    && forall j :: 0 <= j < |slots| && IsCandidate(path, slots[j].pattern) ==>
         |slots[j].pattern| <= |slots[k].pattern| && (k < j ==> |slots[j].pattern| < |slots[k].pattern|)
  }

  lemma WinnerUnique(slots: seq<Slot>, path: string, k1: int, k2: int)
    requires IsWinner(slots, path, k1) && IsWinner(slots, path, k2)
    ensures k1 == k2
  {
  }

  /** The scan of findController and findErrorController: a candidate
      replaces the best so far when it is at least as long (`>=`). */
  function Select(slots: seq<Slot>, path: string): (r: Option<nat>)
    ensures r.Some? ==> r.value < |slots|
    decreases |slots|
  {
    if slots == [] then None
    else
      var n := |slots| - 1;
      var prev := Select(slots[..n], path);
      if IsCandidate(path, slots[n].pattern) && (prev.None? || |slots[n].pattern| >= |slots[prev.value].pattern|)
      then Some(n)
      else prev
  }

  /** What the scan selects: nothing exactly when no pattern is a candidate,
      and otherwise the longest candidate, the last scanned among equally
      long ones. */
  lemma {:induction false} SelectSpec(slots: seq<Slot>, path: string)
    ensures Select(slots, path).None? <==> forall k :: 0 <= k < |slots| ==> !IsCandidate(path, slots[k].pattern)
    ensures Select(slots, path).Some? ==> IsWinner(slots, path, Select(slots, path).value)
    decreases |slots|
  {
    if slots != [] {
      var n := |slots| - 1;
      SelectSpec(slots[..n], path);
      var prev := Select(slots[..n], path);
      if prev.Some? {
        assert slots[..n][prev.value] == slots[prev.value];
      }
      forall k | 0 <= k < n
        ensures slots[..n][k] == slots[k]
      {
      }
    }
  }

  /** A winner, when there is one, is what the scan selects. */
  lemma WinnerIsSelected(slots: seq<Slot>, path: string)
    ensures forall k :: IsWinner(slots, path, k) ==> Select(slots, path) == Some(k)
  {
    SelectSpec(slots, path);
    forall k | IsWinner(slots, path, k)
      ensures Select(slots, path) == Some(k)
    {
      WinnerUnique(slots, path, k, Select(slots, path).value);
    }
  }

  /** The redirect policy, applied to the winning entry only: an entry with
      redirectAfterPath == false accepts only a pattern as long as the whole
      path. */
  predicate Admits(route: Route, pattern: string, path: string)
  {
    route.redirectAfterPath || |pattern| == |path|
  }

  /** findController on an already slash-stripped path. */
  function Resolve(routes: seq<Route>, path: string): (r: Option<ControllerId>)
    ensures (forall k :: 0 <= k < |RouteSlots(routes)| ==> !IsCandidate(path, RouteSlots(routes)[k].pattern))
            ==> r == None
    ensures forall k :: IsWinner(RouteSlots(routes), path, k) ==>
              var route := routes[RouteSlots(routes)[k].entry];
              r == if Admits(route, RouteSlots(routes)[k].pattern, path) then Some(route.controller) else None
  {
    var slots := RouteSlots(routes);
    SelectSpec(slots, path);
    WinnerIsSelected(slots, path);
    match Select(slots, path)
    case None => None
    case Some(k) =>
      var route := routes[slots[k].entry];
      if !route.redirectAfterPath && |slots[k].pattern| != |path| then None else Some(route.controller)
  }

  /** Every pattern of every entry is scanned, under its own entry's index,
      and nothing else is. */
  lemma {:induction false} RouteSlotsCover(routes: seq<Route>, slot: Slot)
    ensures slot in RouteSlots(routes) <==>
              exists i, j :: 0 <= i < |routes| && 0 <= j < |routes[i].patterns|
                && slot == Slot(StripTrailingSlash(routes[i].patterns[j]), i)
    decreases |routes|
  {
    if routes != [] {
      var n := |routes| - 1;
      RouteSlotsCover(routes[..n], slot);
      if slot in PatternSlots(routes[n].patterns, n) {
        var j :| 0 <= j < |routes[n].patterns| && PatternSlots(routes[n].patterns, n)[j] == slot;
        assert slot == Slot(StripTrailingSlash(routes[n].patterns[j]), n);
      }
      if exists i, j :: 0 <= i < |routes| && 0 <= j < |routes[i].patterns|
                && slot == Slot(StripTrailingSlash(routes[i].patterns[j]), i) {
        var i, j :| 0 <= i < |routes| && 0 <= j < |routes[i].patterns|
                && slot == Slot(StripTrailingSlash(routes[i].patterns[j]), i);
        if i == n {
          assert PatternSlots(routes[n].patterns, n)[j] == slot;
        } else {
          assert routes[..n][i] == routes[i];
        }
      }
    }
  }

  /** The controller of the last default entry scanned, if any. */
  function DefaultOf(routes: seq<ErrorRoute>): (r: Option<ControllerId>)
  {
    if routes == [] then None
    else
      var n := |routes| - 1;
      if routes[n].isDefault then Some(routes[n].controller) else DefaultOf(routes[..n])
  }

  /** The fallback is the last default entry, and there is none only when
      no entry is a default. */
  lemma {:induction false} DefaultOfSpec(routes: seq<ErrorRoute>)
    ensures DefaultOf(routes).None? <==> forall i :: 0 <= i < |routes| ==> !routes[i].isDefault
    ensures DefaultOf(routes).Some? ==>
              exists i :: 0 <= i < |routes| && routes[i].isDefault && routes[i].controller == DefaultOf(routes).value
                          && forall j :: i < j < |routes| ==> !routes[j].isDefault
    decreases |routes|
  {
    if routes != [] {
      var n := |routes| - 1;
      DefaultOfSpec(routes[..n]);
      if !routes[n].isDefault && DefaultOf(routes).Some? {
        var i :| 0 <= i < n && routes[..n][i].isDefault && routes[..n][i].controller == DefaultOf(routes).value
                 && forall j :: i < j < n ==> !routes[..n][j].isDefault;
        assert routes[i] == routes[..n][i];
      }
    }
  }

  /** findErrorController on an already slash-stripped path: the longest
      candidate among the non-default entries, with no redirect policy, and
      the default entry only when no such candidate exists. */
  function ResolveError(routes: seq<ErrorRoute>, path: string): (r: Option<ControllerId>)
    ensures (forall k :: 0 <= k < |ErrorSlots(routes)| ==> !IsCandidate(path, ErrorSlots(routes)[k].pattern))
            ==> r == DefaultOf(routes)
    ensures forall k :: IsWinner(ErrorSlots(routes), path, k) ==>
              r == Some(routes[ErrorSlots(routes)[k].entry].controller)
  {
    var slots := ErrorSlots(routes);
    SelectSpec(slots, path);
    WinnerIsSelected(slots, path);
    match Select(slots, path)
    case None => DefaultOf(routes)
    case Some(k) => Some(routes[slots[k].entry].controller)
  }

  /** Two error tables that differ only in the patterns of their default
      entries resolve every path alike. */
  lemma {:induction false} DefaultPatternsIgnored(a: seq<ErrorRoute>, b: seq<ErrorRoute>, path: string)
    requires |a| == |b|
    requires forall i :: 0 <= i < |a| ==> a[i].isDefault == b[i].isDefault && a[i].controller == b[i].controller
    requires forall i :: 0 <= i < |a| && !a[i].isDefault ==> a[i].patterns == b[i].patterns
    ensures ResolveError(a, path) == ResolveError(b, path)
  {
    SameErrorScan(a, b);
  }

  lemma {:induction false} SameErrorScan(a: seq<ErrorRoute>, b: seq<ErrorRoute>)
    requires |a| == |b|
    requires forall i :: 0 <= i < |a| ==> a[i].isDefault == b[i].isDefault && a[i].controller == b[i].controller
    requires forall i :: 0 <= i < |a| && !a[i].isDefault ==> a[i].patterns == b[i].patterns
    ensures ErrorSlots(a) == ErrorSlots(b) && DefaultOf(a) == DefaultOf(b)
    decreases |a|
  {
    if a != [] {
      var n := |a| - 1;
      SameErrorScan(a[..n], b[..n]);
    }
  }
}
