/** FrameworkUtils.dispatchToController
    (src/jss/webframework/FrameworkUtils.java:88-155): construct the
    controller, run its job, render the view it returns, and end the job in
    a `finally` block. What the controller does is given, not computed. */
module Lifecycle {

  import opened Wrappers
  import opened Text
  import opened Http
  import opened Exceptions
  import opened Views

  /** What rendering throws when a JSP resource is missing: a
      WebAppException with the default code. */
  const JspNotFound: Throwable := WebApp(OfMessage(Some("JSP file not found!")))

  /** How the controller's doJob ends: with a view (possibly null) or by
      throwing. */
  datatype JobOutcome = Returned(view: Option<AbstractView>) | Threw(failure: Throwable)

  /** One controller invocation as the dispatcher sees it: whether the
      reflective construction failed (and with what), the effects doJob
      issued itself (a redirect or sendError from within the job included),
      how doJob ended, and whether endJob throws. */
  datatype ControllerRun = ControllerRun(
    construct: Option<Throwable>,
    jobEffects: seq<Effect>,
    outcome: JobOutcome,
    endJobFailure: Option<Throwable>)

  /** The view the job returned, as a frame. */
  function ViewFrame(run: ControllerRun): set<AbstractView>
  {
    if run.outcome.Returned? && run.outcome.view.Some? then {run.outcome.view.value} else {}
  }

  function Includes(paths: seq<string>): (r: seq<Effect>)
    ensures |r| == |paths| && forall i :: 0 <= i < |paths| ==> r[i] == Include(paths[i])
  {
    seq(|paths|, i requires 0 <= i < |paths| => Include(paths[i]))
  }

  /** Including the JSP files in order, each checked first, stopping at
      the first missing one. */
  function IncludeAll(paths: seq<string>, resourceExists: string -> bool): Trace
    decreases |paths|
  {
    if paths == [] then Trace([], None)
    else if !resourceExists(paths[0]) then Trace([], Some(JspNotFound))
    else
      var rest := IncludeAll(paths[1..], resourceExists);
      Trace([Include(paths[0])] + rest.effects, rest.failure)
  }

  /** Every file is included when every resource exists; otherwise exactly
      those before the first missing one are included and rendering fails
      there with the WebAppException for a missing JSP. */
  lemma {:induction false} IncludeAllSpec(paths: seq<string>, resourceExists: string -> bool)
    ensures IncludeAll(paths, resourceExists).failure.None? <==> forall i :: 0 <= i < |paths| ==> resourceExists(paths[i])
    ensures IncludeAll(paths, resourceExists).failure.None? ==> IncludeAll(paths, resourceExists).effects == Includes(paths)
    ensures IncludeAll(paths, resourceExists).failure.Some? ==>
              && IncludeAll(paths, resourceExists).failure == Some(JspNotFound)
              && exists n :: FirstMissing(paths, resourceExists, n)
                             && IncludeAll(paths, resourceExists).effects == Includes(paths[..n])
    decreases |paths|
  {
    if paths == [] {
    } else if !resourceExists(paths[0]) {
      assert FirstMissing(paths, resourceExists, 0);
      assert paths[..0] == [];
    } else {
      var rest := IncludeAll(paths[1..], resourceExists);
      IncludeAllSpec(paths[1..], resourceExists);
      assert forall i :: 1 <= i < |paths| ==> paths[i] == paths[1..][i - 1];
      if rest.failure.Some? {
        var n :| FirstMissing(paths[1..], resourceExists, n) && rest.effects == Includes(paths[1..][..n]);
        assert FirstMissing(paths, resourceExists, n + 1);
        assert [Include(paths[0])] + rest.effects == Includes(paths[..n + 1]);
      } else {
        assert [Include(paths[0])] + rest.effects == Includes(paths);
      }
    }
  }

  /** The effects of IncludeAll are all includes. */
  lemma {:induction false} IncludeAllIncludes(paths: seq<string>, resourceExists: string -> bool)
    ensures forall i :: 0 <= i < |IncludeAll(paths, resourceExists).effects| ==>
              IncludeAll(paths, resourceExists).effects[i].Include?
    decreases |paths|
  {
    if paths != [] && resourceExists(paths[0]) {
      IncludeAllIncludes(paths[1..], resourceExists);
    }
  }

  /** Resource n is the first missing one. */
  predicate FirstMissing(paths: seq<string>, resourceExists: string -> bool, n: int)
  {
    0 <= n < |paths| && !resourceExists(paths[n]) && forall i :: 0 <= i < n ==> resourceExists(paths[i])
  }

  /** The JSP files of a view, each under the JSP directory: the prepend
      file if set, the main file, the append file if set. A null main file
      name is concatenated as "null". */
  function JspPaths(jspDir: string, prepend: Option<string>, jsp: Option<string>, append: Option<string>)
    : (r: seq<string>)
    ensures |r| == 1 + (if prepend.Some? then 1 else 0) + (if append.Some? then 1 else 0)
    ensures prepend.Some? ==> r[0] == jspDir + prepend.value
    ensures r[if prepend.Some? then 1 else 0] == jspDir + Show(jsp)
    ensures append.Some? ==> r[|r| - 1] == jspDir + append.value
  {
    (if prepend.Some? then [jspDir + prepend.value] else [])
    + [jspDir + Show(jsp)]
    + (if append.Some? then [jspDir + append.value] else [])
  }

  /** The response header calls: the content type if set, then the status
      if set. */
  function Header(contentType: Option<string>, code: Option<int>): (r: seq<Effect>)
    ensures |r| == (if contentType.Some? then 1 else 0) + (if code.Some? then 1 else 0)
    ensures contentType.Some? ==> r[0] == SetContentType(contentType.value)
    ensures code.Some? ==> r[|r| - 1] == SetStatus(code.value)
  {
    (if contentType.Some? then [SetContentType(contentType.value)] else [])
    + (if code.Some? then [SetStatus(code.value)] else [])
  }

  predicate IsBodyWrite(e: Effect)
  {
    e.Include? || e.WriteText? || e.WriteBytes?
  }

  function Body(v: AbstractView, jspDir: string, resourceExists: string -> bool): Trace
    reads v
  {
    match v.viewType
    case Jsp => IncludeAll(JspPaths(jspDir, v.jspPrependFile, v.jspFile, v.jspAppendFile), resourceExists)
    case StringContent => Trace([WriteText(Show(v.content))], None)
    case BytesContent =>
      if v.contentBytes.None? then Trace([], Some(NullPointer)) else Trace([WriteBytes(v.contentBytes.value)], None)
    case NoContent => Trace([], None)
  }

  /** Rendering a non-null view: header calls first, then only body writes;
      a JSP view includes its files in order and stops at a missing one;
      string content is printed ("null" for none); bytes are written, and
      missing bytes fail with a NullPointerException; no content writes
      nothing. */
  function Render(v: AbstractView, jspDir: string, resourceExists: string -> bool): (r: Trace)
    reads v
    ensures |Header(v.contentType, v.code)| <= |r.effects|
    ensures r.effects[..|Header(v.contentType, v.code)|] == Header(v.contentType, v.code)
    ensures forall i :: |Header(v.contentType, v.code)| <= i < |r.effects| ==> IsBodyWrite(r.effects[i])
    ensures v.viewType == Jsp ==>
              Trace(r.effects[|Header(v.contentType, v.code)|..], r.failure)
              == IncludeAll(JspPaths(jspDir, v.jspPrependFile, v.jspFile, v.jspAppendFile), resourceExists)
    ensures v.viewType == StringContent ==>
              r.effects[|Header(v.contentType, v.code)|..] == [WriteText(Show(v.content))] && r.failure == None
    ensures v.viewType == BytesContent ==>
              (r.failure.Some? <==> v.contentBytes.None?) && (r.failure.Some? ==> r.failure == Some(NullPointer))
    ensures v.viewType == BytesContent && v.contentBytes.None? ==> r.effects == Header(v.contentType, v.code)
    ensures v.viewType == BytesContent && v.contentBytes.Some? ==>
              r.effects[|Header(v.contentType, v.code)|..] == [WriteBytes(v.contentBytes.value)] && r.failure == None
    ensures v.viewType == NoContent ==> r.effects == Header(v.contentType, v.code) && r.failure == None
  {
    var b := Body(v, jspDir, resourceExists);
    var h := Header(v.contentType, v.code);
    IncludeAllIncludes(JspPaths(jspDir, v.jspPrependFile, v.jspFile, v.jspAppendFile), resourceExists);
    assert (h + b.effects)[..|h|] == h;
    assert (h + b.effects)[|h|..] == b.effects;
    Trace(h + b.effects, b.failure)
  }

  /** What dispatchToController does, as a specification. */
  function Dispatched(run: ControllerRun, jspDir: string, resourceExists: string -> bool): (r: Trace)
    reads ViewFrame(run)
    ensures run.construct.Some? ==> r == Trace([], run.construct)
    ensures run.construct.None? ==>
              && |run.jobEffects| < |r.effects|
              && r.effects[..|run.jobEffects|] == run.jobEffects
              && r.effects[|r.effects| - 1] == EndJob
    ensures run.construct.None? && run.endJobFailure.Some? ==> r.failure == run.endJobFailure
    ensures run.construct.None? && run.endJobFailure.None? && run.outcome.Threw? ==> r.failure == Some(run.outcome.failure)
    ensures run.construct.None? && run.outcome.Threw? ==> r.effects == run.jobEffects + [EndJob]
    ensures run.construct.None? && run.outcome == Returned(None) ==>
              r.effects == run.jobEffects + [EndJob] && r.failure == run.endJobFailure
    ensures run.construct.None? && run.outcome.Returned? && run.outcome.view.Some? ==>
              && r.effects == run.jobEffects + Render(run.outcome.view.value, jspDir, resourceExists).effects + [EndJob]
              && (run.endJobFailure.None? ==> r.failure == Render(run.outcome.view.value, jspDir, resourceExists).failure)
  {
    if run.construct.Some? then Trace([], run.construct)
    else
      var body := match run.outcome
        case Threw(t) => Trace([], Some(t))
        case Returned(None) => Trace([], None)
        case Returned(Some(v)) => Render(v, jspDir, resourceExists);
      var failure := if run.endJobFailure.Some? then run.endJobFailure else body.failure;
      var effects := run.jobEffects + body.effects + [EndJob];
      assert effects[..|run.jobEffects|] == run.jobEffects;
      Trace(effects, failure)
  }

  /** Rendering never ends the job itself. */
  lemma RenderHasNoEndJob(v: AbstractView, jspDir: string, resourceExists: string -> bool)
    ensures CountEndJob(Render(v, jspDir, resourceExists).effects) == 0
  {
    var r := Render(v, jspDir, resourceExists);
    var h := Header(v.contentType, v.code);
    forall i | 0 <= i < |r.effects|
      ensures r.effects[i] != EndJob
    {
      if i < |h| {
        assert r.effects[i] == h[i];
      }
    }
  }

  /** endJob runs exactly once more than the job ran it itself when the
      controller was constructed (whatever doJob or rendering did), and
      never when construction failed. */
  lemma EndJobOnce(run: ControllerRun, jspDir: string, resourceExists: string -> bool)
    ensures run.construct.Some? ==> CountEndJob(Dispatched(run, jspDir, resourceExists).effects) == 0
    ensures run.construct.None? ==>
              CountEndJob(Dispatched(run, jspDir, resourceExists).effects) == CountEndJob(run.jobEffects) + 1
  {
    if run.construct.None? {
      var body: seq<Effect> := match run.outcome
        case Returned(Some(v)) => Render(v, jspDir, resourceExists).effects
        case _ => [];
      if run.outcome.Returned? && run.outcome.view.Some? {
        RenderHasNoEndJob(run.outcome.view.value, jspDir, resourceExists);
      }
      assert Dispatched(run, jspDir, resourceExists).effects == run.jobEffects + body + [EndJob];
      CountEndJobAppend(run.jobEffects, body);
      CountEndJobAppend(run.jobEffects + body, [EndJob]);
      assert [EndJob][..0] == [];
    }
  }

  /** dispatchToController. */
  method DispatchToController(run: ControllerRun, jspDir: string, resourceExists: string -> bool) returns (t: Trace)
    ensures t == Dispatched(run, jspDir, resourceExists)
  {
    if run.construct.Some? {
      return Trace([], run.construct);
    }
    var effects := run.jobEffects;
    var failure: Option<Throwable> := None;
    match run.outcome {
      case Threw(e) =>
        failure := Some(e);
      case Returned(None) =>
      case Returned(Some(view)) =>
        var rendered := RenderView(view, jspDir, resourceExists);
        effects := effects + rendered.effects;
        failure := rendered.failure;
    }
    // finally
    effects := effects + [EndJob];
    if run.endJobFailure.Some? {
      failure := run.endJobFailure;
    }
    t := Trace(effects, failure);
  }

  /** The rendering part of the try block. */
  method RenderView(view: AbstractView, jspDir: string, resourceExists: string -> bool) returns (t: Trace)
    ensures t == Render(view, jspDir, resourceExists)
  {
    var effects: seq<Effect> := [];
    var failure: Option<Throwable> := None;
    if view.contentType.Some? {
      effects := effects + [SetContentType(view.contentType.value)];
    }
    if view.code.Some? {
      effects := effects + [SetStatus(view.code.value)];
    }
    if view.viewType == Jsp {
      var included := IncludeJsp(jspDir, view.jspPrependFile, view.jspFile, view.jspAppendFile, resourceExists);
      effects := effects + included.effects;
      failure := included.failure;
    } else if view.viewType == StringContent {
      effects := effects + [WriteText(Show(view.content))];
    } else if view.viewType == BytesContent {
      if view.contentBytes.None? {
        failure := Some(NullPointer);
      } else {
        effects := effects + [WriteBytes(view.contentBytes.value)];
      }
    }
    t := Trace(effects, failure);
  }

  /** The JSP branch: prepend, main and append file, each looked up before
      it is included. */
  method IncludeJsp(jspDir: string, prepend: Option<string>, jspFile: Option<string>, append: Option<string>,
                    resourceExists: string -> bool)
    returns (t: Trace)
    ensures t == IncludeAll(JspPaths(jspDir, prepend, jspFile, append), resourceExists)
  {
    ghost var paths := JspPaths(jspDir, prepend, jspFile, append);
    ghost var whole := IncludeAll(paths, resourceExists);
    var jsp := jspDir + Show(jspFile);
    var effects: seq<Effect> := [];
    ghost var rest := paths;
    if prepend.Some? {
      var p := jspDir + prepend.value;
      if !resourceExists(p) {
        return Trace([], Some(JspNotFound));
      }
      effects := effects + [Include(p)];
      rest := paths[1..];
    }
    assert rest == [jsp] + (if append.Some? then [jspDir + append.value] else []);
    assert whole == Trace(effects + IncludeAll(rest, resourceExists).effects, IncludeAll(rest, resourceExists).failure);
    if !resourceExists(jsp) {
      return Trace(effects, Some(JspNotFound));
    }
    effects := effects + [Include(jsp)];
    rest := rest[1..];
    assert whole == Trace(effects + IncludeAll(rest, resourceExists).effects, IncludeAll(rest, resourceExists).failure);
    if append.Some? {
      var a := jspDir + append.value;
      assert rest == [a];
      if !resourceExists(a) {
        return Trace(effects, Some(JspNotFound));
      }
      effects := effects + [Include(a)];
      rest := rest[1..];
      assert whole == Trace(effects + IncludeAll(rest, resourceExists).effects, IncludeAll(rest, resourceExists).failure);
    }
    assert rest == [];
    assert effects + [] == effects;
    t := Trace(effects, None);
  }
}
