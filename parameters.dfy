/** AbstractServlet.processParameters
    (src/jss/webframework/AbstractServlet.java:160-217): multipart parts
    first, then the flat parameter map, merged into a map from name to
    RequestParam. */
module Parameters {

  import opened Wrappers
  import opened Text
  import opened Http
  import opened Params

  /** The observable contents of one parameter. */
  datatype ParamData = ParamData(values: seq<string>, files: seq<FileMeta>)

  /** The content type announces a multipart form: lower-cased, it contains
      "multipart/form-data". */
  predicate IsMultipart(contentType: Option<string>)
  {
    contentType.Some? && Contains(ToLower(contentType.value), "multipart/form-data")
  }

  /** An uploaded file: a submitted file name and a positive size. */
  predicate IsUpload(p: Part)
  {
    p.submittedFileName.Some? && p.size > 0
  }

  /** A text field: no submitted file name. */
  predicate IsText(p: Part)
  {
    p.submittedFileName.None?
  }

  /** A part that contributes to the result; a file part of size 0 does
      not. */
  predicate Accepted(p: Part)
  {
    IsUpload(p) || IsText(p)
  }

  /** The lines of a part concatenated with no separator. */
  function Concat(lines: seq<string>): string
  {
    if lines == [] then "" else Concat(lines[..|lines| - 1]) + lines[|lines| - 1]
  }

  lemma {:induction false} ConcatAppend(a: seq<string>, b: seq<string>)
    ensures Concat(a + b) == Concat(a) + Concat(b)
    decreases |b|
  {
    if b == [] {
      assert a + b == a;
    } else {
      assert (a + b)[..|a + b| - 1] == a + b[..|b| - 1];
      ConcatAppend(a, b[..|b| - 1]);
    }
  }

  /** Every character of the concatenation comes from exactly the lines:
      its length is the sum of theirs, and line breaks are not added. */
  lemma {:induction false} ConcatLength(lines: seq<string>)
    ensures |Concat(lines)| == SumLengths(lines)
    ensures forall i :: 0 <= i < |lines| ==> |lines[i]| <= |Concat(lines)|
    decreases |lines|
  {
    if lines != [] {
      ConcatLength(lines[..|lines| - 1]);
    }
  }

  function SumLengths(lines: seq<string>): nat
  {
    if lines == [] then 0 else SumLengths(lines[..|lines| - 1]) + |lines[|lines| - 1]|
  }

  /** The FileInfo a file part becomes. */
  function UploadOf(p: Part, request: Request): FileMeta
    requires IsUpload(p)
  {
    FileMeta(p.size, p.submittedFileName.value, p.contentType, Some(p), Some(request))
  }

  /** One turn of the parts loop. */
  function AddPart(acc: map<string, ParamData>, p: Part, request: Request, decode: Decoder): map<string, ParamData>
  {
    if IsUpload(p) then
      var info := UploadOf(p, request);
      if p.name in acc then acc[p.name := acc[p.name].(files := acc[p.name].files + [info])]
      else acc[p.name := ParamData([], [info])]
    else if IsText(p) then
      var value := decode(Concat(p.lines));
      if p.name in acc then acc[p.name := acc[p.name].(values := acc[p.name].values + [value])]
      else acc[p.name := ParamData([value], [])]
    else acc
  }

  /** The parameters the parts give, in part order. */
  function MultipartParams(parts: seq<Part>, request: Request, decode: Decoder): map<string, ParamData>
  {
    if parts == [] then map[]
    else AddPart(MultipartParams(parts[..|parts| - 1], request, decode), parts[|parts| - 1], request, decode)
  }

  /** What processParameters builds: the multipart parameters when the
      request is multipart, each flat entry replacing its name's whole
      entry. */
  function BuildParams(request: Request, decode: Decoder): map<string, ParamData>
  {
    Overlay(BaseParams(request, decode), request.parameterMap, request.parameterMap.Keys, decode)
  }

  /** The parameters before the flat map is applied. */
  function BaseParams(request: Request, decode: Decoder): map<string, ParamData>
  {
    if IsMultipart(request.contentType) then MultipartParams(request.parts, request, decode) else map[]
  }

  /** `base` with the flat entries named in `done` put over it. */
  function Overlay(base: map<string, ParamData>, flat: map<string, seq<string>>, done: set<string>, decode: Decoder)
    : map<string, ParamData>
    requires done <= flat.Keys
  {
    map k | k in base.Keys + done :: if k in done then ParamData(DecodeAll(flat[k], decode), []) else base[k]
  }

  /** Reference definitions by name, scanning the parts front to back: the
      decoded text of each text part of that name, and the file of each
      upload of that name. */
  function TextValues(parts: seq<Part>, name: string, decode: Decoder): seq<string>
  {
    if parts == [] then []
    else (if parts[0].name == name && IsText(parts[0]) then [decode(Concat(parts[0].lines))] else [])
         + TextValues(parts[1..], name, decode)
  }

  function Uploads(parts: seq<Part>, name: string, request: Request): seq<FileMeta>
  {
    if parts == [] then []
    else (if parts[0].name == name && IsUpload(parts[0]) then [UploadOf(parts[0], request)] else [])
         + Uploads(parts[1..], name, request)
  }

  lemma {:induction false} TextValuesSnoc(parts: seq<Part>, p: Part, name: string, decode: Decoder)
    ensures TextValues(parts + [p], name, decode)
            == TextValues(parts, name, decode) + (if p.name == name && IsText(p) then [decode(Concat(p.lines))] else [])
    decreases |parts|
  {
    if parts == [] {
      assert [p][1..] == [];
    } else {
      assert (parts + [p])[1..] == parts[1..] + [p];
      TextValuesSnoc(parts[1..], p, name, decode);
    }
  }

  lemma {:induction false} UploadsSnoc(parts: seq<Part>, p: Part, name: string, request: Request)
    ensures Uploads(parts + [p], name, request)
            == Uploads(parts, name, request) + (if p.name == name && IsUpload(p) then [UploadOf(p, request)] else [])
    decreases |parts|
  {
    if parts == [] {
      assert [p][1..] == [];
    } else {
      assert (parts + [p])[1..] == parts[1..] + [p];
      UploadsSnoc(parts[1..], p, name, request);
    }
  }

  /** A name has a multipart parameter iff some accepted part carries it,
      and that parameter holds the decoded texts and the uploads of that
      name, each in part order, so texts and files of one name accumulate
      in one parameter. */
  lemma {:induction false} MultipartByName(parts: seq<Part>, request: Request, decode: Decoder, name: string)
    ensures name in MultipartParams(parts, request, decode)
            <==> exists i :: 0 <= i < |parts| && parts[i].name == name && Accepted(parts[i])
    ensures name in MultipartParams(parts, request, decode) ==>
              MultipartParams(parts, request, decode)[name]
              == ParamData(TextValues(parts, name, decode), Uploads(parts, name, request))
    decreases |parts|
  {
    if parts != [] {
      var init, p := parts[..|parts| - 1], parts[|parts| - 1];
      assert parts == init + [p];
      MultipartByName(init, request, decode, name);
      TextValuesSnoc(init, p, name, decode);
      UploadsSnoc(init, p, name, request);
      if name !in MultipartParams(init, request, decode) {
        NoneBefore(init, name, decode, request);
      }
      if exists i :: 0 <= i < |parts| && parts[i].name == name && Accepted(parts[i]) {
        var i :| 0 <= i < |parts| && parts[i].name == name && Accepted(parts[i]);
        if i < |init| {
          assert init[i] == parts[i];
        }
      }
    }
  }

  /** A name no accepted part carries has no texts and no uploads. */
  lemma {:induction false} NoneBefore(parts: seq<Part>, name: string, decode: Decoder, request: Request)
    requires forall i :: 0 <= i < |parts| && parts[i].name == name ==> !Accepted(parts[i])
    ensures TextValues(parts, name, decode) == [] && Uploads(parts, name, request) == []
    decreases |parts|
  {
    if parts != [] {
      assert forall i :: 0 <= i < |parts| - 1 ==> parts[1..][i] == parts[i + 1];
      NoneBefore(parts[1..], name, decode, request);
    }
  }

  /** The result's names are those of the accepted parts (of a multipart
      request) and of the flat map; a flat entry replaces the whole
      multipart entry, files included; any other name keeps its multipart
      texts and uploads. */
  lemma BuildParamsSpec(request: Request, decode: Decoder, name: string)
    ensures name in BuildParams(request, decode) <==>
              || name in request.parameterMap
              || (IsMultipart(request.contentType)
                  && exists i :: 0 <= i < |request.parts| && request.parts[i].name == name && Accepted(request.parts[i]))
    ensures name in request.parameterMap ==>
              BuildParams(request, decode)[name] == ParamData(DecodeAll(request.parameterMap[name], decode), [])
    ensures name in BuildParams(request, decode) && name !in request.parameterMap ==>
              BuildParams(request, decode)[name]
              == ParamData(TextValues(request.parts, name, decode), Uploads(request.parts, name, request))
  {
    MultipartByName(request.parts, request, decode, name);
  }

  /** Reading a text part: its lines appended one after another. */
  method ReadText(lines: seq<string>) returns (value: string)
    ensures value == Concat(lines)
  {
    value := "";
    for i := 0 to |lines|
      invariant value == Concat(lines[..i])
    {
      assert lines[..i + 1][..i] == lines[..i];
      value := value + lines[i];
    }
    assert lines[..|lines|] == lines;
  }

  /** Parameter object `p` is the parameter `name` with contents `d`. */
  ghost predicate ParamHolds(p: RequestParam, name: string, d: ParamData)
    reads p, set f | f in p.files
  {
    p.name == name && p.values == d.values && FilesAre(p.files, d.files)
  }

  /** Whether a map of live parameter objects holds exactly `spec`. */
  ghost predicate Holds(m: map<string, RequestParam>, spec: map<string, ParamData>)
    reads set k | k in m :: m[k]
    reads set k, f | k in m && f in m[k].files :: f
  {
    && m.Keys == spec.Keys
    && forall k :: k in m ==> ParamHolds(m[k], k, spec[k])
  }

  /** An existing parameter gets one more file. */
  method AppendFile(m: map<string, RequestParam>, name: string, info: FileInfo, ghost spec: map<string, ParamData>)
    requires name in m && Holds(m, spec)
    modifies m[name]
    ensures Holds(m, spec[name := spec[name].(files := spec[name].files + [info.Meta()])])
  {
    ghost var before := m[name].files;
    m[name].files := m[name].files + [info];
    ghost var spec' := spec[name := spec[name].(files := spec[name].files + [info.Meta()])];
    assert ParamHolds(m[name], name, spec'[name]);
    forall k | k in m && k != name
      ensures ParamHolds(m[k], k, spec'[k])
    {
      assert m[k] != m[name];
    }
  }

  /** An existing parameter gets one more value. */
  method AppendValue(m: map<string, RequestParam>, name: string, value: string, ghost spec: map<string, ParamData>)
    requires name in m && Holds(m, spec)
    modifies m[name]
    ensures Holds(m, spec[name := spec[name].(values := spec[name].values + [value])])
  {
    m[name].values := m[name].values + [value];
    forall k | k in m
      ensures ParamHolds(m[k], k, spec[name := spec[name].(values := spec[name].values + [value])][k])
    {
      if k != name {
        assert m[k] != m[name];
      }
    }
  }

  /** Putting flat entries over `base` one name at a time. */
  lemma OverlayStep(base: map<string, ParamData>, flat: map<string, seq<string>>, done: set<string>, name: string,
                    decode: Decoder)
    requires done <= flat.Keys
    ensures done == {} ==> Overlay(base, flat, done, decode) == base
    ensures name in flat ==>
              Overlay(base, flat, done + {name}, decode)
              == Overlay(base, flat, done, decode)[name := ParamData(DecodeAll(flat[name], decode), [])]
  {
    if done == {} {
      assert Overlay(base, flat, done, decode).Keys == base.Keys;
    }
  }

  /** A new name gets a fresh parameter object. */
  lemma PutFresh(m: map<string, RequestParam>, name: string, p: RequestParam, d: ParamData,
                 spec: map<string, ParamData>)
    requires Holds(m, spec) && ParamHolds(p, name, d)
    ensures Holds(m[name := p], spec[name := d])
  {
  }

  /** One turn of the parts loop on the live map: the file or the decoded
      text is appended to the parameter of that name, or a new parameter is
      made for it; a file part of size 0 changes nothing. */
  method AddPartTo(m: map<string, RequestParam>, part: Part, request: Request, decode: Decoder,
                   ghost spec: map<string, ParamData>)
    returns (m': map<string, RequestParam>)
    requires Holds(m, spec)
    modifies set k | k in m :: m[k]
    ensures Holds(m', AddPart(spec, part, request, decode))
    ensures forall k :: k in m' ==> (k in m && m'[k] == m[k]) || fresh(m'[k])
  {
    m' := m;
    var name := part.name;
    if part.submittedFileName.Some? && part.size > 0 {
      var info := new FileInfo(part.size, part.submittedFileName.value, part.contentType, Some(part), Some(request));
      assert info.Meta() == UploadOf(part, request);
      if name in m' {
        AppendFile(m', name, info, spec);
      } else {
        var param := new RequestParam.OfFiles(name, Some([info]));
        assert [info][..0] == [];
        PutFresh(m', name, param, ParamData([], [UploadOf(part, request)]), spec);
        m' := m'[name := param];
      }
    } else if part.submittedFileName.None? {
      var value := ReadText(part.lines);
      if name in m' {
        value := decode(value);
        AppendValue(m', name, value, spec);
      } else {
        var param := new RequestParam.OfValues(name, Some([value]), decode);
        PutFresh(m', name, param, ParamData([decode(Concat(part.lines))], []), spec);
        m' := m'[name := param];
      }
    }
  }

  /** The parts loop: runs only for a multipart request. */
  method ProcessParts(request: Request, decode: Decoder) returns (m: map<string, RequestParam>)
    ensures Holds(m, BaseParams(request, decode))
    ensures forall k :: k in m ==> fresh(m[k])
  {
    m := map[];
    if request.contentType.Some? && Contains(ToLower(request.contentType.value), "multipart/form-data") {
      var parts := request.parts;
      for i := 0 to |parts|
        invariant Holds(m, MultipartParams(parts[..i], request, decode))
        invariant forall k :: k in m ==> fresh(m[k])
      {
        assert parts[..i + 1][..i] == parts[..i];
        m := AddPartTo(m, parts[i], request, decode, MultipartParams(parts[..i], request, decode));
      }
      assert parts[..|parts|] == parts;
    }
  }

  /** One parameter-map entry: a fresh parameter replaces whatever the
      name held. */
  method PutFlat(m: map<string, RequestParam>, flat: map<string, seq<string>>, name: string, decode: Decoder,
                 ghost base: map<string, ParamData>, ghost done: set<string>)
    returns (m': map<string, RequestParam>)
    requires done <= flat.Keys && name in flat
    requires Holds(m, Overlay(base, flat, done, decode))
    ensures Holds(m', Overlay(base, flat, done + {name}, decode))
  {
    var param := new RequestParam.OfValues(name, Some(flat[name]), decode);
    OverlayStep(base, flat, done, name, decode);
    PutFresh(m, name, param, ParamData(DecodeAll(flat[name], decode), []), Overlay(base, flat, done, decode));
    m' := m[name := param];
  }

  /** The parameter-map loop: each entry replaces its name's parameter
      with a fresh one holding the decoded values. */
  method ApplyFlat(m0: map<string, RequestParam>, flat: map<string, seq<string>>, decode: Decoder,
                   ghost base: map<string, ParamData>)
    returns (m: map<string, RequestParam>)
    requires Holds(m0, base)
    ensures Holds(m, Overlay(base, flat, flat.Keys, decode))
  {
    m := m0;
    var remaining := flat.Keys;
    ghost var done: set<string> := {};
    OverlayStep(base, flat, {}, "", decode);
    while remaining != {}
      invariant done !! remaining && done + remaining == flat.Keys
      invariant Holds(m, Overlay(base, flat, done, decode))
      decreases remaining
    {
      var name :| name in remaining;
      m := PutFlat(m, flat, name, decode, base, done);
      remaining := remaining - {name};
      done := done + {name};
    }
    assert done == flat.Keys;
  }

  /** processParameters. */
  method ProcessParameters(request: Request, decode: Decoder) returns (m: map<string, RequestParam>)
    ensures m.Keys == BuildParams(request, decode).Keys
    ensures forall k :: k in m ==>
              && m[k].name == k
              && m[k].values == BuildParams(request, decode)[k].values
              && FilesAre(m[k].files, BuildParams(request, decode)[k].files)
  {
    m := ProcessParts(request, decode);
    m := ApplyFlat(m, request.parameterMap, decode, BaseParams(request, decode));
  }
}
