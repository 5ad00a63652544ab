/** RequestParam (src/jss/webframework/RequestParam.java): one named
    request parameter holding text values and uploaded files, and the
    FileInfo of one upload, which can be saved to disk once. */
module Params {

  import opened Wrappers
  import opened Text
  import opened Http
  import opened Exceptions

  /** URLDecoder.decode with UTF-8, left uninterpreted. */
  type Decoder = string -> string

  /** Files.copy of the part's stream to the destination: what it throws,
      if anything. */
  type Copier = (Part, string) -> Option<Throwable>

  const AlreadySaved: Throwable := IOFailure(Some("File was already saved!"))

  /** Every value decoded once, in order. */
  function DecodeAll(values: seq<string>, decode: Decoder): (r: seq<string>)
    ensures |r| == |values|
    ensures forall i :: 0 <= i < |values| ==> r[i] == decode(values[i])
  {
    seq(|values|, i requires 0 <= i < |values| => decode(values[i]))
  }

  /** The observable state of a FileInfo. */
  datatype FileMeta = FileMeta(size: int, fileName: string, contentType: Option<string>,
                               part: Option<Part>, request: Option<Request>)

  /** Where a save puts the file: the directory with a separator, then the
      file name. */
  function Destination(path: string, filename: string): (r: string)
    ensures StartsWith(r, path) && EndsWith(r, filename)
    ensures EndsWith(path, Separator) ==> r == path + filename
    ensures !EndsWith(path, Separator) ==> r == path + Separator + filename
  {
    WithTrailing(path, Separator) + filename
  }

  class FileInfo {
    const size: int
    const fileName: string
    const contentType: Option<string>
    var part: Option<Part>
    var request: Option<Request>

    constructor (size: int, fileName: string, contentType: Option<string>, part: Option<Part>, request: Option<Request>)
      ensures Meta() == FileMeta(size, fileName, contentType, part, request)
    {
      this.size := size;
      this.fileName := fileName;
      this.contentType := contentType;
      this.part := part;
      this.request := request;
    }

    function Meta(): FileMeta
      reads this
    {
      FileMeta(size, fileName, contentType, part, request)
    }

    /** The file can still be saved. */
    predicate Savable()
      reads this
    {
      part.Some? && request.Some?
    }

    /** saveFileInPath: refused once saved; a copy that throws leaves the
        file savable; a copy that succeeds clears the part and request. */
    method SaveFileInPath(path: string, filename: string, copy: Copier) returns (failure: Option<Throwable>)
      modifies this`part, this`request
      ensures !old(Savable()) ==> failure == Some(AlreadySaved)
      ensures old(Savable()) ==> failure == copy(old(part).value, Destination(path, filename))
      ensures failure.None? ==> part == None && request == None
      ensures failure.Some? ==> part == old(part) && request == old(request)
    {
      if part.None? || request.None? {
        return Some(AlreadySaved);
      }
      var dir := path;
      if !EndsWith(dir, Separator) {
        dir := dir + Separator;
      }
      failure := copy(part.value, dir + filename);
      if failure.None? {
        part := None;
        request := None;
      }
    }

    /** saveFileInsideWebapp: the directory, with a separator, is resolved
        through the servlet context; a null real path fails inside
        saveFileInPath with a NullPointerException. */
    method SaveFileInsideWebapp(dir: string, filename: string, realPath: string -> Option<string>, copy: Copier)
      returns (failure: Option<Throwable>)
      modifies this`part, this`request
      ensures !old(Savable()) ==> failure == Some(AlreadySaved)
      ensures old(Savable()) && realPath(WithTrailing(dir, Separator)).None? ==> failure == Some(NullPointer)
      ensures old(Savable()) && realPath(WithTrailing(dir, Separator)).Some? ==>
                failure == copy(old(part).value, Destination(realPath(WithTrailing(dir, Separator)).value, filename))
      ensures failure.None? ==> part == None && request == None
      ensures failure.Some? ==> part == old(part) && request == old(request)
    {
      if part.None? || request.None? {
        return Some(AlreadySaved);
      }
      var d := dir;
      if !EndsWith(d, Separator) {
        d := d + Separator;
      }
      var path := realPath(d);
      if path.None? {
        return Some(NullPointer);
      }
      failure := SaveFileInPath(path.value, filename, copy);
    }
  }

  /** A file is saved at most once: after a successful save, any second
      save is refused and changes nothing. */
  method SaveOnce(f: FileInfo, path: string, filename: string, copy: Copier)
    returns (first: Option<Throwable>, second: Option<Throwable>)
    modifies f
    ensures first.None? ==> second == Some(AlreadySaved) && !f.Savable()
    ensures old(f.Savable()) && first.Some? ==> f.Savable()
  {
    first := f.SaveFileInPath(path, filename, copy);
    second := f.SaveFileInPath(path, filename, copy);
  }

  /** The files, in order, are in the states `ms`. */
  predicate FilesAre(fs: seq<FileInfo>, ms: seq<FileMeta>)
    reads set f | f in fs
  {
    |fs| == |ms| && forall i :: 0 <= i < |fs| ==> fs[i].Meta() == ms[i]
  }

  class RequestParam {
    const name: string
    var values: seq<string>
    var files: seq<FileInfo>

    /** The value constructor: each value decoded once, in order; a null
        array gives no values. */
    constructor OfValues(name: string, values: Option<seq<string>>, decode: Decoder)
      ensures this.name == name && files == []
      ensures this.values == DecodeAll(values.GetOr([]), decode)
    {
      var decoded: seq<string> := [];
      if values.Some? {
        var vs := values.value;
        for i := 0 to |vs|
          invariant decoded == DecodeAll(vs[..i], decode)
        {
          decoded := decoded + [decode(vs[i])];
        }
        assert vs[..|vs|] == vs;
      }
      this.name := name;
      this.values := decoded;
      this.files := [];
    }

    /** The file constructor: the given files, in order; no values. */
    constructor OfFiles(name: string, files: Option<seq<FileInfo>>)
      ensures this.name == name && values == []
      ensures this.files == files.GetOr([])
    {
      this.name := name;
      this.values := [];
      this.files := files.GetOr([]);
    }

    /** getSingleValue: the value when there is exactly one, else null. */
    function SingleValue(): (r: Option<string>)
      reads this
      ensures r.Some? <==> |values| == 1
      ensures r.Some? ==> values == [r.value]
    {
      if |values| == 1 then Some(values[0]) else None
    }

    /** getSingleFile: the file when there is exactly one, else null. */
    function SingleFile(): (r: Option<FileInfo>)
      reads this
      ensures r.Some? <==> |files| == 1
      ensures r.Some? ==> files == [r.value]
    {
      if |files| == 1 then Some(files[0]) else None
    }

    /** getMultipleValues: a copy of the values, possibly empty. */
    function MultipleValues(): (r: seq<string>)
      reads this
      ensures |r| == |values| && forall i :: 0 <= i < |r| ==> r[i] == values[i]
    {
      values
    }

    /** getMultipleFiles: a copy of the files, possibly empty. */
    function MultipleFiles(): (r: seq<FileInfo>)
      reads this
      ensures |r| == |files| && forall i :: 0 <= i < |r| ==> r[i] == files[i]
    {
      files
    }

    predicate HasSingleFile()
      reads this
    {
      |files| == 1
    }

    predicate HasMultipleFiles()
      reads this
    {
      |files| > 1
    }

    predicate HasFile()
      reads this
    {
      HasSingleFile() || HasMultipleFiles()
    }

    predicate HasSingleValue()
      reads this
    {
      |values| == 1
    }

    predicate HasMultipleValues()
      reads this
    {
      |values| > 1
    }

    predicate HasValue()
      reads this
    {
      HasSingleValue() || HasMultipleValues()
    }

    predicate HasValueOrIsFile()
      reads this
    {
      HasValue() || HasFile()
    }
  }

  /** What the has* predicates mean in terms of counts, and how they agree
      with the single-value and single-file getters. */
  lemma HasBySize(p: RequestParam)
    ensures p.HasValue() <==> |p.values| >= 1
    ensures p.HasFile() <==> |p.files| >= 1
    ensures p.HasValueOrIsFile() <==> |p.values| + |p.files| >= 1
    ensures p.HasSingleValue() <==> p.SingleValue().Some?
    ensures p.HasSingleFile() <==> p.SingleFile().Some?
    ensures p.HasMultipleValues() ==> p.HasValue() && p.SingleValue().None?
    ensures p.HasMultipleFiles() ==> p.HasFile() && p.SingleFile().None?
  {
  }
}
