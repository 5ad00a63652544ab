/** AbstractView (src/jss/webframework/AbstractView.java): what a
    controller's job returns, a bag of optional fields read by the
    renderer. Concrete views live outside the core. */
module Views {

  import opened Wrappers
  import opened Http

  /** How the view's body is produced. */
  datatype ViewType = Jsp | StringContent | BytesContent | NoContent

  class AbstractView {
    var code: Option<int>
    var contentType: Option<string>
    var jspFile: Option<string>
    var jspPrependFile: Option<string>
    var jspAppendFile: Option<string>
    var content: Option<string>
    var contentBytes: Option<seq<byte>>
    const viewType: ViewType

    /** Every field other than the type starts out null. */
    constructor (viewType: ViewType)
      ensures this.viewType == viewType
      ensures code == None && contentType == None && content == None && contentBytes == None
      ensures jspFile == None && jspPrependFile == None && jspAppendFile == None
    {
      this.viewType := viewType;
      code := None;
      contentType := None;
      jspFile := None;
      jspPrependFile := None;
      jspAppendFile := None;
      content := None;
      contentBytes := None;
    }

    method SetCode(v: Option<int>)
      modifies this`code
      ensures code == v
    {
      code := v;
    }

    method SetContentType(v: Option<string>)
      modifies this`contentType
      ensures contentType == v
    {
      contentType := v;
    }

    method SetJspFile(v: Option<string>)
      modifies this`jspFile
      ensures jspFile == v
    {
      jspFile := v;
    }

    method SetJspPrependFile(v: Option<string>)
      modifies this`jspPrependFile
      ensures jspPrependFile == v
    {
      jspPrependFile := v;
    }

    method SetJspAppendFile(v: Option<string>)
      modifies this`jspAppendFile
      ensures jspAppendFile == v
    {
      jspAppendFile := v;
    }

    method SetContent(v: Option<string>)
      modifies this`content
      ensures content == v
    {
      content := v;
    }

    method SetContentBytes(v: Option<seq<byte>>)
      modifies this`contentBytes
      ensures contentBytes == v
    {
      contentBytes := v;
    }
  }
}
