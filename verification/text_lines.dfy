/** The in-memory stand-in for the editor's text line: an array of line
    texts plus the zero-based number of one of them. */
module TextLines {
  import opened Wrappers
  import opened Text

  /** The error thrown for an out-of-range line number. */
  datatype LineError = OutOfRange(line: int)

  /** A line of an in-memory document. `lineNum` names the line within
      `lines`; only lines obtained in range carry text. */
  datatype MockTextLine = MockTextLine(lines: seq<string>, lineNum: int)

  predicate Valid(l: MockTextLine) {
    0 <= l.lineNum < |l.lines|
  }

  /** `lineAtFunc`: the line numbered `line` of the same document, or the
      out-of-range error when `line` is below 0 or above the last line
      number `|lines| - 1`. */
  function LineAtFunc(lines: seq<string>, line: int): (r: Result<MockTextLine, LineError>)
    ensures r.Failure? <==> line < 0 || line > |lines| - 1
    ensures r.Failure? ==> r.error == OutOfRange(line)
    ensures r.Success? ==> Valid(r.value) && r.value.lines == lines
    ensures r.Success? ==> LineNumber(r.value) == line && LineText(r.value) == lines[line]
  {
    if line < 0 || line > |lines| - 1 then Failure(OutOfRange(line))
    else Success(MockTextLine(lines, line))
  }

  /** The zero-based line number; a valid line's number names one of the
      document's lines. */
  function LineNumber(l: MockTextLine): (r: int)
    ensures Valid(l) <==> 0 <= r <= |l.lines| - 1
  {
    l.lineNum
  }

  /** The text of the line, without line separators: one of the document's
      lines. */
  function LineText(l: MockTextLine): (r: string)
    requires Valid(l)
    ensures r in l.lines
  {
    l.lines[LineNumber(l)]
  }

  /** Asking the document for a valid line's own number gives that line
      back. */
  lemma LineAtFuncRoundTrip(l: MockTextLine)
    requires Valid(l)
    ensures LineAtFunc(l.lines, LineNumber(l)) == Success(l)
  {
  }

  /** The offset of the first non-whitespace character, found as the source
      does: match `/\S/`, then look the matched character up with `indexOf`;
      the text length when the line is all whitespace. */
  function FirstNonWhitespaceCharacterIndex(l: MockTextLine): (r: nat)
    requires Valid(l)
    ensures r <= |LineText(l)|
    ensures r == LeadingWhitespace(LineText(l))
    ensures r == |LineText(l)| <==> AllWhitespace(LineText(l))
    ensures AllWhitespace(LineText(l)[..r])
    ensures r < |LineText(l)| ==> !IsWhitespace(LineText(l)[r])
  {
    var text := LineText(l);
    match MatchNonWhitespace(text)
    case Some(c) =>
      var i := IndexOf(text, c);
      i
    case None =>
      LeadingWhitespaceAllIff(text);
      |text|
  }

  /** Shorthand for `FirstNonWhitespaceCharacterIndex(l) == |text|`. */
  function IsEmptyOrWhitespace(l: MockTextLine): (r: bool)
    requires Valid(l)
    ensures r <==> AllWhitespace(LineText(l))
    ensures |LineText(l)| == 0 ==> r
  {
    FirstNonWhitespaceCharacterIndex(l) == |LineText(l)|
  }
}
