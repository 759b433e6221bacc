/** The frontmatter skip at the start of whole-document formatting: the line
    from which paragraph detection begins. */
module Frontmatter {
  import opened Wrappers
  import opened Text
  import opened TextLines

  /** A line whose trimmed text starts with `---` opens or closes a
      frontmatter block. The test is a prefix test, so `----` and
      `--- title` count as well. */
  predicate IsDashDelimiter(text: string)
    ensures IsDashDelimiter(text) <==> StartsWith(text[LeadingWhitespace(text)..], "---")
  {
    TrimStartsWithIff(text, "---");
    StartsWith(Trim(text), "---")
  }

  /** Any whitespace, then `---`, then anything: always a delimiter. */
  lemma {:induction false} DashDelimiterPrefix(ws: string, rest: string)
    requires AllWhitespace(ws)
    ensures IsDashDelimiter(ws + "---" + rest)
  {
    var s := ws + "---" + rest;
    LeadingWhitespacePrefix(ws, "---" + rest);
    assert s == ws + ("---" + rest);
    assert s[|ws|..] == "---" + rest;
  }

  lemma {:induction false} LeadingWhitespacePrefix(ws: string, rest: string)
    requires AllWhitespace(ws)
    requires |rest| > 0 && !IsWhitespace(rest[0])
    ensures LeadingWhitespace(ws + rest) == |ws|
    decreases |ws|
  {
    if |ws| == 0 {
      assert ws + rest == rest;
    } else {
      assert (ws + rest)[1..] == ws[1..] + rest;
      LeadingWhitespacePrefix(ws[1..], rest);
    }
  }

  /** A longer dash run is a delimiter. */
  lemma LongDashRunIsDelimiter()
    ensures IsDashDelimiter("----")
  {
    DashDelimiterPrefix("", "-");
    assert "" + "---" + "-" == "----";
  }

  /** Text after the dashes does not matter. */
  lemma TitledDashRunIsDelimiter()
    ensures IsDashDelimiter("--- title")
  {
    DashDelimiterPrefix("", " title");
    assert "" + "---" + " title" == "--- title";
  }

  /** Surrounding whitespace does not matter. */
  lemma IndentedDashRunIsDelimiter()
    ensures IsDashDelimiter("  ---  ")
  {
    DashDelimiterPrefix("  ", "  ");
    assert "  " + "---" + "  " == "  ---  ";
  }

  /** Concrete non-delimiters: too few dashes, or a space inside the run. */
  lemma NotDashDelimiterExamples()
    ensures !IsDashDelimiter("--")
    ensures !IsDashDelimiter("- --")
  {
    assert LeadingWhitespace("--") == 0;
    assert LeadingWhitespace("- --") == 0;
    assert "- --"[..3] == "- -";
  }

  /** Declarative statement of where paragraph detection starts: line 0
      unless it opens a frontmatter block; otherwise the first later line
      that closes it, or the last line when none does. */
  ghost predicate IsContentStart(lines: seq<string>, n: int) {
    && 0 <= n < |lines|
    && if !IsDashDelimiter(lines[0]) then n == 0
       else if exists k :: 1 <= k < |lines| && IsDashDelimiter(lines[k]) then
         && 1 <= n
         && IsDashDelimiter(lines[n])
         && forall j :: 1 <= j < n ==> !IsDashDelimiter(lines[j])
       else n == |lines| - 1
  }

  /** The first line at or after `from` that closes the block, clamped to
      the last line when there is none. */
  function FirstCloserFrom(lines: seq<string>, from: nat): (n: nat)
    requires 1 <= from < |lines|
    ensures from <= n < |lines|
    ensures forall j :: from <= j < n ==> !IsDashDelimiter(lines[j])
    ensures IsDashDelimiter(lines[n]) || (n == |lines| - 1 && forall j :: from <= j < |lines| ==> !IsDashDelimiter(lines[j]))
    decreases |lines| - from
  {
    if IsDashDelimiter(lines[from]) || from == |lines| - 1 then from
    else FirstCloserFrom(lines, from + 1)
  }

  /** The intended start line of paragraph detection. */
  function ContentStart(lines: seq<string>): (n: nat)
    requires |lines| >= 1
    ensures IsContentStart(lines, n)
  {
    if !IsDashDelimiter(lines[0]) || |lines| == 1 then 0
    else FirstCloserFrom(lines, 1)
  }

  /** Only one line satisfies the declarative description. */
  lemma ContentStartUnique(lines: seq<string>, n: int)
    requires |lines| >= 1
    ensures IsContentStart(lines, n) <==> n == ContentStart(lines)
  {
  }

  /** Where the scan stopped and the line object it holds there. */
  datatype ScanStart = ScanStart(lineNum: int, line: MockTextLine)

  /** The scan of `GetStartEndInfoFile` as written. `trace` lists, in order,
      every line number passed to the line accessor. The read of line 1
      right after an opener is unconditional, so a one-line document whose
      line is an opener fails with line 1 out of range. The empty sequence
      fails on line 0; an editor document never has zero lines (an empty
      file is one empty line), so that case exists only in the model. */
  method ScanFrontmatter(lines: seq<string>) returns (r: Result<ScanStart, LineError>, trace: seq<int>)
    ensures |trace| >= 1 && forall i :: 0 <= i < |trace| ==> trace[i] == i
    ensures r.Failure? <==> |lines| == 0 || (|lines| == 1 && IsDashDelimiter(lines[0]))
    ensures r.Failure? ==> |trace| == |lines| + 1 && r.error == OutOfRange(|lines|)
    ensures r.Success? ==> && |lines| >= 1
                           && r.value.lineNum == ContentStart(lines)
                           && r.value.line == MockTextLine(lines, r.value.lineNum)
                           && |trace| == r.value.lineNum + 1
    ensures r.Success? && !IsDashDelimiter(lines[0]) ==> r.value.lineNum == 0 && trace == [0]
  {
    var maxLineNum := |lines| - 1;
    var midLineNum := 0;
    trace := [midLineNum];
    var first := LineAtFunc(lines, midLineNum);
    if first.Failure? {
      return Failure(first.error), trace;
    }
    var midLine := first.value;

    if IsDashDelimiter(LineText(midLine)) {
      midLineNum := midLineNum + 1;
      trace := trace + [midLineNum];
      var second := LineAtFunc(lines, midLineNum);
      if second.Failure? {
        return Failure(second.error), trace;
      }
      midLine := second.value;

      while midLineNum <= maxLineNum && !IsDashDelimiter(LineText(midLine))
        invariant 1 <= midLineNum <= maxLineNum + 1
        invariant midLine == MockTextLine(lines, if midLineNum <= maxLineNum then midLineNum else maxLineNum)
        invariant forall j :: 1 <= j < midLineNum && j <= maxLineNum ==> !IsDashDelimiter(lines[j])
        invariant |trace| == (if midLineNum <= maxLineNum then midLineNum else maxLineNum) + 1
        invariant forall i :: 0 <= i < |trace| ==> trace[i] == i
        decreases maxLineNum + 1 - midLineNum
      {
        midLineNum := midLineNum + 1;
        if midLineNum <= maxLineNum {
          trace := trace + [midLineNum];
          midLine := LineAtFunc(lines, midLineNum).value;
        }
      }

      if midLineNum > maxLineNum {
        midLineNum := midLineNum - 1;
      }
      ContentStartUnique(lines, midLineNum);
    }
    r := Success(ScanStart(midLineNum, midLine));
  }

  /** The one-line document `---` defeats the scan as written: it reads
      line 1, which does not exist, where the intended result is line 0. */
  lemma OneLineOpenerOutOfRange()
    ensures IsDashDelimiter("---")
    ensures LineAtFunc(["---"], 1) == Failure(OutOfRange(1))
    ensures ContentStart(["---"]) == 0
  {
  }

  /** The scan with the read after the opener guarded like the one in the
      loop: every document with at least one line gets a start line, and a
      one-line opener document clamps to its only line. */
  method SkipFrontmatter(lines: seq<string>) returns (r: Result<ScanStart, LineError>, trace: seq<int>)
    ensures r.Failure? <==> |lines| == 0
    ensures r.Failure? ==> r.error == OutOfRange(0) && trace == [0]
    ensures r.Success? ==> && r.value.lineNum == ContentStart(lines)
                           && r.value.line == MockTextLine(lines, r.value.lineNum)
                           && |trace| == r.value.lineNum + 1
    ensures forall i :: 0 <= i < |trace| ==> trace[i] == i
  {
    var maxLineNum := |lines| - 1;
    var midLineNum := 0;
    trace := [midLineNum];
    var first := LineAtFunc(lines, midLineNum);
    if first.Failure? {
      return Failure(first.error), trace;
    }
    var midLine := first.value;

    if IsDashDelimiter(LineText(midLine)) {
      midLineNum := midLineNum + 1;
      if midLineNum <= maxLineNum {
        trace := trace + [midLineNum];
        midLine := LineAtFunc(lines, midLineNum).value;
      }

      while midLineNum <= maxLineNum && !IsDashDelimiter(LineText(midLine))
        invariant 1 <= midLineNum <= maxLineNum + 1
        invariant midLine == MockTextLine(lines, if midLineNum <= maxLineNum then midLineNum else maxLineNum)
        invariant forall j :: 1 <= j < midLineNum && j <= maxLineNum ==> !IsDashDelimiter(lines[j])
        invariant |trace| == (if midLineNum <= maxLineNum then midLineNum else maxLineNum) + 1
        invariant forall i :: 0 <= i < |trace| ==> trace[i] == i
        decreases maxLineNum + 1 - midLineNum
      {
        midLineNum := midLineNum + 1;
        if midLineNum <= maxLineNum {
          trace := trace + [midLineNum];
          midLine := LineAtFunc(lines, midLineNum).value;
        }
      }

      if midLineNum > maxLineNum {
        midLineNum := midLineNum - 1;
      }
      ContentStartUnique(lines, midLineNum);
    }
    r := Success(ScanStart(midLineNum, midLine));
  }
}
