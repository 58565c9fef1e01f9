/** The audit result entity (src/audit_result.cpp). `AuditResult` is the
    object whose `addIssue` updates it in place; `Finding` is its value, the
    copy a QList<AuditResult> holds, so the cache, the results view and the
    main window all work on `Finding` values. */
module AuditResults {
  import opened Text
  import opened Markers

  /** The location part of a result. The header declares neither these fields
      nor the accessors main_window.cpp calls on them (getRuleId, getFilePath,
      getLine, getColumn, getEndColumn, hasLocationInfo), so they are given
      values here, with `hasInfo` standing for hasLocationInfo(). */
  datatype Location = Location(
    ruleId: string,
    filePath: string,
    line: int,
    column: int,
    endColumn: int,
    hasInfo: bool)

  const NoLocation := Location("", "", 0, 0, 0, false)

  /** A copy of an AuditResult: file name, issues in insertion order, the
      message built from them (getMessage) and its location. */
  datatype Finding = Finding(
    fileName: string,
    issues: seq<string>,
    message: string,
    location: Location)

  /** The message addIssue keeps: all issues joined by line breaks. */
  function MessageOf(issues: seq<string>): string
  {
    Join(issues, "\n")
  }

  const SummaryHead := "File: "
  const SummaryCount := "Issues found: "
  /** The text between the two markers. */
  const SummaryBreak := "\n" + SummaryCount
  /** "File: %1\nIssues found: %2" */
  const SummaryTemplate := SummaryHead + ['%', '1'] + SummaryBreak + ['%', '2']

  /** getSummary: the template's markers filled by two chained arg calls,
      first with the file name, then with the number of issues. */
  function Summary(f: Finding): string
  {
    Arg(Arg(SummaryTemplate, f.fileName), Decimal(|f.issues|))
  }

  /** The template's text around its markers holds no '%', and the text
      after %1 starts with no digit. */
  lemma TemplatePieces()
    ensures '%' !in SummaryHead && '%' !in SummaryBreak && !IsDigit(SummaryBreak[0])
  {
    forall i | 0 <= i < |SummaryBreak| ensures SummaryBreak[i] != '%' {
    }
  }

  lemma NoPercentConcat(x: string, y: string)
    requires '%' !in x && '%' !in y
    ensures '%' !in x + y
  {
  }

  /** The first arg call fills %1 with the name, whatever the name holds. */
  lemma NameInserted(name: string)
    ensures Arg(SummaryTemplate, name) == SummaryHead + name + SummaryBreak + ['%', '2']
  {
    TemplatePieces();
    ArgTwoMarkers(SummaryHead, '1', SummaryBreak, '2', name);
  }

  /** With a name without '%', the second arg call fills only %2. */
  lemma PlainNameFilled(name: string, d: string)
    requires '%' !in name
    ensures Arg(Arg(SummaryTemplate, name), d) == (SummaryHead + name) + ['\n'] + (SummaryCount + d)
  {
    NameInserted(name);
    TemplatePieces();
    NoPercentConcat(SummaryHead, name);
    NoPercentConcat(SummaryHead + name, SummaryBreak);
    var p := SummaryHead + name + SummaryBreak;
    ArgOneMarker(p, '2', d);
    assert p + d == (SummaryHead + name) + ['\n'] + (SummaryCount + d);
  }

  /** Every summary starts with "File: "; for a file name without '%' it is
      the two lines "File: <fileName>" and "Issues found: <number of issues>". */
  lemma SummaryShape(f: Finding)
    ensures HasPrefix(Summary(f), SummaryHead)
    ensures '%' !in f.fileName ==>
      Summary(f) == (SummaryHead + f.fileName) + ['\n'] + (SummaryCount + Decimal(|f.issues|))
  {
    NameInserted(f.fileName);
    TemplatePieces();
    var rest := f.fileName + SummaryBreak + ['%', '2'];
    assert SummaryHead + f.fileName + SummaryBreak + ['%', '2'] == SummaryHead + rest;
    ArgKeepsPlainPrefix(SummaryHead, rest, Decimal(|f.issues|));
    if '%' !in f.fileName {
      PlainNameFilled(f.fileName, Decimal(|f.issues|));
    }
  }

  /** A name ending in a one-digit marker %c: the second arg call puts the
      count there when c is at most 2, and in place of %2 only when c is at
      least 2. */
  lemma NameEndingInMarker(w: string, c: char, d: string)
    requires '%' !in w && IsDigit(c)
    ensures var v := DigitValue(c);
      Arg(Arg(SummaryTemplate, w + ['%', c]), d)
        == (SummaryHead + w) + (if v <= 2 then d else ['%', c]) + SummaryBreak + (if v >= 2 then d else ['%', '2'])
  {
    NameInserted(w + ['%', c]);
    TemplatePieces();
    NoPercentConcat(SummaryHead, w);
    assert SummaryHead + (w + ['%', c]) + SummaryBreak + ['%', '2'] == (SummaryHead + w) + ['%', c] + SummaryBreak + ['%', '2'];
    ArgTwoMarkers(SummaryHead + w, c, SummaryBreak, '2', d);
  }

  /** A name "x%1" with 3 issues: the count lands in the name, and the
      second line keeps its marker, "File: x3\nIssues found: %2". */
  lemma MarkerOneInName(f: Finding)
    requires f.fileName == "x%1" && |f.issues| == 3
    ensures Summary(f) == SummaryHead + "x3" + SummaryBreak + "%2"
  {
    assert f.fileName == "x" + ['%', '1'];
    NameEndingInMarker("x", '1', "3");
    assert Decimal(3) == "3";
  }

  /** A name "x%2" with 3 issues: the count lands in both places,
      "File: x3\nIssues found: 3". */
  lemma MarkerTwoInName(f: Finding)
    requires f.fileName == "x%2" && |f.issues| == 3
    ensures Summary(f) == SummaryHead + "x3" + SummaryBreak + "3"
  {
    assert f.fileName == "x" + ['%', '2'];
    NameEndingInMarker("x", '2', "3");
    assert Decimal(3) == "3";
  }

  /** The summary can be read back: for a file name without a line break or
      '%' it is exactly two lines, the first naming the file and the second
      ending in the decimal issue count. */
  lemma SummaryReadsBack(f: Finding)
    requires '\n' !in f.fileName && '%' !in f.fileName
    ensures var lines := Split(Summary(f), '\n');
      && |lines| == 2
      && lines[0] == SummaryHead + f.fileName
      && HasPrefix(lines[1], SummaryCount)
      && var digits := lines[1][|SummaryCount|..];
         (forall i :: 0 <= i < |digits| ==> IsDigit(digits[i])) && DecimalValue(digits) == |f.issues|
  {
    SummaryShape(f);
    TwoLinesReadBack(f.fileName, |f.issues|);
  }

  /** The two summary lines, split at the break between them. */
  lemma TwoLinesReadBack(name: string, n: nat)
    requires '\n' !in name
    ensures var lines := Split((SummaryHead + name) + ['\n'] + (SummaryCount + Decimal(n)), '\n');
      && |lines| == 2
      && lines[0] == SummaryHead + name
      && HasPrefix(lines[1], SummaryCount)
      && var digits := lines[1][|SummaryCount|..];
         (forall i :: 0 <= i < |digits| ==> IsDigit(digits[i])) && DecimalValue(digits) == n
  {
    var first := SummaryHead + name;
    var second := SummaryCount + Decimal(n);
    assert '\n' !in first by {
      forall i | 0 <= i < |first| ensures first[i] != '\n' {
        if i >= |SummaryHead| { assert first[i] == name[i - |SummaryHead|]; }
      }
    }
    assert '\n' !in second by {
      forall i | 0 <= i < |second| ensures second[i] != '\n' {
        if i >= |SummaryCount| { assert IsDigit(second[i]); }
      }
    }
    SplitConcat(first, second, '\n');
    SplitNoSeparator(second, '\n');
    assert second[|SummaryCount|..] == Decimal(n);
    DecimalRoundTrip(n);
  }

  class AuditResult {
    var fileName: string
    var issues: seq<string>
    var message: string
    var location: Location

    /** AuditResult(fileName): stores the name, starts with no issues. */
    constructor (fileName: string)
      ensures this.fileName == fileName && issues == [] && message == ""
      ensures location == NoLocation
    {
      this.fileName := fileName;
      issues := [];
      message := "";
      location := NoLocation;
    }

    /** The value a QList would copy. */
    function Value(): (f: Finding)
      reads this
      ensures f.fileName == fileName && f.issues == issues && f.message == message
      ensures f.location == location
    {
      Finding(fileName, issues, message, location)
    }

    ghost predicate Valid()
      reads this
    {
      message == MessageOf(issues)
    }

    /** addIssue: appends at the end and rebuilds the message from all issues. */
    method AddIssue(issue: string)
      modifies this
      ensures issues == old(issues) + [issue]
      ensures message == MessageOf(issues) && Valid()
      ensures old(Valid()) ==> message == if old(issues) == [] then issue else old(message) + "\n" + issue
      ensures fileName == old(fileName) && location == old(location)
    {
      JoinSnoc(issues, issue, "\n");
      issues := issues + [issue];
      message := MessageOf(issues);
    }

    function GetSummary(): (s: string)
      reads this
      ensures HasPrefix(s, SummaryHead)
      ensures '%' !in fileName ==> s == SummaryHead + fileName + "\n" + SummaryCount + Decimal(|issues|)
    {
      SummaryShape(Value());
      Summary(Value())
    }

    function GetFileName(): (name: string)
      reads this
      ensures name == fileName
    {
      fileName
    }

    function GetIssues(): (s: seq<string>)
      reads this
      ensures s == issues
    {
      issues
    }
  }
}
