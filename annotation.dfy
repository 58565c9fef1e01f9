/** The editor annotation mapper of src/main_window.cpp: which results are
    drawn (updateAuditResults), the walk down to the result's line, the
    severity keywords, the length of the highlighted span, and the three
    selections highlightSecurityIssue adds per result. The document is the
    list of its lines (QTextDocument blocks). */
module Annotation {
  import opened Wrappers
  import opened Text
  import opened AuditResults
  import opened ResultsView

  // ---------------------------------------------------------------------
  // Severity

  datatype Severity = Error | Warning | Info

  /** The keyword test: "error" in the rule id or message, else "warning" in
      either or "cwe" in the message, all case-insensitive. */
  function Classify(ruleId: string, message: string): Severity
  {
    if ContainsIgnoringCase(ruleId, "error") || ContainsIgnoringCase(message, "error") then Error
    else if ContainsIgnoringCase(ruleId, "warning") || ContainsIgnoringCase(message, "warning")
         || ContainsIgnoringCase(message, "CWE") then Warning
    else Info
  }

  lemma LowerKeywords()
    ensures Lower("error") == "error" && Lower("warning") == "warning" && Lower("CWE") == "cwe"
  {
  }

  /** Classify in terms of where the keywords occur in the lower-cased texts. */
  lemma ClassifyMeaning(ruleId: string, message: string)
    ensures var e := Occurs(Lower(ruleId), "error") || Occurs(Lower(message), "error");
      var w := Occurs(Lower(ruleId), "warning") || Occurs(Lower(message), "warning") || Occurs(Lower(message), "cwe");
      && (Classify(ruleId, message) == Error <==> e)
      && (Classify(ruleId, message) == Warning <==> !e && w)
      && (Classify(ruleId, message) == Info <==> !e && !w)
  {
    LowerKeywords();
    ContainsIsOccurs(Lower(ruleId), "error");
    ContainsIsOccurs(Lower(message), "error");
    ContainsIsOccurs(Lower(ruleId), "warning");
    ContainsIsOccurs(Lower(message), "warning");
    ContainsIsOccurs(Lower(message), "cwe");
  }

  // ---------------------------------------------------------------------
  // Which results are highlighted

  /** The filter of updateAuditResults: a location, a rule id, and the file
      names equal or the result's path containing the open file's name. */
  predicate IsForOpenFile(f: Finding, currentFilePath: string)
  {
    var open := FileName(currentFilePath);
    && f.location.hasInfo
    && f.location.ruleId != ""
    && (open == FileName(f.location.filePath) || Contains(f.location.filePath, open))
  }

  /** The filter accepts exactly the located, named results whose file name
      matches or whose path has the open file's name somewhere in it. */
  lemma IsForOpenFileMeaning(f: Finding, currentFilePath: string)
    ensures IsForOpenFile(f, currentFilePath) <==>
      && f.location.hasInfo && f.location.ruleId != ""
      && (FileName(currentFilePath) == FileName(f.location.filePath)
          || Occurs(f.location.filePath, FileName(currentFilePath)))
  {
    ContainsIsOccurs(f.location.filePath, FileName(currentFilePath));
  }

  /** The substring test also accepts a different file whose path contains the name. */
  lemma OtherFileContainingName(f: Finding)
    requires f.location.hasInfo && f.location.ruleId != ""
    requires f.location.filePath == "/src/data.c"
    ensures IsForOpenFile(f, "/src/a.c")
  {
    assert NameStart("/src/") == 5;
    assert "/src/a.c"[..7] == "/src/a." && "/src/a."[..6] == "/src/a" && "/src/a"[..5] == "/src/";
    assert NameStart("/src/a.c") == 5;
    assert FileName("/src/a.c") == "a.c";
    assert HasPrefix(f.location.filePath[8..], "a.c");
    ContainsIsOccurs(f.location.filePath, "a.c");
  }

  // ---------------------------------------------------------------------
  // The line walk

  /** The block the cursor reaches after `line - 1` moves Down from the start,
      or None when a move fails because the document ends first. */
  function TargetBlock(blockCount: nat, line: int): (r: Option<nat>)
    ensures r.Some? ==> r.value < blockCount
    ensures r.Some? <==> blockCount >= 1 && line <= blockCount
    ensures r.Some? ==> r.value == if line > 1 then line - 1 else 0
  {
    var moves := if line > 1 then line - 1 else 0;
    if moves < blockCount then Some(moves) else None
  }

  /** The `for` loop of highlightSecurityIssue that moves Down `line - 1` times. */
  method WalkToLine(blockCount: nat, line: int) returns (found: bool, block: nat)
    requires blockCount >= 1
    ensures found <==> TargetBlock(blockCount, line).Some?
    ensures found ==> block == TargetBlock(blockCount, line).value
  {
    block := 0;
    var i := 1;
    while i < line
      invariant 1 <= i && (i <= line || i == 1)
      invariant block == i - 1 && block < blockCount
      decreases line - i
    {
      if block + 1 >= blockCount {
        return false, block;
      }
      block := block + 1;
      i := i + 1;
    }
    found := true;
  }

  // ---------------------------------------------------------------------
  // The selection length heuristic

  predicate IsLetter(c: char)
  {
    'a' <= c <= 'z' || 'A' <= c <= 'Z'
  }

  /** QChar::isLetterOrNumber or '_'. */
  predicate IsIdentChar(c: char)
  {
    IsLetter(c) || IsDigit(c) || c == '_'
  }

  predicate IsQuote(c: char)
  {
    c == '"' || c == '\''
  }

  /** The identifier loop: grows the span while the next character is a
      letter, a digit or '_'. */
  function IdentLength(line: string, p: nat, len: nat): (r: nat)
    requires 1 <= len && p + len <= |line|
    requires forall j :: p <= j < p + len ==> IsIdentChar(line[j])
    ensures len <= r <= |line| - p
    ensures forall j :: p <= j < p + r ==> IsIdentChar(line[j])
    ensures p + r == |line| || !IsIdentChar(line[p + r])
    decreases |line| - p - len
  {
    if p + len < |line| && IsIdentChar(line[p + len]) then IdentLength(line, p, len + 1) else len
  }

  /** +1 for '(', -1 for ')'. */
  function Delta(c: char): int
  {
    if c == '(' then 1 else if c == ')' then -1 else 0
  }

  /** Opening minus closing parentheses in positions a up to k of the line. */
  function Depth(line: string, a: nat, k: nat): int
    requires a <= k <= |line|
    decreases k - a
  {
    if k == a then 0 else Depth(line, a, k - 1) + Delta(line[k - 1])
  }

  /** The group opened at position a is still open after position k. */
  predicate OpenThrough(line: string, a: nat, k: nat)
    requires a <= k <= |line|
  {
    Depth(line, a, k) > 0
  }

  /** The group opened at position a stays open up to position r. */
  predicate OpenUntil(line: string, a: nat, r: nat)
    requires a <= r <= |line|
  {
    forall k :: a < k < r ==> OpenThrough(line, a, k)
  }

  /** The parenthesis loop, on positions of the line: the scan has reached
      position e with depth d and stops just after the character that brings
      the depth back to 0, or at the end of the line. */
  function ParenEnd(line: string, e: nat, d: int): (r: nat)
    requires e <= |line|
    ensures e <= r <= |line|
    decreases |line| - e
  {
    if e < |line| then
      var c := line[e];
      if c == '(' then ParenEnd(line, e + 1, d + 1)
      else if c == ')' then
        if d - 1 == 0 then e + 1 else ParenEnd(line, e + 1, d - 1)
      else ParenEnd(line, e + 1, d)
    else e
  }

  /** An open group that is still open after position e stays open one step further. */
  lemma OpenUntilStep(line: string, a: nat, e: nat)
    requires a <= e < |line|
    requires OpenUntil(line, a, e) && (e == a || OpenThrough(line, a, e))
    ensures OpenUntil(line, a, e + 1)
  {
  }

  /** Started at a '(' in position a, the scan ends just after the first
      ')' that balances the group, or at the end of the line if none does;
      the group is open at every position before. */
  lemma {:induction false} ParenEndMeaning(line: string, a: nat, e: nat, d: int)
    requires a <= e <= |line|
    requires e == a ==> a < |line| && line[a] == '('
    requires d == Depth(line, a, e)
    requires OpenUntil(line, a, e) && (e == a || OpenThrough(line, a, e))
    ensures var r := ParenEnd(line, e, d);
      && OpenUntil(line, a, r)
      && (r == |line| || (r > a && line[r - 1] == ')' && Depth(line, a, r) == 0))
    decreases |line| - e
  {
    if e < |line| {
      var c := line[e];
      OpenUntilStep(line, a, e);
      if c == '(' {
        ParenEndMeaning(line, a, e + 1, d + 1);
      } else if c == ')' {
        if d - 1 != 0 {
          ParenEndMeaning(line, a, e + 1, d - 1);
        }
      } else {
        ParenEndMeaning(line, a, e + 1, d);
      }
    }
  }

  /** A quote at offset j - 1 of the span that closes it: the same quote
      character, not preceded by a backslash. */
  predicate ClosesAt(line: string, p: nat, quote: char, j: nat)
    requires 2 <= j && p + j <= |line|
  {
    line[p + j - 1] == quote && line[p + j - 2] != '\\'
  }

  /** The string literal loop: grows the span up to and including the first
      closing quote, or to the end of the line. */
  function QuoteLength(line: string, p: nat, len: nat, quote: char): (r: nat)
    requires 1 <= len && p + len <= |line|
    ensures len <= r <= |line| - p
    ensures forall j :: len < j < r ==> !ClosesAt(line, p, quote, j)
    ensures p + r == |line| || (r > len && ClosesAt(line, p, quote, r))
    decreases |line| - p - len
  {
    if p + len < |line| then
      if line[p + len] == quote && line[p + len - 1] != '\\' then len + 1
      else QuoteLength(line, p, len + 1, quote)
    else len
  }

  /** The span the heuristic picks at offset p before the minimum is applied. */
  function RawLength(line: string, p: nat): (r: nat)
    requires p <= |line|
    ensures r <= |line| - p || (p == |line| && r == 1)
  {
    if p < |line| then
      var c := line[p];
      if IsLetter(c) || c == '_' then
        var k := IdentLength(line, p, 1);
        if p + k < |line| && line[p + k] == '(' then ParenEnd(line, p + k, 0) - p else k
      else if IsQuote(c) then QuoteLength(line, p, 1, c)
      else 1
    else 1
  }

  function Min(a: int, b: int): int
  {
    if a < b then a else b
  }

  /** The heuristic with its minimum: below 3 it becomes min(10, rest of line). */
  function HeuristicLength(line: string, p: nat): int
    requires p <= |line|
  {
    var k := RawLength(line, p);
    if k < 3 then Min(10, |line| - p) else k
  }

  /** The span length: the reported end column when it lies past the column,
      the heuristic otherwise. */
  function SpanLength(line: string, p: nat, column: int, endColumn: int): (r: nat)
    requires p <= |line|
  {
    if endColumn > column then endColumn - column
    else HeuristicLength(line, p)
  }

  /** The heuristic never runs past the line, and covers at least three
      characters or the rest of the line, whichever is less. */
  lemma HeuristicBounds(line: string, p: nat)
    requires p <= |line|
    ensures Min(3, |line| - p) <= HeuristicLength(line, p) <= |line| - p
  {
  }

  /** With an end column past the column no heuristic is applied. */
  lemma ReportedSpan(line: string, p: nat, column: int, endColumn: int)
    requires p <= |line| && endColumn > column
    ensures SpanLength(line, p, column, endColumn) == endColumn - column
  {
  }

  /** At an identifier the span covers the whole identifier; when it is
      followed by '(' it extends through the ')' that balances it (or to the
      end of the line), the group staying open until then. */
  lemma IdentifierSpan(line: string, p: nat)
    requires p < |line| && (IsLetter(line[p]) || line[p] == '_')
    ensures var id := IdentLength(line, p, 1);
      var r := RawLength(line, p);
      && (forall j :: p <= j < p + id ==> IsIdentChar(line[j]))
      && (p + id == |line| || !IsIdentChar(line[p + id]))
      && (if p + id < |line| && line[p + id] == '(' then
            && id < r <= |line| - p
            && OpenUntil(line, p + id, p + r)
            && (p + r == |line| || (line[p + r - 1] == ')' && Depth(line, p + id, p + r) == 0))
          else r == id)
  {
    var id := IdentLength(line, p, 1);
    if p + id < |line| && line[p + id] == '(' {
      ParenEndMeaning(line, p + id, p + id, 0);
    }
  }

  /** At a quote the span reaches the first unescaped identical quote, or the end of the line. */
  lemma QuoteSpan(line: string, p: nat)
    requires p < |line| && IsQuote(line[p])
    ensures var r := RawLength(line, p);
      && 1 <= r <= |line| - p
      && (forall j :: 1 < j < r ==> !ClosesAt(line, p, line[p], j))
      && (p + r == |line| || (r > 1 && ClosesAt(line, p, line[p], r)))
  {
  }

  /** A call at the column is selected through its closing parenthesis. */
  lemma CallSpanExample()
    ensures SpanLength("  f(x);", 2, 3, 0) == 4
  {
    var line := "  f(x);";
    assert IdentLength(line, 2, 1) == 1;
    assert ParenEnd(line, 3, 0) == ParenEnd(line, 4, 1) == ParenEnd(line, 5, 1) == 6;
  }

  /** A backslash-escaped quote does not end the string literal. */
  lemma EscapedQuoteExample()
    ensures SpanLength("\"\\\"\";", 0, 1, 0) == 4
  {
    var line := "\"\\\"\";";
    assert QuoteLength(line, 0, 1, '"') == QuoteLength(line, 0, 2, '"') == QuoteLength(line, 0, 3, '"') == 4;
  }

  /** The identifier loop of highlightSecurityIssue. */
  method ScanIdentifier(line: string, p: nat) returns (len: nat)
    requires p < |line|
    requires IsIdentChar(line[p])
    ensures len == IdentLength(line, p, 1)
  {
    len := 1;
    while p + len < |line| && IsIdentChar(line[p + len])
      invariant 1 <= len && p + len <= |line|
      invariant forall j :: p <= j < p + len ==> IsIdentChar(line[j])
      invariant IdentLength(line, p, len) == IdentLength(line, p, 1)
      decreases |line| - p - len
    {
      len := len + 1;
    }
  }

  /** The parenthesis loop of highlightSecurityIssue, from the '(' at p + len0. */
  method ScanGroup(line: string, p: nat, len0: nat) returns (len: nat)
    requires p + len0 <= |line|
    ensures len == ParenEnd(line, p + len0, 0) - p
  {
    len := len0;
    var parenCount := 0;
    while p + len < |line|
      invariant len0 <= len && p + len <= |line|
      invariant ParenEnd(line, p + len, parenCount) == ParenEnd(line, p + len0, 0)
      decreases |line| - p - len
    {
      var c := line[p + len];
      len := len + 1;
      if c == '(' {
        parenCount := parenCount + 1;
      } else if c == ')' {
        parenCount := parenCount - 1;
        if parenCount == 0 {
          break;
        }
      }
    }
  }

  /** The string literal loop of highlightSecurityIssue. */
  method ScanQuote(line: string, p: nat) returns (len: nat)
    requires p < |line|
    ensures len == QuoteLength(line, p, 1, line[p])
  {
    var quote := line[p];
    len := 1;
    while p + len < |line|
      invariant 1 <= len && p + len <= |line|
      invariant QuoteLength(line, p, len, quote) == QuoteLength(line, p, 1, quote)
      decreases |line| - p - len
    {
      var c := line[p + len];
      len := len + 1;
      if c == quote && line[p + len - 2] != '\\' {
        break;
      }
    }
  }

  /** How highlightSecurityIssue computes selectionLength. */
  method SelectionLength(line: string, p: nat, column: int, endColumn: int) returns (len: int)
    requires p <= |line|
    ensures len == SpanLength(line, p, column, endColumn)
  {
    if endColumn > column {
      return endColumn - column;
    }
    len := 1;
    if p < |line| {
      var c := line[p];
      if IsLetter(c) || c == '_' {
        len := ScanIdentifier(line, p);
        if p + len < |line| && line[p + len] == '(' {
          len := ScanGroup(line, p, len);
        }
      } else if IsQuote(c) {
        len := ScanQuote(line, p);
      }
    }
    assert len == RawLength(line, p);
    if len < 3 {
      len := Min(10, |line| - p);
    }
  }

  // ---------------------------------------------------------------------
  // The three selections

  /** Whole-line band, the specific span, and the 2-character margin marker. */
  datatype Layer = WholeLine | Span | Margin

  /** The fields of the span's tooltip: rule, first line of the message, line, column. */
  datatype Tooltip = NoTooltip | Tooltip(ruleId: string, description: string, line: int, column: int)

  /** An extra selection as the model records it: the block the cursor
      starts on, the start within that block, the nominal length, its kind
      and its severity styling. Qt's cursor, moved Right with KeepAnchor,
      runs on past the end of the block into the following lines, up to the
      end of the document; the model keeps the nominal length. */
  datatype Selection = Selection(block: nat, start: nat, length: nat, layer: Layer, severity: Severity, tooltip: Tooltip)

  /** Where the specific cursor starts in its line: column - 1, or 0 without a column. */
  function StartPos(loc: Location): nat
  {
    if loc.column > 0 then loc.column - 1 else 0
  }

  /** The column lies within the line the result names (Qt would otherwise
      move the cursor on into the next line). */
  predicate ColumnFits(doc: seq<string>, f: Finding)
  {
    var t := TargetBlock(|doc|, f.location.line);
    t.None? || StartPos(f.location) <= |doc[t.value]|
  }

  /** The selections highlightSecurityIssue adds for one result. */
  function Highlights(doc: seq<string>, f: Finding): seq<Selection>
    requires ColumnFits(doc, f)
  {
    var loc := f.location;
    if !loc.hasInfo then []
    else match TargetBlock(|doc|, loc.line)
      case None => []
      case Some(b) =>
        var text := doc[b];
        var severity := Classify(loc.ruleId, f.message);
        var p := StartPos(loc);
        [ Selection(b, 0, |text|, WholeLine, severity, NoTooltip),
          Selection(b, p, SpanLength(text, p, loc.column, loc.endColumn), Span, severity,
                    Tooltip(loc.ruleId, FirstLine(f.message), loc.line, loc.column)),
          Selection(b, 0, 2, Margin, severity, NoTooltip) ]
  }

  /** A located result within the document yields exactly three selections on
      its line, in the order line band, span, margin, all with its severity;
      any other result yields none. */
  lemma HighlightsShape(doc: seq<string>, f: Finding)
    requires |doc| >= 1 && ColumnFits(doc, f)
    ensures var h := Highlights(doc, f);
      && (|h| == 3 <==> f.location.hasInfo && f.location.line <= |doc|)
      && (|h| != 3 ==> h == [])
      && (|h| == 3 ==>
            var b := if f.location.line > 1 then f.location.line - 1 else 0;
            && b < |doc|
            && h[0].layer == WholeLine && h[1].layer == Span && h[2].layer == Margin
            && h[0].block == h[1].block == h[2].block == b
            && h[0].start == 0 && h[0].length == |doc[b]|
            && h[1].start == StartPos(f.location)
            && h[2].start == 0 && h[2].length == 2
            && h[0].severity == h[1].severity == h[2].severity == Classify(f.location.ruleId, f.message))
  {
  }

  /** highlightSecurityIssue without its side effects: the line walk, the
      severity and the span length, giving the three new selections. */
  method ComputeHighlights(doc: seq<string>, f: Finding) returns (sels: seq<Selection>)
    requires |doc| >= 1 && ColumnFits(doc, f)
    ensures sels == Highlights(doc, f)
  {
    var loc := f.location;
    if !loc.hasInfo {
      return [];
    }
    var found, b := WalkToLine(|doc|, loc.line);
    if !found {
      return [];
    }
    var text := doc[b];
    var severity := Classify(loc.ruleId, f.message);
    var p := StartPos(loc);
    var len := SelectionLength(text, p, loc.column, loc.endColumn);
    sels := [ Selection(b, 0, |text|, WholeLine, severity, NoTooltip),
              Selection(b, p, len, Span, severity, Tooltip(loc.ruleId, FirstLine(f.message), loc.line, loc.column)),
              Selection(b, 0, 2, Margin, severity, NoTooltip) ];
  }

  /** Every result that will be drawn, one for the open file, fits its line. */
  predicate AllColumnsFit(doc: seq<string>, results: seq<Finding>, currentFilePath: string)
  {
    forall i :: 0 <= i < |results| && IsForOpenFile(results[i], currentFilePath) ==> ColumnFits(doc, results[i])
  }

  /** All selections updateAuditResults leaves behind: the highlights of the
      results for the open file, in result order. */
  function Annotations(results: seq<Finding>, currentFilePath: string, doc: seq<string>): seq<Selection>
    requires AllColumnsFit(doc, results, currentFilePath)
  {
    if |results| == 0 then []
    else
      var last := results[|results| - 1];
      Annotations(results[..|results| - 1], currentFilePath, doc)
        + (if IsForOpenFile(last, currentFilePath) then Highlights(doc, last) else [])
  }

  /** How many results are drawn: for the open file and on an existing line. */
  function DrawnCount(results: seq<Finding>, currentFilePath: string, doc: seq<string>): nat
  {
    if |results| == 0 then 0
    else
      var last := results[|results| - 1];
      DrawnCount(results[..|results| - 1], currentFilePath, doc)
        + (if IsForOpenFile(last, currentFilePath) && last.location.line <= |doc| then 1 else 0)
  }

  /** Three selections per drawn result, and every selection lies on a line of the document. */
  lemma {:induction false} AnnotationsCount(results: seq<Finding>, currentFilePath: string, doc: seq<string>)
    requires |doc| >= 1 && AllColumnsFit(doc, results, currentFilePath)
    ensures |Annotations(results, currentFilePath, doc)| == 3 * DrawnCount(results, currentFilePath, doc)
    ensures forall s :: s in Annotations(results, currentFilePath, doc) ==> s.block < |doc|
  {
    if |results| > 0 {
      var init := results[..|results| - 1];
      var last := results[|results| - 1];
      assert AllColumnsFit(doc, init, currentFilePath) by {
        forall i | 0 <= i < |init| && IsForOpenFile(init[i], currentFilePath) ensures ColumnFits(doc, init[i]) {
          assert init[i] == results[i];
        }
      }
      AnnotationsCount(init, currentFilePath, doc);
      if IsForOpenFile(last, currentFilePath) {
        HighlightsShape(doc, last);
      }
    }
  }

  /** Results for other files, or without location or rule id, draw nothing. */
  lemma {:induction false} NothingForOtherFiles(results: seq<Finding>, currentFilePath: string, doc: seq<string>)
    requires forall i :: 0 <= i < |results| ==> !IsForOpenFile(results[i], currentFilePath)
    ensures AllColumnsFit(doc, results, currentFilePath)
    ensures Annotations(results, currentFilePath, doc) == []
  {
    if |results| > 0 {
      var init := results[..|results| - 1];
      assert forall i :: 0 <= i < |init| ==> init[i] == results[i];
      NothingForOtherFiles(init, currentFilePath, doc);
    }
  }

  /** The part of the main window the mapper works on. */
  class MainWindow {
    var currentFilePath: string
    /** The editor's text, one string per line (QTextDocument block). */
    var document: seq<string>
    /** The editor's extra selections (setExtraSelections). */
    var extraSelections: seq<Selection>
    var currentHighlights: seq<Selection>
    var resultsView: AuditResultsView

    constructor (currentFilePath: string, document: seq<string>, resultsView: AuditResultsView)
      requires |document| >= 1
      ensures this.currentFilePath == currentFilePath && this.document == document
      ensures this.resultsView == resultsView
      ensures extraSelections == [] && currentHighlights == []
    {
      this.currentFilePath := currentFilePath;
      this.document := document;
      this.resultsView := resultsView;
      extraSelections := [];
      currentHighlights := [];
    }

    /** clearSecurityHighlights: empties both selection lists. */
    method ClearSecurityHighlights()
      modifies this
      ensures currentHighlights == [] && extraSelections == []
      ensures currentFilePath == old(currentFilePath) && document == old(document)
      ensures resultsView == old(resultsView)
    {
      currentHighlights := [];
      extraSelections := [];
    }

    /** highlightSecurityIssue: appends the result's selections after the
        existing ones, in both lists. */
    method HighlightSecurityIssue(f: Finding)
      requires |document| >= 1 && ColumnFits(document, f)
      modifies this
      ensures currentFilePath == old(currentFilePath) && document == old(document)
      ensures currentHighlights == old(currentHighlights) + Highlights(document, f)
      ensures extraSelections == old(extraSelections) + Highlights(document, f)
      ensures resultsView == old(resultsView)
    {
      var sels := ComputeHighlights(document, f);
      currentHighlights := currentHighlights + sels;
      extraSelections := extraSelections + sels;
    }

    /** updateAuditResults: clears the highlights, shows the results in the
        results view, then highlights each result for the open file. */
    method UpdateAuditResults(results: seq<Finding>)
      requires |document| >= 1 && AllColumnsFit(document, results, currentFilePath)
      modifies this, resultsView
      ensures resultsView == old(resultsView)
      ensures currentFilePath == old(currentFilePath) && document == old(document)
      ensures currentHighlights == Annotations(results, currentFilePath, document)
      ensures extraSelections == currentHighlights
      ensures resultsView.currentResults == results && resultsView.labels == Labels(results)
    {
      ClearSecurityHighlights();
      resultsView.DisplayResults(results);
      var i := 0;
      while i < |results|
        invariant 0 <= i <= |results|
        invariant resultsView == old(resultsView)
        invariant currentFilePath == old(currentFilePath) && document == old(document)
        invariant resultsView.currentResults == results && resultsView.labels == Labels(results)
        invariant AllColumnsFit(document, results[..i], currentFilePath)
        invariant currentHighlights == extraSelections == Annotations(results[..i], currentFilePath, document)
      {
        assert results[..i + 1][..i] == results[..i];
        if IsForOpenFile(results[i], currentFilePath) {
          HighlightSecurityIssue(results[i]);
        }
        i := i + 1;
      }
      assert results[..i] == results;
    }
  }
}
