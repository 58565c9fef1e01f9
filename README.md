# CoreTrace IDE core, modelled in Dafny

CoreTrace is a Qt desktop IDE that runs the `ctrace` analysis command on
the open C/C++ file and shows what it reports. This project models and
verifies the part of the IDE that decides things:

- **The audit pipeline** (`AuditService`, `AuditCache`, `Parser`). It
  builds the cache key `file|options` and returns a non-empty cached list
  as it is. Otherwise it runs the CLI, parses its output and stores the
  parsed list under the key.
- **The result entity** (`AuditResult`) and its summary text.
- **The results panel** (`AuditResultsView`): the list of label texts it
  lays out.
- **The editor annotation mapper** in `MainWindow`:
  - which results belong to the open file;
  - the walk down to the result's line;
  - the case-insensitive severity keywords;
  - the span heuristic (identifier, call with parentheses, string
    literal, minimum length);
  - the three extra selections each result adds.
- **The two option widgets** (`CliOptionsPanel`, `CliOptionsDialog`):
  - the interlock between the "All" box and the individual boxes;
  - the verbose spin box;
  - the option string each builds.
- **The stub `ctrace-cli.c`**: its `memcmp` prefix dispatch and its five
  constant JSON outputs.
- **Projects** (`Project`, `ProjectManager`): a duplicate-free file list,
  and opening a directory as a project.
- **The update checker** (`UpdateService`):
  - the observer registry;
  - the decision taken on a version reply;
  - the download percentage.
- **The line-number gutter** (`LineNumberArea`): which numbers a paint
  draws, and where.

Entities the source updates in place are classes with `modifies` clauses.
They are `AuditResult`, `AuditCache`, `AuditService`, `AuditResultsView`,
`MainWindow`, both option widgets, `Project`, `ProjectManager`,
`UpdateService` and `LineNumberArea`. Each of their methods is tied to a
specification function of the old state, and the properties are proved
about those functions.

A `QList<AuditResult>` holds copies, so the cache, the view and the main
window work on `Finding` values.

The shared modules are:

- `Text`: Qt string operations over `seq<char>`;
- `Lists`: `QList::removeAll` and contains-then-append;
- `CInts`: C++ truncating division and the 32-bit `int` cast;
- `Markers`: `QString::arg` with one argument, which finds the lowest
  place marker (`%1` to `%99`, optionally `%L`) and replaces every marker
  with that number.

Several things are parameters rather than modelled:

- The CLI run (`CTraceCLI::execute`) is a function parameter.
- A directory's existence, kind and file listing are parameters of
  `OpenProject`.
- A network reply arrives already decoded.
- The editor's block count, font height and scroll position are
  parameters of `PaintEvent`.

Where the prose documentation and the code disagree, the model follows
the code:

- The "CWE" keyword is matched case-insensitively, as the code does.
- The shipped parser returns the empty list for every output, so the
  cache never hits.
- The dialog's verbose level starts at 1, the panel's at 0.
- `getSummary` is documented as "File: <fileName>\nIssues found: <n>".
  It is built by two chained `arg` calls, and the second call also
  substitutes a place marker that came in with the file name. So a name
  holding "%1" or "%2" takes the issue count in its place. The model
  substitutes as the code does.

## Model

| member | source | states |
|---|---|---|
| Text.JoinSnoc | src/audit_result.cpp:25-27 | joining one more item adds exactly one separator and the item at the end |
| Text.SplitJoin | src/cli_options_panel.cpp:128 | splitting a joined list on the separator gives the items back when no item holds the separator |
| Text.SplitConcat | src/main_window.cpp:793 | splitting `w + sep + rest`, with no separator in `w`, gives `w` followed by the pieces of `rest` |
| Text.JoinEmpty | src/cli_options_panel.cpp:128 | a join of non-empty items is empty exactly when there are no items |
| Text.ContainsIsOccurs | src/main_window.cpp:458 | the left-to-right `contains` search succeeds exactly when the word occurs at some position |
| Text.Lower | src/main_window.cpp:658-662 | case folding keeps the length and folds each character |
| Text.Decimal | src/audit_result.cpp:40 | the decimal rendering of a number is non-empty and all digits |
| Text.DecimalRoundTrip | src/audit_result.cpp:40 | reading the decimal rendering back gives the number |
| Text.FileNameMeaning | src/main_window.cpp:455-456 | `fileName` is the final part of the path: it has no '/', and a '/' precedes it unless it is the whole path |
| Text.FirstLine | src/main_window.cpp:793 | the first line has no line break and is a prefix that ends at the first break |
| Text.FirstLineIsFirstPiece | src/main_window.cpp:793 | the first line is the first piece of `split('\n')` |
| Lists.RemoveAll | src/project.cpp:23-25 | `removeAll` leaves no occurrence, keeps every other element, and changes nothing when the element is absent |
| Lists.RemoveAllConcat | src/project.cpp:24 | `removeAll` distributes over concatenation, so the survivors keep their order |
| Lists.RemoveAllKeepsNoDuplicates | src/project.cpp:24 | removing from a duplicate-free list keeps it duplicate-free |
| Lists.AddAbsent | src/project.cpp:13-17 | contains-then-append puts the element in the list; it appends only when absent and keeps the list duplicate-free |
| Lists.AddAllAbsentHasAll | src/project_manager.cpp:29-31 | after adding a list of elements one by one, an element is present exactly when it was already there or was added |
| Lists.AddAllAbsentDistinct | src/project_manager.cpp:29-31 | adding distinct new elements one by one appends them in order |
| CInts.TruncDiv | src/line_number_area.cpp:21-22 | the truncating quotient leaves a remainder smaller than the divisor, never of the opposite sign to the dividend |
| CInts.TruncDivOfNonNegative | src/update_service.cpp:102 | on non-negative operands the truncating quotient is ordinary division |
| CInts.TruncDivRoundsTowardZero | src/line_number_area.cpp:22 | -1 / 3 truncates to 0, where rounding down gives -1 |
| CInts.ToInt32 | src/update_service.cpp:102 | `static_cast<int>` yields a 32-bit value congruent to the input modulo 2^32, and the input itself when it fits |
| Markers.ArgWithoutMarkers | src/audit_result.cpp:40 | `arg` on a string without '%' returns it unchanged |
| Markers.ArgKeepsPlainPrefix | src/audit_result.cpp:40 | the text before the first '%' survives any substitution |
| Markers.ArgOneMarker | src/audit_result.cpp:40 | a single one-digit marker at the end of the string is replaced by the argument |
| Markers.ArgTwoMarkers | src/audit_result.cpp:40 | of two one-digit markers, exactly the lower-numbered one is replaced, and both when their numbers are equal; the rest of the text is kept |
| AuditResults.NameInserted | src/audit_result.cpp:40 | the first `arg` puts the file name in place of %1, whatever the name holds, and leaves %2 |
| AuditResults.PlainNameFilled | src/audit_result.cpp:40 | for a name without '%' the second `arg` fills only %2, giving "File: name", a line break, "Issues found: " and the argument |
| AuditResults.SummaryShape | src/audit_result.cpp:39-41 | every summary starts with "File: "; for a name without '%' it is "File: name", a line break, "Issues found: " and the decimal issue count |
| AuditResults.NameEndingInMarker | src/audit_result.cpp:40 | for a name ending in the marker %c, the count replaces that marker when c is at most 2, and replaces %2 only when c is at least 2 |
| AuditResults.MarkerOneInName | src/audit_result.cpp:40 | the name "x%1" with 3 issues gives "File: x3\nIssues found: %2" |
| AuditResults.MarkerTwoInName | src/audit_result.cpp:40 | the name "x%2" with 3 issues gives "File: x3\nIssues found: 3" |
| AuditResults.SummaryReadsBack | src/audit_result.cpp:39-41 | for a file name without a line break or '%' the summary is two lines: "File: name", then "Issues found: " and digits that read back as the issue count |
| AuditResults.AuditResult.constructor | src/audit_result.cpp:17 | the constructor stores the name, with no issues and an empty message |
| AuditResults.AuditResult.Value | src/audit_result.cpp:17 | the copied value carries the object's name, issues, message and location |
| AuditResults.AuditResult.AddIssue | src/audit_result.cpp:24-28 | `addIssue` appends at the end; the message becomes all issues joined by line breaks, which is the old message, a break and the issue |
| AuditResults.AuditResult.GetSummary | src/audit_result.cpp:39-41 | the summary starts with "File: "; for a name without '%' it is "File: name\nIssues found: " followed by the decimal issue count |
| AuditResults.AuditResult.GetFileName | src/audit_result.cpp:48-50 | returns the stored file name |
| AuditResults.AuditResult.GetIssues | src/audit_result.cpp:57-59 | returns the issues in insertion order |
| Cache.Lookup | src/audit_cache.cpp:8-10 | `QMap::value` gives the stored list for a present key and the empty list for an absent one |
| Cache.LookupAfterStore | src/audit_cache.cpp:22-24 | a get after a put on the same key returns what was put |
| Cache.StoreLeavesOthers | src/audit_cache.cpp:23 | a put changes neither the value nor the presence of any other key |
| Cache.StoredEmptyLooksAbsent | src/audit_cache.cpp:8-10 | after storing the empty list, a get cannot tell the key from an absent one |
| Cache.AuditCache.GetCachedResults | src/audit_cache.cpp:8-10 | the read inserts nothing and returns the lookup |
| Cache.AuditCache.CacheResults | src/audit_cache.cpp:22-24 | the map afterwards is the old map with the key overwritten |
| Service.CacheKey | src/audit_service.cpp:31 | the key is the file, then '\|', then the options |
| Service.KeyDeterminesPair | src/audit_service.cpp:31 | when neither file name holds '\|', equal keys mean equal files and equal options |
| Service.KeyCollision | src/audit_service.cpp:31 | ("a\|b", "c") and ("a", "b\|c") share a key, and so a cache entry |
| Service.Parse | src/parser.cpp:9-10 | the shipped parser returns the empty list for every output |
| Service.HitReturnsCached | src/audit_service.cpp:34-37 | a non-empty cached list is returned as it is; the CLI does not run and the cache is unchanged |
| Service.MissRunsAndStores | src/audit_service.cpp:40-46 | on a miss the CLI runs, its output is parsed, and the parse is stored under the key and returned |
| Service.AuditTouchesOnlyItsKey | src/audit_service.cpp:46 | a call changes no cache entry except the one for its own key |
| Service.EmptyResultRunsAgain | src/audit_service.cpp:35 | an empty result is stored but reads as a miss, so the same call runs the CLI again |
| Service.ShippedParserNeverHits | src/audit_service.cpp:34-46 | with only empty lists stored, every call runs the CLI, returns the empty list and stores only empty lists |
| Service.CacheNeverSaves | src/audit_service.cpp:29-53 | from an empty cache, any sequence of calls runs the CLI once per call |
| Service.AuditService.PerformAudit | src/audit_service.cpp:29-53 | `performAudit` returns the pipeline's result and leaves its cache; a CLI run is logged exactly on a miss; with the shipped parser every call returns the empty list and runs the CLI |
| ResultsView.IssueLabels | src/audit_results_view.cpp:47-50 | one bulleted label per issue, in order |
| ResultsView.LabelsCount | src/audit_results_view.cpp:43-51 | `render` lays out one summary plus one label per issue for each result |
| ResultsView.LabelsConcat | src/audit_results_view.cpp:43-51 | the labels of a list of results are the labels of its parts, one after the other |
| ResultsView.FirstLabelIsSummary | src/audit_results_view.cpp:44-45 | for a non-empty list, the first label is the first result's summary |
| ResultsView.AuditResultsView.constructor | src/audit_results_view.cpp:21-24 | the view starts with no results and no labels |
| ResultsView.AuditResultsView.Render | src/audit_results_view.cpp:33-52 | the old labels are cleared; afterwards the labels are those of the current results |
| ResultsView.AuditResultsView.DisplayResults | src/audit_results_view.cpp:62-64 | the results are replaced wholesale and the labels are theirs |
| Annotation.ClassifyMeaning | src/main_window.cpp:657-664 | the severity is error exactly when "error" occurs, case-insensitively, in the rule id or message. Otherwise it is warning exactly when "warning" occurs in either or "cwe" in the message, else info |
| Annotation.IsForOpenFileMeaning | src/main_window.cpp:452-463 | a result is highlighted exactly when it has a location and a rule id, and its file name equals the open file's name or its path contains that name |
| Annotation.OtherFileContainingName | src/main_window.cpp:458 | with "/src/a.c" open, a result for "/src/data.c" is accepted as well |
| Annotation.TargetBlock | src/main_window.cpp:648-654 | the walk reaches a block exactly when the document has one and the line is at most the block count; the block is line - 1, or 0 for lines at most 1 |
| Annotation.WalkToLine | src/main_window.cpp:649-654 | the `Down` loop succeeds, and stops on that block, exactly as the walk specifies |
| Annotation.IdentLength | src/main_window.cpp:713-717 | the identifier loop stops at the end of the maximal run of identifier characters |
| Annotation.ParenEndMeaning | src/main_window.cpp:720-731 | started at '(', the paren loop ends just after the ')' that balances it, or at the end of the line; the group stays open before that |
| Annotation.QuoteLength | src/main_window.cpp:735-744 | the quote loop ends at the first identical quote not preceded by a backslash, or at the end of the line |
| Annotation.HeuristicBounds | src/main_window.cpp:748-751 | the heuristic span never runs past the line and covers min(3, rest of line) characters or more |
| Annotation.ReportedSpan | src/main_window.cpp:699-700 | an end column past the column gives a span of their difference, with no heuristic |
| Annotation.IdentifierSpan | src/main_window.cpp:711-732 | at an identifier the span covers the whole identifier; before '(' it extends through the balancing ')' |
| Annotation.QuoteSpan | src/main_window.cpp:735-745 | at a quote the span reaches the first unescaped identical quote or the end of the line |
| Annotation.CallSpanExample | src/main_window.cpp:711-731 | in "  f(x);" at column 3 the span is "f(x)" |
| Annotation.EscapedQuoteExample | src/main_window.cpp:741 | a backslash-escaped quote does not end a string literal |
| Annotation.ScanIdentifier | src/main_window.cpp:713-717 | the identifier loop computes the identifier length |
| Annotation.ScanGroup | src/main_window.cpp:720-731 | the paren loop computes the paren scan's end |
| Annotation.ScanQuote | src/main_window.cpp:736-744 | the quote loop computes the quote length |
| Annotation.SelectionLength | src/main_window.cpp:697-752 | the computed selection length is the specified span length |
| Annotation.HighlightsShape | src/main_window.cpp:640-825 | a located result on an existing line adds three selections, in the order line band, span, margin. All three are on block line - 1 with its severity: the band covers the line, the span starts at column - 1, and the margin covers 2 characters. Any other result adds none |
| Annotation.ComputeHighlights | src/main_window.cpp:641-817 | the walk, severity and span computations yield the specified selections |
| Annotation.AnnotationsCount | src/main_window.cpp:452-463 | `updateAuditResults` leaves three selections per drawn result, each on a line of the document |
| Annotation.NothingForOtherFiles | src/main_window.cpp:453-458 | results for other files, or without location or rule id, draw nothing |
| Annotation.MainWindow.ClearSecurityHighlights | src/main_window.cpp:848-853 | both selection lists become empty |
| Annotation.MainWindow.HighlightSecurityIssue | src/main_window.cpp:819-825 | the result's selections are appended after the existing ones, in both lists |
| Annotation.MainWindow.UpdateAuditResults | src/main_window.cpp:439-463 | the highlights become exactly the annotations of the results for the open file; the results view shows all results |
| CliOptions.ClampVerbose | src/cli_options_panel.cpp:56 | the spin box keeps its value within 0..3, takes any value in range, and changes nothing else |
| CliOptions.SetAll | src/cli_options_panel.cpp:87-92 | setting All sets it, keeps the boxes' checked state and the verbose level, and keeps the interlock |
| CliOptions.SetBox | src/cli_options_panel.cpp:95-103 | setting a box sets it, keeps the other boxes and the verbose level, and keeps the interlock |
| CliOptions.ToggleAll | src/cli_options_panel.cpp:87-92 | a click on All inverts it |
| CliOptions.ToggleBox | src/cli_options_panel.cpp:95-103 | a click on an enabled box inverts it; a disabled box ignores clicks |
| CliOptions.AllTogglesEnabled | src/cli_options_panel.cpp:87-92 | checking All disables the three boxes and unchecking it enables them; their checked state is kept |
| CliOptions.BoxChangeClearsAll | src/cli_options_panel.cpp:95-98 | right after a box changes, All is unchecked whenever any box is checked |
| CliOptions.ClickKeepsAllUnchecked | src/cli_options_panel.cpp:95-103 | under the interlock, clicking an enabled box leaves All unchecked and the boxes enabled |
| CliOptions.AllKeepsCheckedBoxes | src/cli_options_panel.cpp:87-92 | checking All after a box leaves both checked, with the box disabled |
| CliOptions.Flag | src/cli_options_panel.cpp:120-122 | a checked box contributes its flag and nothing else; an unchecked one contributes nothing |
| CliOptions.ParseOptions | src/cli_options_panel.cpp:128 | the option string reads back as no tokens exactly when it is empty |
| CliOptions.OptionsRoundTrip | src/cli_options_panel.cpp:128 | joining tokens with spaces loses nothing when no token is empty or holds a space |
| CliOptions.VerboseTokensFacts | src/cli_options_panel.cpp:124-126 | "--verbose N" appears exactly when the level is above 0, and N reads back as the level |
| CliOptions.AnalysisTokensFacts | src/cli_options_panel.cpp:120-122 | each individual flag appears exactly when its box is checked, in the order symbolic, static, dynamic |
| CliOptions.PanelTokensMeaning | src/cli_options_panel.cpp:115-129 | the panel never emits "--all"; each flag appears exactly when its box is checked, disabled or not; "--verbose N" comes last exactly when the level is above 0 |
| CliOptions.PanelOptionsRoundTrip | src/cli_options_panel.cpp:128 | the panel's string reads back as its tokens |
| CliOptions.DialogTokensMeaning | src/cli_options_dialog.cpp:99-116 | the dialog emits "--all" exactly when All is checked, and then no individual flag; otherwise it emits the flags of the checked boxes; then "--verbose N" exactly when the level is above 0 |
| CliOptions.DialogAllTokens | src/cli_options_dialog.cpp:103-104 | with All checked the option list starts with "--all" and holds no individual flag |
| CliOptions.DialogOptionsRoundTrip | src/cli_options_dialog.cpp:115 | the dialog's string reads back as its tokens |
| CliOptions.InitialOptions | src/cli_options_dialog.cpp:57-58 | the panel starts with the string "" and the dialog with "--verbose 1", both under the interlock |
| CliOptions.CliOptionsPanel.constructor | src/cli_options_panel.cpp:56-57 | the panel starts with nothing checked and verbose 0 |
| CliOptions.CliOptionsPanel.ClickAll | src/cli_options_panel.cpp:87-92 | a click on All has the effect of the toggle and keeps the interlock |
| CliOptions.CliOptionsPanel.ClickBox | src/cli_options_panel.cpp:95-103 | a click on a box has the effect of the toggle and keeps the interlock |
| CliOptions.CliOptionsPanel.SetVerbose | src/cli_options_panel.cpp:56 | the level is clamped to 0..3 |
| CliOptions.CliOptionsPanel.GetCommandOptions | src/cli_options_panel.cpp:115-129 | the string reads back as the panel's tokens for the current state |
| CliOptions.CliOptionsDialog.constructor | src/cli_options_dialog.cpp:57-58 | the dialog starts with nothing checked and verbose 1 |
| CliOptions.CliOptionsDialog.ClickAll | src/cli_options_dialog.cpp:72-77 | a click on All has the effect of the toggle and keeps the interlock |
| CliOptions.CliOptionsDialog.ClickBox | src/cli_options_dialog.cpp:80-88 | a click on a box has the effect of the toggle and keeps the interlock |
| CliOptions.CliOptionsDialog.SetVerbose | src/cli_options_dialog.cpp:57 | the level is clamped to 0..3 |
| CliOptions.CliOptionsDialog.GetCommandOptions | src/cli_options_dialog.cpp:99-116 | the string reads back as the dialog's tokens for the current state |
| StubCli.MemEqualIsPrefix | ctrace-cli.c:10 | `memcmp(arg, lit, n) == 0` for a C string holds exactly when `arg` starts with the first n characters of `lit`; a shorter argument differs at its terminator |
| StubCli.ClassifyMeaning | ctrace-cli.c:10-34 | the mode is dynamic, static, help or all exactly when the argument starts with "--dyn", "--sta", "--hel" or "--al", compared in that order; otherwise it is unknown |
| StubCli.PrefixExamples | ctrace-cli.c:15-34 | "--stack" counts as static, "--alpha" as all, and "--dy" as unknown |
| StubCli.Main | ctrace-cli.c:4-37 | with fewer than two arguments: exit code 1 and no output; otherwise exit code 0 and one of the JSON objects followed by a line break |
| StubCli.OnlyFirstArgument | ctrace-cli.c:10-34 | only argv[1] affects the outcome |
| StubCli.ReadsBackMode | ctrace-cli.c:12-33 | the "type" value of each printed object names its mode |
| StubCli.OutputNamesMode | ctrace-cli.c:10-34 | reading the output back gives the classification of argv[1] |
| StubCli.OutputsDistinct | ctrace-cli.c:10-34 | different modes print different outputs |
| Projects.Project.constructor | src/project.cpp:7 | a project has the given name and no files |
| Projects.Project.AddFile | src/project.cpp:13-17 | `addFile` appends a new file last, leaves the list unchanged for a present one, and keeps the list duplicate-free |
| Projects.Project.RemoveFile | src/project.cpp:23-25 | `removeFile` removes every occurrence, keeps the rest, and keeps the list duplicate-free |
| Projects.Project.GetName | src/project.cpp:31-33 | returns the name |
| Projects.Project.GetFiles | src/project.cpp:39-41 | returns the files |
| ProjectManagers.FilePath | src/project_manager.cpp:30 | an entry's path starts with the directory and ends with the entry name |
| ProjectManagers.FilePathInjective | src/project_manager.cpp:30 | different entries of one directory get different paths |
| ProjectManagers.FilePathsDistinct | src/project_manager.cpp:28-30 | a listing without repeats gives paths without repeats |
| ProjectManagers.ProjectFiles | src/project_manager.cpp:28-31 | an opened project's file list has no duplicates |
| ProjectManagers.ProjectFilesMeaning | src/project_manager.cpp:28-31 | the project holds exactly the directory's file paths, in listing order for a listing without repeats |
| ProjectManagers.AddEntries | src/project_manager.cpp:29-31 | the entry loop fills an empty project with the directory's files, keeping it duplicate-free |
| ProjectManagers.NewProject | src/project_manager.cpp:24-31 | the new project is named as given and holds the directory's files |
| ProjectManagers.ProjectManager.OpenProject | src/project_manager.cpp:18-33 | nothing changes unless the path is an existing directory. Otherwise one new project, named after the directory's file name and holding its files, is appended last |
| ProjectManagers.ProjectManager.CloseProject | src/project_manager.cpp:43-48 | `closeProject` removes every occurrence of the project, and changes nothing when it is not open |
| ProjectManagers.ProjectManager.GetProjects | src/project_manager.cpp:54-56 | returns the open projects in opening order |
| Updates.Announced | src/update_service.cpp:56-58 | a reply announces a (version, url) pair exactly when it is an object holding both "version" and "download_url" |
| Updates.Notices | src/update_service.cpp:76-80 | `notifyObservers` makes one call per observer, in list order, with the latest version and URL |
| Updates.NotifiesEachOnce | src/update_service.cpp:24-28 | over a duplicate-free registry, each registered observer is told exactly once and no one else is told |
| Updates.Percentage | src/update_service.cpp:100-103 | a percentage is computed exactly when the total is positive, and it fits a 32-bit int |
| Updates.PercentageBounds | src/update_service.cpp:102 | for 0 <= received <= total the percentage is received\*100 / total, between 0 and 100 |
| Updates.PercentageMonotone | src/update_service.cpp:102 | more bytes received never shows a lower percentage |
| Updates.UpdateService.constructor | src/update_service.cpp:12-17 | no observers, no version, no URL, nothing delivered |
| Updates.UpdateService.AddObserver | src/update_service.cpp:24-28 | `addObserver` appends a new observer last, changes nothing for a registered one, and keeps the registry duplicate-free |
| Updates.UpdateService.RemoveObserver | src/update_service.cpp:30-32 | `removeObserver` removes every occurrence, keeps the others, and keeps the registry duplicate-free |
| Updates.UpdateService.NotifyObservers | src/update_service.cpp:76-80 | the delivered log grows by one notice per observer, in order |
| Updates.UpdateService.OnNetworkReply | src/update_service.cpp:47-74 | an announcing reply replaces the version and URL, and the observers are notified exactly when the version is not "1.0.0"; any other reply changes nothing |
| LineNumbers.LabelCount | src/line_number_area.cpp:24 | the paint loop stops at the first row past the visible rows or past the last block |
| LineNumbers.PaintedMeaning | src/line_number_area.cpp:21-29 | the numbers drawn are consecutive from the first visible line plus 1, never past the block count, and each row lies inside the gutter. The paint stops only at the last block or at the bottom of the gutter |
| LineNumbers.LineNumberArea.SizeHint | src/line_number_area.cpp:32-34 | the size hint is the gutter's fixed width and no height |
| LineNumbers.LineNumberArea.PaintEvent | src/line_number_area.cpp:10-30 | `paintEvent` draws exactly the specified labels: number first + i + 1 at y = i \* lineHeight |

## Left out

- Running the analysis process (`CTraceCLI::execute`, which uses `QProcess`): the run is an arbitrary function parameter. The checksum members of `CTraceCLI` are not part of this model.
- The commented-out body of `Parser::parse` is not behaviour. No findings parser is modelled, because the shipped one returns the empty list.
- The error highlighter call, which is commented out in `performAudit`.
- The `Location` model: `AuditResult` declares no location, rule or message accessors, although `main_window.cpp` calls them. They are the fields of a `Location` value, and a constructed result has none.
- Window, menu, toolbar, splitter and widget layout; the event filter; file open and save; `findNext`; the security notification, status bar messages and blink animation; and blink-timer stopping and notification hiding in `clearSecurityHighlights`. All of these are GUI plumbing or timers.
- Colours, pens, fonts, `FullWidthSelection`, and the tooltip's text. Only the tooltip's four fields are kept. The tooltip is built by four chained `arg` calls, so a rule id or message holding a place marker would be substituted again; the model does not capture that.
- The results-view bullet is written as U+2022; the source text shows it as mojibake.
- Annotation.ColumnFits: Qt's `Right` movement can cross into the next block and `Down` moves by visual line. The model instead treats the document as its list of lines. It requires the column of each drawn result, one for the open file, to lie within the named line; results for other files are not constrained.
- Annotation.HighlightsShape: the span and the 2-character margin are recorded as a start and a nominal length on the named block. In Qt, `movePosition(Right, KeepAnchor, n)` (main_window.cpp:754 and :803) runs on past the end of the block into the following lines and stops only at the end of the document. So on a line shorter than the length, the selection takes in the line break and the start of the next line; the model does not capture that spill.
- `highlightSecurityIssue` also moves the editor's own cursor to the span and scrolls it into view (`setTextCursor`, `ensureCursorVisible`). The model keeps no editor cursor or scroll position.
- Case folding and `QChar::isLetter`/`isLetterOrNumber` are modelled for ASCII only.
- StubCli.MemEqualIsPrefix: `memcmp` on an argument shorter than the compared length reads past its end, which is undefined behaviour. The model compares the NUL terminator, so a shorter argument never matches.
- `setProjectRoot` in `openProject` is not modelled; it updates the file tree in the GUI.
- The `delete` in `closeProject` is not modelled (memory management).
- `QDir` path cleaning is simplified: an entry's path is the directory, one '/', and the entry name.
- The directory listing and the existence checks of `openProject` are parameters.
- `performAudit`'s default argument `options = ""` (includes/audit_service.hpp:16): Dafny has no default arguments, so a caller passes "" itself.
- AuditResults.AuditResult.GetSummary: for the issue count, Qt fills a `%L` marker with the locale's digit grouping. The model fills it with plain decimal digits, as it does a `%1` marker. Qt's warning for a string without markers is not modelled either.
- The network request, the download, unpacking, installer script and restart of the update service, and `checkForUpdates`; all are I/O.
- The JSON parsing in `onNetworkReply` is not modelled: a reply arrives as a network error, a non-object, or an object's string fields. Non-string values, which `toString` would turn into "", are not modelled.
- The `qDebug` output of the update service.
- Updates.Percentage: requires that `bytesReceived * 100` does not overflow `qint64`, and computes the value `onDownloadProgress` only logs.
- `drawText`'s rectangle and alignment in the line-number gutter, and the painter's colours.
- `src/syntax_highlighter.cpp`, `src/error_highlighter.cpp`, `src/file_tree_view.cpp`, `src/output_display.cpp`, `src/ide.cpp`, `src/main.cpp`, `src/audit_factory.cpp`, `includes/MainBoard.hpp` and `api/hierarchy.js` are not part of this model. They hold a regex highlighter, file I/O, widget plumbing, lifecycle code and documentation.
- The dynamic cast over UI components in `updateAuditResults` is replaced by a direct reference to the results view.
