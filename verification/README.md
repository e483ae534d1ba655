# Test-report pipeline, modelled in Dafny

This project models the two-stage test-report pipeline of a WebdriverIO
test suite:

1. **The JSON reporter** (`custom_report/jsonReporter.js`) is a test-runner
   reporter.
   - Every passed or failed test appends one record to its list. A record holds
     the timestamp, suite name, test name, status and cleaned error text.
   - When the runner ends, it writes the whole list once, to
     `test-report-<time>.json`. Every ':' in the time is replaced by '-'.
2. **The JSON-to-Excel converter** (`custom_report/jsonConvertor.js`) reads
   every `*.json` report in a folder.
   - It normalises each record and appends it to one list. A missing or empty
     suite name, status or error gets a default; the test name is copied as it
     is. A trailing `suite<digits>` is stripped from the suite name.
   - It lays the list out as the "Test Results" sheet: one row per record and
     a status fill. Suite-name cells are merged over runs of adjacent equal
     suites.
   - It adds a "Summary" sheet with the total, passed and failed counts, and
     renders the counts as a one-line text summary.

Modules:

- `Wrappers`: the `Option` type.
- `JsString`: the JavaScript string primitives the pipeline relies on, over
  `seq<char>`.
  - `||` on a possibly missing string;
  - `\d`, `endsWith` and `trim` with the ECMAScript whitespace set;
  - `split('\n')[0]` and a one-character global `replace`;
  - `join`, and the decimal text of a count.
- `ErrorText`: the error-text cleaning the reporter applies. The converter
  has a copy of the same replace/split/trim chain that nothing calls. That
  copy is guarded, so a missing or empty message gives `undefined`.
  - The regular expression `/[\u001b\u009b]\[\d{1,2}(;\d{1,2})?(m|K)/g` is
    written as a deterministic scanner (`MatchAt`). It is proved to match
    exactly the declarative escape-sequence shape (`IsEscapeSequence`).
  - `StripAnsi` is the global replace. `Sanitize` is the full
    replace/split/trim chain.
- `Reporter`: the reporter's records, the file name, and the `JsonReporter`
  class. The class has the collected list and the reports written so far as
  fields.
- `Converter`: the converter's pure parts and the `JsonToExcelConverter`
  class.
  - The pure parts are suffix stripping, normalisation, the folder-ingest
    function, the run decomposition behind the merges, the detail rows, the
    counts and the text line.
  - The class has the record list, the two sheets and the workbook writes as
    fields. Its methods carry the source's loops, with invariants tying them
    to the pure definitions.
- `Pipeline`: lemmas across the two stages.
  - What the reporter writes is what the converter reads.
  - Reporter records keep their fields through normalisation.
  - Their counts add up.
  - The reporter's cleaning and the converter's unused, guarded copy agree
    on every non-empty message.

Abstractions:

- The folder is a listing of names, each with the outcome of reading and
  parsing it: an array of entries, another JSON value, or an exception. The
  listing itself is absent when listing the folder throws.
- The workbook is the rows and merge calls of the detail sheet, the rows of
  the summary sheet, and the list of paths it was written to.
- Clock readings are method parameters (`now`).
- The reporter's output directory, the directory part of its configured
  output file, is a constructor parameter.
- The text summary file comes back as a path and its contents.

Behaviour of the code worth knowing:

- **Parse errors abort the conversion.** The `try`/`catch` of
  `convertJSONFolderToExcel` surrounds the listing and the whole loop. A
  folder that cannot be listed ends the conversion before anything is read.
  A `.json` file whose read or parse throws ends it too:
  - no later file is read;
  - neither sheet is built and nothing is written;
  - the records already appended stay.

  Files with a parse error are not skipped
  (`IngestStopsAtBrokenFile`, `ConvertJsonFolderToExcel`).
- **Cleaning is not idempotent.** One left-to-right removal pass can splice a
  new escape sequence together. ESC + ESC "[31m" + "[31m" cleans to
  ESC "[31m", which cleans to "" (`SanitizeNotIdempotent`). Idempotence holds
  only when the cleaned text has no introducer character
  (`SanitizeIdempotentWithoutIntroducer`).
- **The converter does not clean error text.** Its `addTestResult` copies
  `test.error || ''` as it is, and its own `sanitizeErrorMessage` is never
  called. A coloured, multi-line error in an input file reaches the detail
  sheet unchanged (`Normalize`).
- **An empty list still issues one merge call.** With no records, the
  trailing test of `createTestResultSheet` still fires and issues the merge
  call rows 2..1 (`MergeCalls`).

## Model

| member | source | states |
|---|---|---|
| JsString.OrDefault | custom_report/jsonReporter.js:33 | `v \|\| d` on an optional string: the value when present and non-empty, otherwise the default |
| JsString.EndsWith | custom_report/jsonConvertor.js:17 | `endsWith`: the suffix is no longer than the text and is its last characters |
| JsString.Trim | custom_report/jsonReporter.js:50 | the result has no whitespace at either end. It is the slice of the input between an all-whitespace prefix and an all-whitespace suffix, and the prefix is the maximal leading whitespace |
| JsString.TrimKeepsTrimmed | custom_report/jsonReporter.js:50 | trimming already-trimmed text changes nothing |
| JsString.FirstLine | custom_report/jsonReporter.js:49 | `split('\n')[0]` is a prefix without '\n' that ends at the end of the text or just before its first '\n' |
| JsString.FirstLineOfSingleLine | custom_report/jsonReporter.js:49 | text without '\n' is its own first line |
| JsString.FirstLineStopsAtBreak | custom_report/jsonReporter.js:49 | for `first` without '\n', the first line of `first + '\n' + rest` is `first` |
| JsString.ReplaceAll | custom_report/jsonReporter.js:39 | the global replace of one character keeps the length and replaces exactly the occurrences, position by position |
| JsString.NatToString | custom_report/jsonConvertor.js:211 | a count renders as a non-empty digit string without leading zeros whose decimal value is the count |
| JsString.NatToStringInjective | custom_report/jsonConvertor.js:211 | different counts render differently |
| JsString.DigitRunIsDetermined | custom_report/jsonConvertor.js:211 | a rendered count followed by text that does not start with a digit can be split back uniquely |
| JsString.Join | custom_report/jsonConvertor.js:212 | `join`: the parts in order, with the separator between each two; none gives "" |
| JsString.JoinShape | custom_report/jsonConvertor.js:212 | a join of at least one part starts with the first part, and its length is the parts' lengths plus one separator fewer than there are parts |
| ErrorText.IsEscapeSequence | custom_report/jsonReporter.js:48 | what the pattern matches: ESC or CSI, '[', one or two digits, optionally ';' and one or two digits, then 'm' or 'K' |
| ErrorText.MatchAt | custom_report/jsonReporter.js:48 | a match found at the start of the text is a prefix that is an escape sequence: ESC or CSI, '[', 1–2 digits, an optional ';' with 1–2 digits, then 'm' or 'K' |
| ErrorText.MatchAtFindsEscapeSequence | custom_report/jsonReporter.js:48 | both directions: the scan matches length p exactly when the first p characters form an escape sequence, so the match is unique |
| ErrorText.EscapeSequenceShape | custom_report/jsonReporter.js:48 | every escape-sequence prefix has the digit-run structure the greedy scan follows |
| ErrorText.StripAnsi | custom_report/jsonReporter.js:48 | the global replace removes characters only: the result is no longer and a sub-multiset of the input |
| ErrorText.StripAnsiWithoutMatch | custom_report/jsonReporter.js:48 | text where the pattern matches nowhere is unchanged |
| ErrorText.StripAnsiKeepsPlainPrefix | custom_report/jsonReporter.js:48 | a prefix without ESC/CSI passes through unchanged, whatever follows |
| ErrorText.StripAnsiOfPlain | custom_report/jsonReporter.js:48 | text without ESC/CSI is unchanged |
| ErrorText.StripAnsiKeepsUnbracketed | custom_report/jsonReporter.js:48 | a character not followed by '[' starts no match and is kept |
| ErrorText.StripAnsiDropsSequence | custom_report/jsonReporter.js:48 | a leading escape sequence is removed whole |
| ErrorText.StripAnsiUndoesColouring | custom_report/jsonReporter.js:48 | plain text wrapped in an opening and a closing sequence comes back exactly |
| ErrorText.StripAnsiSplicesNewSequence | custom_report/jsonReporter.js:48 | one pass is not a closure: ESC + e + e-without-ESC leaves the escape sequence e |
| ErrorText.Sanitize | custom_report/jsonReporter.js:46-51 | the cleaned text contains no '\n' and has no leading or trailing whitespace |
| ErrorText.SanitizePlainLine | custom_report/jsonReporter.js:46-51 | on one line with no escape sequence, cleaning is trimming |
| ErrorText.SanitizeIdempotentWithoutIntroducer | custom_report/jsonReporter.js:46-51 | cleaning twice equals cleaning once when the first result holds no ESC/CSI |
| ErrorText.EscapeSequenceCharacters | custom_report/jsonReporter.js:48 | an escape sequence has one introducer, no '\n' and no whitespace at its ends |
| ErrorText.SanitizeNotIdempotent | custom_report/jsonReporter.js:46-51 | for every escape sequence e, ESC + e + e-without-ESC cleans to e and e cleans to "" |
| ErrorText.SanitizeColouredStackTrace | custom_report/jsonReporter.js:46-51 | a coloured message with a stack trace cleans to its first line |
| ErrorText.RedAndResetAreEscapeSequences | custom_report/jsonReporter.js:48 | ESC "[31m" and ESC "[0m" are matched by the pattern |
| Reporter.SanitizeErrorMessage | custom_report/jsonReporter.js:46-51 | the reporter's cleaned error text is a single trimmed line |
| Reporter.MakeRecord | custom_report/jsonReporter.js:31-36 | record fields: timestamp is the clock reading, testName the title, and status the given one. suiteName is the parent, or "Default Suite" when the parent is missing or empty. error is "" without an error object, else the cleaned message |
| Reporter.ReportFileName | custom_report/jsonReporter.js:39-40 | the name is "test-report-", then the time with each ':' turned into '-', then ".json". Its length is the time's length plus 17, and it contains no ':' |
| Reporter.JsonReporter.constructor | custom_report/jsonReporter.js:9-17 | starts with an empty record list and no report written, in the directory of the output file |
| Reporter.JsonReporter.OnTestPass | custom_report/jsonReporter.js:23-25 | appends exactly one PASSED record; earlier records and reports are unchanged |
| Reporter.JsonReporter.OnTestFail | custom_report/jsonReporter.js:27-29 | appends exactly one FAILED record; earlier records and reports are unchanged |
| Reporter.JsonReporter.AddTestResult | custom_report/jsonReporter.js:31-36 | appends exactly `MakeRecord(test, status, now)` and keeps every record well formed: a non-empty suite name and status PASSED or FAILED |
| Reporter.JsonReporter.OnRunnerEnd | custom_report/jsonReporter.js:19-21 | exactly one report is written, holding the whole list in call order |
| Reporter.JsonReporter.WriteJsonReport | custom_report/jsonReporter.js:38-44 | one report is written to the output directory under `ReportFileName(now)`, holding the whole list; the list is unchanged |
| Converter.TrailingDigits | custom_report/jsonConvertor.js:45 | the length of the maximal run of digits at the end of the name |
| Converter.RemoveSuiteSuffix | custom_report/jsonConvertor.js:43-53 | the result is a prefix of the name. It differs from the name only where `/suite\d+$/i` matches, and then it is the name cut exactly at the match |
| Converter.SuffixAt | custom_report/jsonConvertor.js:45 | where `/suite\d+$/i` matches: "suite" in any letter case at that position, then one or more ASCII digits up to the end |
| Converter.SuffixIsTrailingDigits | custom_report/jsonConvertor.js:45 | where the pattern matches, its digits are the maximal trailing digit run |
| Converter.SuffixAtUnique | custom_report/jsonConvertor.js:45 | the pattern matches at one position at most |
| Converter.RemoveSuiteSuffixLowerCase | custom_report/jsonConvertor.js:43-53 | "Login suite2" gives "Login " |
| Converter.RemoveSuiteSuffixUpperCase | custom_report/jsonConvertor.js:43-53 | the match ignores letter case: "X SUITE12" gives "X " |
| Converter.RemoveSuiteSuffixNoMatch | custom_report/jsonConvertor.js:43-53 | a name without the suffix, "Checkout", is returned unchanged |
| Converter.RemoveSuiteSuffixNotIdempotent | custom_report/jsonConvertor.js:43-53 | stripping is not idempotent: "asuite1suite2" gives "asuite1", which gives "a" |
| Converter.Normalize | custom_report/jsonConvertor.js:36-41 | record fields: suiteName is the suffix-stripped name or "Default Suite". status is copied when present and non-empty, else "UNKNOWN". error is copied, else "". testName is copied as it is |
| Converter.NormalizeAll | custom_report/jsonConvertor.js:22-24 | one normalised record per entry, in order |
| Converter.SanitizeErrorMessage | custom_report/jsonConvertor.js:147-154 | the converter's copy, which nothing calls: no result (undefined) exactly for a missing or empty message; otherwise a single trimmed line |
| Converter.Contribution | custom_report/jsonConvertor.js:17-26 | what one name adds when nothing has gone wrong: the array's elements for a ".json" name holding an array, nothing for any other name or value |
| Converter.Contributions | custom_report/jsonConvertor.js:16-27 | the contributions of every name in listing order; a listing without ".json" names contributes nothing |
| Converter.ContributionsAppend | custom_report/jsonConvertor.js:16-27 | each name contributes independently: two listings one after the other contribute the two contributions concatenated |
| Converter.IngestFile | custom_report/jsonConvertor.js:17-26 | one loop iteration: after an abort nothing changes; it aborts exactly on a ".json" file that throws, keeping the entries; otherwise it appends that name's contribution |
| Converter.Ingest | custom_report/jsonConvertor.js:15-27 | the loop over the listing collects a prefix of the listing's contributions, and all of them when it does not abort |
| Converter.IngestAbortsIffBroken | custom_report/jsonConvertor.js:14-33 | both directions: the conversion aborts exactly when some ".json" file of the listing throws |
| Converter.IngestWithoutBrokenFiles | custom_report/jsonConvertor.js:15-27 | with no unreadable ".json" file there is no abort. The entries are exactly the arrays of the ".json" names, element by element, in listing order; other names and non-array values are skipped |
| Converter.IngestStopsAtBrokenFile | custom_report/jsonConvertor.js:14-33 | the first unreadable ".json" file aborts the conversion, keeping exactly the entries of the names before it |
| Converter.IngestPrefixStep | custom_report/jsonConvertor.js:16-27 | ingesting one more name is one more loop iteration |
| Converter.IngestAbortIsFinal | custom_report/jsonConvertor.js:14-33 | once aborted, later names change nothing |
| Converter.SuiteNames | custom_report/jsonConvertor.js:76 | the suite-name column, record by record |
| Converter.Runs | custom_report/jsonConvertor.js:71-84 | the runs the sheet loop tracks: there is a run iff there is a record, and the last run ends at the last record |
| Converter.RunsAreMaximal | custom_report/jsonConvertor.js:71-84 | the runs cut the list into maximal runs of adjacent equal suite names: they are consecutive, cover every record, are uniform, and each later one starts where the name changes |
| Converter.RunsEndBeforeLast | custom_report/jsonConvertor.js:71-84 | in consecutive runs, every run ends before the last one starts |
| Converter.RunsUnique | custom_report/jsonConvertor.js:71-84 | any cut into maximal runs equals `Runs`: grouping is positional, not group-by |
| Converter.MergeCalls | custom_report/jsonConvertor.js:71-103 | the merge calls in order. Every run followed by another suite merges its rows first+2..last+2, single rows included. The final run merges unless it is a single record at the last index. No records give the one call 2..1 |
| Converter.MergesSpanOneSuite | custom_report/jsonConvertor.js:77-83 | for a non-empty list, each merge lies within the data rows and spans records of one suite |
| Converter.MergesInOrder | custom_report/jsonConvertor.js:75-83 | the merges come in increasing row order and do not overlap |
| Converter.MergesMaximalAbove | custom_report/jsonConvertor.js:77-82 | the record just above a merge belongs to another suite |
| Converter.MergesMaximalBelow | custom_report/jsonConvertor.js:77-103 | the record just below a merge belongs to another suite |
| Converter.PositionalGrouping | custom_report/jsonConvertor.js:71-103 | suites a, a, b, a give the runs 0..1, 2..2, 3..3 and the merges 2..3 and 4..4, never one group of a's |
| Converter.StatusFill | custom_report/jsonConvertor.js:92-96 | both directions: red fill exactly for "FAILED"; every other status, "UNKNOWN" included, gets the green fill |
| Converter.DetailRows | custom_report/jsonConvertor.js:86-96 | one row per record, in order: record k is on sheet row k+2 with its cells, and red-filled iff its status is "FAILED" |
| Converter.CountStatus | custom_report/jsonConvertor.js:193-194 | a filtered count never exceeds the number of records |
| Converter.CountStatusIsMultiplicity | custom_report/jsonConvertor.js:193-194 | the filtered count of a status equals its multiplicity in the status column |
| Converter.CountStatusAppend | custom_report/jsonConvertor.js:193-194 | counts add over concatenated lists |
| Converter.PassedAndFailedWithinTotal | custom_report/jsonConvertor.js:193-195 | Passed + Failed <= Total, with equality iff every status is "PASSED" or "FAILED" |
| Converter.SummaryStats | custom_report/jsonConvertor.js:191-202 | the stats in the order Total Tests, Passed Tests, Failed Tests. Total is the number of records and the other two are the multiplicities of "PASSED" and "FAILED". Passed + Failed <= Total |
| Converter.StatText | custom_report/jsonConvertor.js:210-211 | one stat's text: its metric, ": ", its value in decimal |
| Converter.StatTextShape | custom_report/jsonConvertor.js:211 | a stat's text is its label, then ": ", then digits whose decimal value is the stat's value |
| Converter.SummaryLine | custom_report/jsonConvertor.js:208-212 | the stats' texts joined with ", " |
| Converter.LineOfThree | custom_report/jsonConvertor.js:208-212 | the line of three stats is the first text, ", ", the second, ", ", the third |
| Converter.SummaryTextFormat | custom_report/jsonConvertor.js:208-212 | the text line is exactly "Total Tests: T, Passed Tests: P, Failed Tests: F" |
| Converter.ReadStat | custom_report/jsonConvertor.js:211 | a rendered stat followed by a non-digit gives back its value and the rest |
| Converter.SummaryLineDeterminesValues | custom_report/jsonConvertor.js:209-212 | three stats with the same labels and the same line are equal |
| Converter.SummaryLineDeterminesCounts | custom_report/jsonConvertor.js:209-212 | the text line can be read back: equal lines mean equal total, passed and failed counts |
| Converter.DetailSheetOf | custom_report/jsonConvertor.js:70-103 | the detail sheet of a list: one row per record, and the merge calls of its suite column; no records give the single call 2..1 |
| Converter.SheetFinish | custom_report/jsonConvertor.js:99-103 | the trailing test after the loop completes exactly the merge calls `MergeCalls` |
| Converter.ScanSuites | custom_report/jsonConvertor.js:71-84 | the sheet loop's variables after some records: none and row 1 at first; afterwards the previous suite name is the last record's and the start row lies within the records |
| Converter.ScanSuitesFollowsRuns | custom_report/jsonConvertor.js:71-84 | after any number of records, the loop's previous suite name is the last record's, its start row is where the last run starts, and its merges are those of every run before the last |
| Converter.ScanSuitesGivesMergeCalls | custom_report/jsonConvertor.js:71-103 | the merges of the loop followed by the trailing test are exactly `MergeCalls` of the suite names |
| Converter.ScanRecords | custom_report/jsonConvertor.js:70-97 | the row loop adds exactly `DetailRows` of the records, and its variables end as the loop state of the whole suite column |
| Converter.LayOutDetailSheet | custom_report/jsonConvertor.js:70-103 | the loop and the trailing test build exactly `DetailRows` and `MergeCalls` of the records |
| Converter.JsonToExcelConverter.constructor | custom_report/jsonConvertor.js:6-11 | no records, no sheets, nothing written |
| Converter.JsonToExcelConverter.AddTestResult | custom_report/jsonConvertor.js:36-41 | appends exactly one record, `Normalize(test)`; earlier records and the workbook are unchanged |
| Converter.JsonToExcelConverter.AddTestResults | custom_report/jsonConvertor.js:22-24 | the loop over one array appends exactly the normalised elements, in order, and changes nothing else |
| Converter.JsonToExcelConverter.ConvertJsonFolderToExcel | custom_report/jsonConvertor.js:13-34 | a folder that cannot be listed changes nothing. Otherwise the records grow by the normalised ingested entries. On an abort no sheet is built and nothing is written. Without one, the detail sheet and summary are built from the whole list and the workbook is written once to the output path |
| Converter.JsonToExcelConverter.CreateTestResultSheet | custom_report/jsonConvertor.js:55-104 | the sheet loop builds exactly `DetailRows` and `MergeCalls` of the records; the records are unchanged |
| Converter.JsonToExcelConverter.WriteSummary | custom_report/jsonConvertor.js:106-134 | the summary sheet holds `SummaryStats` of the records, in order |
| Converter.JsonToExcelConverter.GenerateExcelReport | custom_report/jsonConvertor.js:136-145 | one write of the workbook to the output path |
| Converter.JsonToExcelConverter.WriteSummaryInTextFile | custom_report/jsonConvertor.js:208-216 | the file is `<dir>/test-summary.txt` and its text is "Total Tests: T, Passed Tests: P, Failed Tests: F" for the current records |
| Pipeline.AsEntry | custom_report/jsonReporter.js:35 | the JSON write and read-back of a record is modelled, not proved: it keeps every string field, and the timestamp is not read |
| Pipeline.AsEntries | custom_report/jsonReporter.js:42 | a written list parses back element by element, in order |
| Pipeline.RecordSurvivesNormalization | custom_report/jsonConvertor.js:36-41 | a well-formed reporter record keeps its test name, status and error through normalisation; its suite name only loses a trailing "suite<digits>" |
| Pipeline.ReportFilesAreRead | custom_report/jsonConvertor.js:17 | every report file name ends in ".json", so the converter reads it |
| Pipeline.ReportsAreIngested | custom_report/jsonConvertor.js:15-27 | a folder of report files is ingested without abort, report by report, record by record |
| Pipeline.ReporterCountsAddUp | custom_report/jsonConvertor.js:191-202 | for reporter records, Passed + Failed = Total |
| Pipeline.SanitizeCopiesAgree | custom_report/jsonConvertor.js:147-154 | on a non-empty message, the converter's copy of the cleaning gives the reporter's result |
| Pipeline.SanitizeCopiesDifferOnEmpty | custom_report/jsonConvertor.js:147-154 | where the copies differ: the converter's guard gives no result (undefined) for an empty or missing message, while the reporter's chain turns "" into "" |

## Left out

- ExcelJS styling and layout are not modelled. This covers `initializeStyles`, `getBorderStyle`, header styles, column widths, alignment, borders, frozen views and the bold suite style. The model records only rows, merge calls, status fills and summary rows.
- ExcelJS treatment of the merge call 2..1 on an empty list is not modelled. The call is recorded as issued.
- The file system and JSON machinery are inputs, not operations:
  - `readdirSync`, `readFile`, `writeFileSync` and `appendFileSync`;
  - `path.join` and `path.dirname`;
  - `ensureDirectoryExistence`;
  - `JSON.parse`, and `JSON.stringify` pretty-printing.

  A listing is given as names with parse outcomes, and written files as records.
- `new Date().toISOString()` is replaced by `now` parameters.
- Console logging is not modelled.
- Asynchrony is not modelled. This covers the `await` of each read and the promise of the workbook write, which is recorded as issued when called; a failing write is only logged in the source.
- WDIOReporter base-class wiring and option merging are not modelled (`custom_report/jsonReporter.js:9-12`).
- JSON values other than strings in report fields are not modelled. The converter's entries have optional string fields. Numbers, booleans, objects and `null` elements of an array are not modelled, nor is the coercion `removeSuiteSuffix` would apply to them.
- Converter.JsonToExcelConverter.ConvertJsonFolderToExcel: requires that no sheet has been built yet. A second conversion on the same converter would add worksheets under names already taken, and that is not modelled.
- Reporter.MakeRecord: an error object without a `message` is not modelled. A test error is taken to carry a string message.
- Lone surrogates and UTF-16 code units are not modelled. Characters are Unicode scalar values, which is how `seq<char>` is read here.
- The browser specs and page objects under `test/` are not part of this model; they are locator wrappers and automation scripts.
