/**
 * The first stage of the pipeline: a test-runner reporter that collects one
 * record per finished test and, when the runner ends, writes the whole list
 * once to a file whose name carries the completion time.
 */
module Reporter {
  import opened Wrappers
  import opened JsString
  import ErrorText

  const PASSED: string := "PASSED"
  const FAILED: string := "FAILED"
  const DEFAULT_SUITE: string := "Default Suite"

  /** The error a failed test carries; only its message is read. */
  datatype TestError = TestError(message: string)

  /** What the runner hands to the pass and fail hooks. */
  datatype Test = Test(title: string, parent: Option<string>, error: Option<TestError>)

  /** One collected result; the field order is the key order of the written JSON. */
  datatype ReportRecord = ReportRecord(
    timestamp: string,
    suiteName: string,
    testName: string,
    status: string,
    error: string)

  /** One write of the report file: the directory, the file name and the records written. */
  datatype Report = Report(directory: string, fileName: string, records: seq<ReportRecord>)

  /** The reporter's own copy of the error-text cleaning. */
  function SanitizeErrorMessage(message: string): (r: string)
    ensures '\n' !in r
    ensures Trimmed(r)
  {
    ErrorText.Sanitize(message)
  }

  /** Every record the hooks can produce names a suite and has a definite outcome. */
  predicate WellFormed(r: ReportRecord) {
    r.suiteName != "" && (r.status == PASSED || r.status == FAILED)
  }

  /** Appending a well-formed record to well-formed records keeps them all well formed. */
  lemma AppendKeepsWellFormed(records: seq<ReportRecord>, r: ReportRecord)
    requires forall k :: 0 <= k < |records| ==> WellFormed(records[k])
    requires WellFormed(r)
    ensures forall k :: 0 <= k < |records + [r]| ==> WellFormed((records + [r])[k])
  {
  }

  /** The record `addTestResult` builds for `test` finished with `status` at time `now`. */
  function MakeRecord(test: Test, status: string, now: string): (r: ReportRecord)
    ensures r.timestamp == now && r.testName == test.title && r.status == status
    ensures r.suiteName != ""
    ensures test.parent.Some? && test.parent.value != "" ==> r.suiteName == test.parent.value
    ensures test.parent.None? || test.parent.value == "" ==> r.suiteName == DEFAULT_SUITE
    ensures test.error.None? ==> r.error == ""
    ensures test.error.Some? ==> r.error == SanitizeErrorMessage(test.error.value.message)
    ensures '\n' !in r.error && Trimmed(r.error)
  {
    var suiteName := OrDefault(test.parent, DEFAULT_SUITE);
    var error := if test.error.Some? then SanitizeErrorMessage(test.error.value.message) else "";
    ReportRecord(now, suiteName, test.title, status, error)
  }

  /**
   * The report file name for completion time `now`: "test-report-", the
   * time with every ':' replaced by '-', and ".json".
   */
  function ReportFileName(now: string): (name: string)
    ensures |name| == |now| + 17
    ensures name[..12] == "test-report-" && EndsWith(name, ".json")
    ensures forall k :: 0 <= k < |now| ==> name[12 + k] == (if now[k] == ':' then '-' else now[k])
    ensures ':' !in name
  {
    var stamp := ReplaceAll(now, ':', '-');
    var name := "test-report-" + stamp + ".json";
    assert name[|name| - 5..] == ".json";
    assert forall k :: 0 <= k < |stamp| ==> name[12 + k] == stamp[k];
    name
  }

  class JsonReporter {
    /** The directory of the configured output file; reports are written there. */
    const outputDirectory: string
    /** The records collected so far, in the order the hooks were called. */
    var testResults: seq<ReportRecord>
    /** The report files written so far. */
    var reports: seq<Report>

    ghost predicate Valid()
      reads this
    {
      forall k :: 0 <= k < |testResults| ==> WellFormed(testResults[k])
    }

    constructor(outputDirectory: string)
      ensures Valid()
      ensures this.outputDirectory == outputDirectory
      ensures testResults == [] && reports == []
    {
      this.outputDirectory := outputDirectory;
      testResults := [];
      reports := [];
    }

    /** `onTestPass`: one PASSED record is appended. */
    method OnTestPass(test: Test, now: string)
      requires Valid()
      modifies this
      ensures Valid()
      ensures testResults == old(testResults) + [MakeRecord(test, PASSED, now)]
      ensures reports == old(reports)
    {
      AddTestResult(test, PASSED, now);
    }

    /** `onTestFail`: one FAILED record is appended. */
    method OnTestFail(test: Test, now: string)
      requires Valid()
      modifies this
      ensures Valid()
      ensures testResults == old(testResults) + [MakeRecord(test, FAILED, now)]
      ensures reports == old(reports)
    {
      AddTestResult(test, FAILED, now);
    }

    /** `addTestResult`, called by the two hooks only, hence with one of their two statuses. */
    method AddTestResult(test: Test, status: string, now: string)
      requires Valid()
      requires status == PASSED || status == FAILED
      modifies this
      ensures Valid()
      ensures testResults == old(testResults) + [MakeRecord(test, status, now)]
      ensures reports == old(reports)
    {
      var record := MakeRecord(test, status, now);
      assert WellFormed(record);
      AppendKeepsWellFormed(testResults, record);
      testResults := testResults + [record];
    }

    /** `onRunnerEnd`: the whole list is written once, in collection order. */
    method OnRunnerEnd(now: string)
      requires Valid()
      modifies this
      ensures Valid()
      ensures reports == old(reports) + [Report(outputDirectory, ReportFileName(now), testResults)]
      ensures testResults == old(testResults)
    {
      WriteJsonReport(now);
    }

    /** `writeJSONReport`: one file named after the completion time `now`. */
    method WriteJsonReport(now: string)
      requires Valid()
      modifies this
      ensures Valid()
      ensures reports == old(reports) + [Report(outputDirectory, ReportFileName(now), testResults)]
      ensures testResults == old(testResults)
    {
      var fileName := ReportFileName(now);
      reports := reports + [Report(outputDirectory, fileName, testResults)];
    }
  }
}
