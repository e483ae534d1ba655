/**
 * The two stages together: what the reporter writes is what the converter
 * reads. A report file is a ".json" name holding a JSON array of records;
 * parsed back, each record becomes a converter entry with every field present.
 */
module Pipeline {
  import opened Wrappers
  import opened JsString
  import ErrorText
  import Reporter
  import Converter

  /** A reporter record as the converter sees it after `JSON.stringify` and `JSON.parse`; the timestamp key is not read. */
  function AsEntry(r: Reporter.ReportRecord): (e: Converter.TestEntry)
    ensures e.suiteName == Some(r.suiteName) && e.testName == Some(r.testName)
    ensures e.status == Some(r.status) && e.error == Some(r.error)
  {
    Converter.TestEntry(Some(r.suiteName), Some(r.testName), Some(r.status), Some(r.error))
  }

  function AsEntries(records: seq<Reporter.ReportRecord>): (entries: seq<Converter.TestEntry>)
    ensures |entries| == |records|
    ensures forall k :: 0 <= k < |records| ==> entries[k] == AsEntry(records[k])
  {
    seq(|records|, k requires 0 <= k < |records| => AsEntry(records[k]))
  }

  /** The listing entry of a written report: its file name, holding the records as a JSON array. */
  function AsDirEntry(report: Reporter.Report): Converter.DirEntry {
    Converter.DirEntry(report.fileName, Converter.JsonArray(AsEntries(report.records)))
  }

  /**
   * A record the reporter writes keeps its test name, status and error
   * through the converter's normalisation; its suite name only loses a
   * trailing "suite<digits>", since the reporter never leaves a field falsy
   * that the converter would default.
   */
  lemma RecordSurvivesNormalization(r: Reporter.ReportRecord)
    requires Reporter.WellFormed(r)
    ensures Converter.Normalize(AsEntry(r)) ==
      Converter.Row(Converter.RemoveSuiteSuffix(r.suiteName), Some(r.testName), r.status, r.error)
  {
  }

  /** Every report file name ends in ".json", so the converter reads it. */
  lemma ReportFilesAreRead(now: string)
    ensures Converter.IsJsonName(Reporter.ReportFileName(now))
  {
  }

  /** The records of all reports, as converter entries, in order. */
  function AllEntries(reports: seq<Reporter.Report>): seq<Converter.TestEntry>
    decreases |reports|
  {
    if reports == [] then [] else AllEntries(reports[..|reports| - 1]) + AsEntries(reports[|reports| - 1].records)
  }

  /**
   * A folder holding the reports of several runs is ingested without abort,
   * the records of each report in order, the reports in listing order.
   */
  lemma {:induction false} ReportsAreIngested(reports: seq<Reporter.Report>, times: seq<string>)
    requires |times| == |reports|
    requires forall k :: 0 <= k < |reports| ==> reports[k].fileName == Reporter.ReportFileName(times[k])
    ensures var files := seq(|reports|, k requires 0 <= k < |reports| => AsDirEntry(reports[k]));
      Converter.Ingest(files) == Converter.Ingested(AllEntries(reports), false)
    decreases |reports|
  {
    var files := seq(|reports|, k requires 0 <= k < |reports| => AsDirEntry(reports[k]));
    if reports != [] {
      var n := |reports| - 1;
      ReportFilesAreRead(times[n]);
      ReportsAreIngested(reports[..n], times[..n]);
      assert files[..n] == seq(n, k requires 0 <= k < n => AsDirEntry(reports[..n][k]));
    }
  }

  /**
   * Records from the reporter have no "UNKNOWN" status, so on the summary
   * sheet the passed and failed counts add up to the total.
   */
  lemma ReporterCountsAddUp(records: seq<Reporter.ReportRecord>)
    requires forall k :: 0 <= k < |records| ==> Reporter.WellFormed(records[k])
    ensures var rows := Converter.NormalizeAll(AsEntries(records));
      Converter.CountStatus(rows, Converter.PASSED) + Converter.CountStatus(rows, Converter.FAILED) == |rows|
  {
    var rows := Converter.NormalizeAll(AsEntries(records));
    forall k | 0 <= k < |rows|
      ensures rows[k].status == Converter.PASSED || rows[k].status == Converter.FAILED
    {
      RecordSurvivesNormalization(records[k]);
    }
    Converter.PassedAndFailedWithinTotal(rows);
  }

  /** The two copies of the error cleaning agree on every non-empty message. */
  lemma SanitizeCopiesAgree(message: string)
    requires message != ""
    ensures Converter.SanitizeErrorMessage(Some(message)) == Some(Reporter.SanitizeErrorMessage(message))
  {
  }

  /** The converter's copy is guarded: on an empty message it gives no result where the reporter's gives "". */
  lemma SanitizeCopiesDifferOnEmpty()
    ensures Converter.SanitizeErrorMessage(Some("")) == None
    ensures Converter.SanitizeErrorMessage(None) == None
    ensures Reporter.SanitizeErrorMessage("") == ""
  {
    assert FirstLine(ErrorText.StripAnsi("")) == "";
  }
}
