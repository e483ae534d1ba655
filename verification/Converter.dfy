/**
 * The second stage of the pipeline: a converter that reads every JSON report
 * in a folder, normalises each record into one in-memory list, lays the list
 * out as a detail sheet whose suite-name cells are merged over runs of
 * adjacent equal suites, adds a summary sheet of counts, and renders the
 * counts as a one-line text summary.
 */
module Converter {
  import opened Wrappers
  import opened JsString
  import ErrorText

  const PASSED: string := "PASSED"
  const FAILED: string := "FAILED"
  const UNKNOWN: string := "UNKNOWN"
  const DEFAULT_SUITE: string := "Default Suite"

  /** One element of a parsed report array; each field may be missing. */
  datatype TestEntry = TestEntry(
    suiteName: Option<string>,
    testName: Option<string>,
    status: Option<string>,
    error: Option<string>)

  /** One normalised record of `testResults`; the test name is copied, so it may still be missing. */
  datatype Row = Row(suiteName: string, testName: Option<string>, status: string, error: string)

  /** What reading and parsing a file gives: an array, another JSON value, or an exception. */
  datatype ParseOutcome = JsonArray(items: seq<TestEntry>) | NotArray | Unparsable

  /** One name of the folder listing, with the outcome of reading and parsing it. */
  datatype DirEntry = DirEntry(name: string, content: ParseOutcome)

  /** The entries ingested so far, and whether an exception ended the conversion. */
  datatype Ingested = Ingested(entries: seq<TestEntry>, aborted: bool)

  /** The two fills of the status cell. */
  datatype Fill = PassedFill | FailedFill

  /** One data row of the detail sheet: its sheet row number, its cells and its status fill. */
  datatype DetailRow = DetailRow(number: nat, cells: Row, statusFill: Fill)

  /**
   * One `mergeCells(top, 1, bottom, 1)` call on the suite-name column, which
   * also gives the top cell the bold suite style.
   */
  datatype SuiteMerge = SuiteMerge(top: nat, bottom: nat)

  /** The data part of the "Test Results" sheet: rows in order and merge calls in order. */
  datatype DetailSheet = DetailSheet(rows: seq<DetailRow>, merges: seq<SuiteMerge>)

  /** One row of the "Summary" sheet. */
  datatype Stat = Stat(metric: string, value: nat)

  /** A run of records, by first and last index (inclusive). */
  datatype Run = Run(first: nat, last: nat)

  // ---------------------------------------------------------------------
  // Suite-name normalisation
  // ---------------------------------------------------------------------

  /** The word "suite" as `/suite/i` matches it: only the ASCII letters fold. */
  predicate IsSuiteWord(w: string) {
    && |w| == 5
    && (w[0] == 's' || w[0] == 'S')
    && (w[1] == 'u' || w[1] == 'U')
    && (w[2] == 'i' || w[2] == 'I')
    && (w[3] == 't' || w[3] == 'T')
    && (w[4] == 'e' || w[4] == 'E')
  }

  /** `/suite\d+$/i` matches `s` at index `i`. */
  predicate SuffixAt(s: string, i: int) {
    0 <= i && i + 5 < |s| && IsSuiteWord(s[i..i + 5]) && AllDigits(s[i + 5..])
  }

  /** Length of the longest all-digit suffix. */
  function TrailingDigits(s: string): (n: nat)
    ensures n <= |s|
    ensures AllDigits(s[|s| - n..])
    ensures n == |s| || !IsDigit(s[|s| - n - 1])
  {
    if s != [] && IsDigit(s[|s| - 1]) then
      var init := s[..|s| - 1];
      var m := TrailingDigits(init);
      assert forall k :: |s| - 1 - m <= k < |s| - 1 ==> s[k] == init[k];
      1 + m
    else
      0
  }

  /**
   * `removeSuiteSuffix`: when "suite" in any letter case followed by one or
   * more digits ends the name, exactly that suffix is removed; otherwise the
   * name is returned unchanged. The result is always a prefix of the name.
   */
  function RemoveSuiteSuffix(s: string): (r: string)
    ensures |r| <= |s| && r == s[..|r|]
    ensures r != s ==> SuffixAt(s, |r|)
    ensures forall i :: SuffixAt(s, i) ==> r == s[..i]
  {
    var n := TrailingDigits(s);
    var i := |s| - n - 5;
    if n > 0 && i >= 0 && IsSuiteWord(s[i..|s| - n]) then
      s[..i]
    else
      assert forall i :: SuffixAt(s, i) ==> false by {
        forall i | SuffixAt(s, i) ensures false {
          SuffixIsTrailingDigits(s, i);
        }
      }
      s
  }

  /** Where the pattern matches, its digits are exactly the trailing digit run. */
  lemma SuffixIsTrailingDigits(s: string, i: int)
    requires SuffixAt(s, i)
    ensures TrailingDigits(s) == |s| - i - 5
  {
    var n := TrailingDigits(s);
    var w := s[i..i + 5];
    assert w[4] == s[i + 4];
  }

  /** Matches of the pattern at two places are impossible: the match, if any, is unique. */
  lemma SuffixAtUnique(s: string, i: int, j: int)
    requires SuffixAt(s, i) && SuffixAt(s, j)
    ensures i == j
  {
    SuffixIsTrailingDigits(s, i);
    SuffixIsTrailingDigits(s, j);
  }

  /** A name ending in "suite" and digits loses exactly that ending. */
  lemma SuffixRemoved(s: string, i: nat)
    requires SuffixAt(s, i)
    ensures RemoveSuiteSuffix(s) == s[..i]
  {
  }

  /** "Login suite2" becomes "Login ". */
  lemma RemoveSuiteSuffixLowerCase()
    ensures RemoveSuiteSuffix("Login suite2") == "Login "
  {
    var s := "Login suite2";
    assert s[6..11] == "suite" && s[11..] == "2";
    SuffixRemoved(s, 6);
  }

  /** "X SUITE12" becomes "X ": the letters match in any case. */
  lemma RemoveSuiteSuffixUpperCase()
    ensures RemoveSuiteSuffix("X SUITE12") == "X "
  {
    var s := "X SUITE12";
    assert s[2..7] == "SUITE" && s[7..] == "12";
    SuffixRemoved(s, 2);
  }

  /** A name without the suffix is returned unchanged. */
  lemma RemoveSuiteSuffixNoMatch()
    ensures RemoveSuiteSuffix("Checkout") == "Checkout"
  {
    var s := "Checkout";
    assert TrailingDigits(s) == 0 by { assert !IsDigit(s[7]); }
  }

  /** Removing the suffix is not idempotent: "asuite1suite2" becomes "asuite1", which becomes "a". */
  lemma RemoveSuiteSuffixNotIdempotent()
    ensures RemoveSuiteSuffix("asuite1suite2") == "asuite1"
    ensures RemoveSuiteSuffix("asuite1") == "a"
  {
    var s, t := "asuite1suite2", "asuite1";
    assert s[7..12] == "suite" && s[12..] == "2" && s[..7] == t;
    SuffixRemoved(s, 7);
    assert t[1..6] == "suite" && t[6..] == "1";
    SuffixRemoved(t, 1);
  }

  // ---------------------------------------------------------------------
  // Record normalisation and the converter's copy of the error cleaning
  // ---------------------------------------------------------------------

  /**
   * The record `addTestResult` pushes for `test`: the suite name defaults to
   * "Default Suite" and loses its "suite<digits>" suffix, the status defaults
   * to "UNKNOWN", the error to "", and the test name is copied as it is.
   */
  function Normalize(test: TestEntry): (row: Row)
    ensures row.testName == test.testName
    ensures row.suiteName == RemoveSuiteSuffix(OrDefault(test.suiteName, DEFAULT_SUITE))
    ensures row.status != ""
    ensures row.status == UNKNOWN <==> test.status.None? || test.status.value in {"", UNKNOWN}
    ensures row.status != UNKNOWN ==> test.status == Some(row.status)
    ensures test.error.Some? ==> row.error == test.error.value
    ensures test.error.None? ==> row.error == ""
  {
    Row(
      RemoveSuiteSuffix(OrDefault(test.suiteName, DEFAULT_SUITE)),
      test.testName,
      OrDefault(test.status, UNKNOWN),
      OrDefault(test.error, ""))
  }

  function NormalizeAll(tests: seq<TestEntry>): (rows: seq<Row>)
    ensures |rows| == |tests|
    ensures forall k :: 0 <= k < |tests| ==> rows[k] == Normalize(tests[k])
  {
    seq(|tests|, k requires 0 <= k < |tests| => Normalize(tests[k]))
  }

  /**
   * The converter's `sanitizeErrorMessage`, which nothing calls: `undefined` for a falsy message,
   * otherwise the cleaned single-line text.
   */
  function SanitizeErrorMessage(message: Option<string>): (r: Option<string>)
    ensures r.None? <==> message.None? || message.value == ""
    ensures r.Some? ==> '\n' !in r.value && Trimmed(r.value)
  {
    if message.Some? && message.value != "" then Some(ErrorText.Sanitize(message.value)) else None
  }

  // ---------------------------------------------------------------------
  // Ingest: the folder loop of convertJSONFolderToExcel
  // ---------------------------------------------------------------------

  /** A listed name the loop reads. */
  predicate IsJsonName(name: string) {
    EndsWith(name, ".json")
  }

  /** A ".json" file whose reading or parsing throws. */
  predicate IsBroken(file: DirEntry) {
    IsJsonName(file.name) && file.content.Unparsable?
  }

  /** The entries one listed name contributes when nothing has gone wrong. */
  function Contribution(file: DirEntry): (r: seq<TestEntry>)
    ensures !IsJsonName(file.name) ==> r == []
    ensures file.content.NotArray? || file.content.Unparsable? ==> r == []
    ensures IsJsonName(file.name) && file.content.JsonArray? ==> r == file.content.items
  {
    if IsJsonName(file.name) && file.content.JsonArray? then file.content.items else []
  }

  /** The contributions of all names, in listing order. */
  function Contributions(files: seq<DirEntry>): (r: seq<TestEntry>)
    ensures (forall k :: 0 <= k < |files| ==> !IsJsonName(files[k].name)) ==> r == []
    decreases |files|
  {
    if files == [] then [] else Contributions(files[..|files| - 1]) + Contribution(files[|files| - 1])
  }

  /** The contributions of two listings one after the other are the two contributions concatenated. */
  lemma {:induction false} ContributionsAppend(a: seq<DirEntry>, b: seq<DirEntry>)
    ensures Contributions(a + b) == Contributions(a) + Contributions(b)
    decreases |b|
  {
    if b == [] {
      assert a + b == a;
    } else {
      var init := b[..|b| - 1];
      assert (a + b)[..|a + b| - 1] == a + init;
      ContributionsAppend(a, init);
      AppendAssociative(Contributions(a), Contributions(init), Contribution(b[|b| - 1]));
    }
  }

  /**
   * One iteration of the folder loop: after an abort nothing happens; a broken
   * ".json" file aborts and keeps the entries; any other name appends what it
   * contributes.
   */
  function IngestFile(acc: Ingested, file: DirEntry): (r: Ingested)
    ensures acc.aborted ==> r == acc
    ensures r.aborted <==> acc.aborted || IsBroken(file)
    ensures r.aborted ==> r.entries == acc.entries
    ensures !r.aborted ==> r.entries == acc.entries + Contribution(file)
  {
    if acc.aborted || !IsJsonName(file.name) then
      assert acc.entries + [] == acc.entries;
      acc
    else match file.content
      case Unparsable => Ingested(acc.entries, true)
      case NotArray =>
        assert acc.entries + [] == acc.entries;
        acc
      case JsonArray(items) => Ingested(acc.entries + items, false)
  }

  /**
   * The folder loop over the whole listing: what it collects is always a
   * prefix of the listing's contributions, all of them when it does not abort.
   */
  function Ingest(files: seq<DirEntry>): (r: Ingested)
    ensures r.entries <= Contributions(files)
    ensures !r.aborted ==> r.entries == Contributions(files)
    decreases |files|
  {
    if files == [] then Ingested([], false)
    else
      IngestFile(Ingest(files[..|files| - 1]), files[|files| - 1])
  }

  /** The folder loop aborts exactly when some ".json" file in the listing throws. */
  lemma {:induction false} IngestAbortsIffBroken(files: seq<DirEntry>)
    ensures Ingest(files).aborted <==> exists k :: 0 <= k < |files| && IsBroken(files[k])
  {
    if files != [] {
      var init := files[..|files| - 1];
      IngestAbortsIffBroken(init);
      IngestAbortStep(files);
      BrokenInSnoc(files);
    }
  }

  /** The last iteration aborts the loop exactly when it had aborted already or the last file is broken. */
  lemma IngestAbortStep(files: seq<DirEntry>)
    requires files != []
    ensures Ingest(files).aborted <==> Ingest(files[..|files| - 1]).aborted || IsBroken(files[|files| - 1])
  {
    assert Ingest(files) == IngestFile(Ingest(files[..|files| - 1]), files[|files| - 1]);
  }

  /** Some file of a listing is broken exactly when one before the last is, or the last is. */
  lemma BrokenInSnoc(files: seq<DirEntry>)
    requires files != []
    ensures var n := |files| - 1;
      (exists k :: 0 <= k < |files| && IsBroken(files[k])) <==>
      (exists k :: 0 <= k < n && IsBroken(files[..n][k])) || IsBroken(files[n])
  {
    var n := |files| - 1;
    if exists k :: 0 <= k < |files| && IsBroken(files[k]) {
      var k :| 0 <= k < |files| && IsBroken(files[k]);
      if k < n {
        assert files[..n][k] == files[k];
      }
    }
    if exists k :: 0 <= k < n && IsBroken(files[..n][k]) {
      var k :| 0 <= k < n && IsBroken(files[..n][k]);
      assert files[k] == files[..n][k];
    }
  }

  /**
   * Without a broken ".json" file the conversion is not aborted and takes the
   * arrays of the ".json" files, element by element, in listing order;
   * everything else is skipped.
   */
  lemma {:induction false} IngestWithoutBrokenFiles(files: seq<DirEntry>)
    requires forall k :: 0 <= k < |files| ==> !IsBroken(files[k])
    ensures Ingest(files) == Ingested(Contributions(files), false)
  {
    if files != [] {
      IngestWithoutBrokenFiles(files[..|files| - 1]);
    }
  }

  /**
   * The first broken ".json" file aborts the conversion: the entries of the
   * names before it stay, and no later name is read.
   */
  lemma {:induction false} IngestStopsAtBrokenFile(files: seq<DirEntry>, k: nat)
    requires k < |files| && IsBroken(files[k])
    requires forall j :: 0 <= j < k ==> !IsBroken(files[j])
    ensures Ingest(files) == Ingested(Contributions(files[..k]), true)
  {
    var init := files[..|files| - 1];
    if |files| == k + 1 {
      assert init == files[..k];
      IngestWithoutBrokenFiles(init);
    } else {
      assert init[..k] == files[..k];
      IngestStopsAtBrokenFile(init, k);
    }
  }

  /** Ingesting a prefix and then one more name is ingesting the longer prefix. */
  lemma IngestPrefixStep(files: seq<DirEntry>, i: nat)
    requires i < |files|
    ensures Ingest(files[..i + 1]) == IngestFile(Ingest(files[..i]), files[i])
  {
    assert files[..i + 1][..i] == files[..i];
  }

  /** Once aborted, later names change nothing. */
  lemma {:induction false} IngestAbortIsFinal(files: seq<DirEntry>, i: nat)
    requires i <= |files| && Ingest(files[..i]).aborted
    ensures Ingest(files) == Ingest(files[..i])
  {
    if i < |files| {
      var init := files[..|files| - 1];
      assert init[..i] == files[..i];
      IngestAbortIsFinal(init, i);
    } else {
      assert files[..i] == files;
    }
  }

  // ---------------------------------------------------------------------
  // Positional grouping: the run loop of createTestResultSheet
  // ---------------------------------------------------------------------

  /** The suite-name column, in record order. */
  function SuiteNames(rows: seq<Row>): (names: seq<string>)
    ensures |names| == |rows|
    ensures forall k :: 0 <= k < |rows| ==> names[k] == rows[k].suiteName
  {
    seq(|rows|, k requires 0 <= k < |rows| => rows[k].suiteName)
  }

  /** Run `r` is a non-empty range of indices of `names`, all with the name of its first. */
  ghost predicate Uniform(names: seq<string>, r: Run) {
    && r.first <= r.last < |names|
    && forall i :: r.first <= i <= r.last ==> names[i] == names[r.first]
  }

  /** Run `r` starts where the name changes from the previous record's. */
  ghost predicate StartsNewSuite(names: seq<string>, r: Run) {
    0 < r.first < |names| && names[r.first] != names[r.first - 1]
  }

  /**
   * `rs` cuts `names` into maximal runs of adjacent equal names: the runs are
   * non-empty, consecutive and cover every index; inside a run all names are
   * equal; every run but the first starts where the name changes.
   */
  ghost predicate IsRunDecomposition(names: seq<string>, rs: seq<Run>) {
    && (|rs| == 0 <==> |names| == 0)
    && (|rs| > 0 ==> rs[0].first == 0 && rs[|rs| - 1].last == |names| - 1)
    && (forall k :: 0 <= k < |rs| ==> Uniform(names, rs[k]))
    && (forall k :: 0 < k < |rs| ==> rs[k].first == rs[k - 1].last + 1)
    && (forall k :: 0 < k < |rs| ==> StartsNewSuite(names, rs[k]))
  }

  /**
   * The runs of adjacent equal names, found left to right as the sheet loop
   * finds them: a record with the previous record's name extends the last
   * run, any other record starts a new one. There is a run iff there is a
   * record, and the last run ends at the last record.
   */
  function Runs(names: seq<string>): (rs: seq<Run>)
    ensures |rs| == 0 <==> |names| == 0
    ensures |rs| > 0 ==> rs[|rs| - 1].last == |names| - 1
    decreases |names|
  {
    if names == [] then []
    else
      var n := |names| - 1;
      var rs := Runs(names[..n]);
      if n > 0 && names[n] == names[n - 1] then
        rs[..|rs| - 1] + [Run(rs[|rs| - 1].first, n)]
      else
        rs + [Run(n, n)]
  }

  /** The runs found are maximal runs of adjacent equal names. */
  lemma {:induction false} RunsAreMaximal(names: seq<string>)
    ensures IsRunDecomposition(names, Runs(names))
    decreases |names|
  {
    if names != [] {
      var n := |names| - 1;
      var rs := Runs(names[..n]);
      RunsAreMaximal(names[..n]);
      if n > 0 && names[n] == names[n - 1] {
        RunsExtendLast(names, rs, Runs(names));
      } else {
        RunsAddSingle(names, rs, Runs(names));
      }
    }
  }

  /** Extending the last run by a record of its suite keeps the runs maximal. */
  lemma RunsExtendLast(names: seq<string>, rs: seq<Run>, r: seq<Run>)
    requires |names| > 1 && names[|names| - 1] == names[|names| - 2]
    requires IsRunDecomposition(names[..|names| - 1], rs)
    requires r == rs[..|rs| - 1] + [Run(rs[|rs| - 1].first, |names| - 1)]
    ensures IsRunDecomposition(names, r)
  {
    var n := |names| - 1;
    var init := names[..n];
    forall k | 0 <= k < |r|
      ensures Uniform(names, r[k])
    {
      if k < |rs| - 1 {
        assert r[k] == rs[k] && Uniform(init, rs[k]);
      } else {
        assert Uniform(init, rs[k]);
        assert init[n - 1] == init[rs[k].first];
      }
    }
    forall k | 0 < k < |r|
      ensures StartsNewSuite(names, r[k])
    {
      assert StartsNewSuite(init, rs[k]);
    }
  }

  /** Adding a run for a record of a new suite keeps the runs maximal. */
  lemma RunsAddSingle(names: seq<string>, rs: seq<Run>, r: seq<Run>)
    requires |names| > 0
    requires |names| > 1 ==> names[|names| - 1] != names[|names| - 2]
    requires IsRunDecomposition(names[..|names| - 1], rs)
    requires r == rs + [Run(|names| - 1, |names| - 1)]
    ensures IsRunDecomposition(names, r)
  {
    var n := |names| - 1;
    var init := names[..n];
    forall k | 0 <= k < |r|
      ensures Uniform(names, r[k])
    {
      if k < |rs| {
        assert r[k] == rs[k] && Uniform(init, rs[k]);
      }
    }
    forall k | 0 < k < |r|
      ensures StartsNewSuite(names, r[k])
    {
      if k < |rs| {
        assert r[k] == rs[k] && StartsNewSuite(init, rs[k]);
      }
    }
  }

  /** In consecutive non-empty runs, every run ends before the last one starts. */
  lemma {:induction false} RunsEndBeforeLast(rs: seq<Run>)
    requires forall k :: 0 <= k < |rs| ==> rs[k].first <= rs[k].last
    requires forall k :: 0 < k < |rs| ==> rs[k].first == rs[k - 1].last + 1
    ensures forall k :: 0 <= k < |rs| - 1 ==> rs[k].last < rs[|rs| - 1].first
  {
    if |rs| > 1 {
      RunsEndBeforeLast(rs[..|rs| - 1]);
    }
  }

  /** Removing a final single-record run leaves a decomposition of the shorter list. */
  lemma DropFinalSingleRun(names: seq<string>, rs: seq<Run>)
    requires IsRunDecomposition(names, rs) && names != []
    requires rs[|rs| - 1].first == |names| - 1
    ensures IsRunDecomposition(names[..|names| - 1], rs[..|rs| - 1])
  {
    var n, m := |names| - 1, |rs| - 1;
    var init, rs' := names[..n], rs[..m];
    if m > 0 { assert rs[m - 1].last == n - 1; }
    RunsEndBeforeLast(rs);
    forall k | 0 <= k < |rs'| ensures Uniform(init, rs'[k]) {
      assert Uniform(names, rs[k]);
    }
    forall k | 0 < k < |rs'| ensures StartsNewSuite(init, rs'[k]) {
      assert StartsNewSuite(names, rs[k]);
    }
  }

  /** Shortening a final run of several records by one leaves a decomposition of the shorter list. */
  lemma ShortenFinalRun(names: seq<string>, rs: seq<Run>)
    requires IsRunDecomposition(names, rs) && names != []
    requires rs[|rs| - 1].first < |names| - 1
    ensures IsRunDecomposition(names[..|names| - 1], rs[..|rs| - 1] + [Run(rs[|rs| - 1].first, |names| - 2)])
  {
    var n, m := |names| - 1, |rs| - 1;
    var rs' := rs[..m] + [Run(rs[m].first, n - 1)];
    ShortenedRunsUniform(names, rs);
    ShortenedRunsStartNewSuites(names, rs);
    forall k | 0 < k < |rs'| ensures rs'[k].first == rs'[k - 1].last + 1 {
      assert rs'[k].first == rs[k].first && rs'[k - 1] == rs[k - 1];
    }
  }

  /** After the shortening every run is still uniform in the shorter list. */
  lemma ShortenedRunsUniform(names: seq<string>, rs: seq<Run>)
    requires IsRunDecomposition(names, rs) && names != []
    requires rs[|rs| - 1].first < |names| - 1
    ensures var n, m := |names| - 1, |rs| - 1;
      var rs' := rs[..m] + [Run(rs[m].first, n - 1)];
      forall k :: 0 <= k < |rs'| ==> Uniform(names[..n], rs'[k])
  {
    var n, m := |names| - 1, |rs| - 1;
    var rs' := rs[..m] + [Run(rs[m].first, n - 1)];
    RunsEndBeforeLast(rs);
    forall k | 0 <= k < |rs'| ensures Uniform(names[..n], rs'[k]) {
      if k < m {
        assert rs'[k] == rs[k] == Run(rs[k].first, rs[k].last);
        UniformInPrefix(names, rs[k], rs[k].last, n);
      } else {
        UniformInPrefix(names, rs[m], n - 1, n);
      }
    }
  }

  /** After the shortening every run but the first still starts where the name changes. */
  lemma ShortenedRunsStartNewSuites(names: seq<string>, rs: seq<Run>)
    requires IsRunDecomposition(names, rs) && names != []
    requires rs[|rs| - 1].first < |names| - 1
    ensures var n, m := |names| - 1, |rs| - 1;
      var rs' := rs[..m] + [Run(rs[m].first, n - 1)];
      forall k :: 0 < k < |rs'| ==> StartsNewSuite(names[..n], rs'[k])
  {
    var n, m := |names| - 1, |rs| - 1;
    var rs' := rs[..m] + [Run(rs[m].first, n - 1)];
    RunsEndBeforeLast(rs);
    forall k | 0 < k < |rs'| ensures StartsNewSuite(names[..n], rs'[k]) {
      StartsNewSuiteInPrefix(names, rs[k], n);
      assert rs'[k].first == rs[k].first;
    }
  }

  /** A run of `names` below `n`, possibly cut short at `last`, is a run of `names[..n]`. */
  lemma UniformInPrefix(names: seq<string>, r: Run, last: nat, n: nat)
    requires Uniform(names, r) && r.first <= last <= r.last && last < n <= |names|
    ensures Uniform(names[..n], Run(r.first, last))
  {
  }

  /** A run starting below `n` where the name changes starts where the name changes in `names[..n]`. */
  lemma StartsNewSuiteInPrefix(names: seq<string>, r: Run, n: nat)
    requires StartsNewSuite(names, r) && r.first < n <= |names|
    ensures StartsNewSuite(names[..n], r)
  {
  }


  /** A non-empty sequence is its front followed by its last element. */
  lemma SnocLast<T>(s: seq<T>)
    requires s != []
    ensures s == s[..|s| - 1] + [s[|s| - 1]]
  {
  }

  /** A record of a new suite adds a run of its own. */
  lemma RunsAfterNewSuite(names: seq<string>, rs: seq<Run>)
    requires names != [] && (|names| == 1 || names[|names| - 1] != names[|names| - 2])
    requires rs == Runs(names[..|names| - 1])
    ensures Runs(names) == rs + [Run(|names| - 1, |names| - 1)]
  {
  }

  /** A record of the previous suite extends the last run. */
  lemma RunsAfterSameSuite(names: seq<string>, rs: seq<Run>)
    requires |names| > 1 && names[|names| - 1] == names[|names| - 2]
    requires rs == Runs(names[..|names| - 1])
    ensures Runs(names) == rs[..|rs| - 1] + [Run(rs[|rs| - 1].first, |names| - 1)]
  {
  }

  /** The runs are the only decomposition into maximal runs. */
  lemma {:induction false} RunsUnique(names: seq<string>, rs: seq<Run>)
    requires IsRunDecomposition(names, rs)
    ensures rs == Runs(names)
    decreases |names|
  {
    if names != [] {
      var shorter := ShorterDecomposition(names, rs);
      RunsUnique(names[..|names| - 1], shorter);
    }
  }

  /**
   * A decomposition of all but the last record, from which `rs` is rebuilt
   * the way `Runs` extends its runs by the last record.
   */
  lemma ShorterDecomposition(names: seq<string>, rs: seq<Run>) returns (shorter: seq<Run>)
    requires IsRunDecomposition(names, rs) && names != []
    ensures IsRunDecomposition(names[..|names| - 1], shorter)
    ensures shorter == Runs(names[..|names| - 1]) ==> rs == Runs(names)
  {
    var n, m := |names| - 1, |rs| - 1;
    if rs[m].first == n {
      DropFinalSingleRun(names, rs);
      shorter := rs[..m];
      if shorter == Runs(names[..n]) {
        UniqueAfterNewSuite(names, rs);
      }
    } else {
      ShortenFinalRun(names, rs);
      shorter := rs[..m] + [Run(rs[m].first, n - 1)];
      if shorter == Runs(names[..n]) {
        UniqueAfterSameSuite(names, rs);
      }
    }
  }

  /** Uniqueness when the last run is the last record alone. */
  lemma UniqueAfterNewSuite(names: seq<string>, rs: seq<Run>)
    requires IsRunDecomposition(names, rs) && names != []
    requires rs[|rs| - 1].first == |names| - 1
    requires rs[..|rs| - 1] == Runs(names[..|names| - 1])
    ensures rs == Runs(names)
  {
    var n, m := |names| - 1, |rs| - 1;
    assert n == 0 || names[n] != names[n - 1] by {
      if n > 0 { assert StartsNewSuite(names, rs[m]); }
    }
    RunsAfterNewSuite(names, rs[..m]);
    assert rs[m] == Run(n, n) by { assert Uniform(names, rs[m]); }
    SnocLast(rs);
  }

  /** Uniqueness when the last run holds several records. */
  lemma UniqueAfterSameSuite(names: seq<string>, rs: seq<Run>)
    requires IsRunDecomposition(names, rs) && names != []
    requires rs[|rs| - 1].first < |names| - 1
    requires rs[..|rs| - 1] + [Run(rs[|rs| - 1].first, |names| - 2)] == Runs(names[..|names| - 1])
    ensures rs == Runs(names)
  {
    var n, m := |names| - 1, |rs| - 1;
    var rs' := rs[..m] + [Run(rs[m].first, n - 1)];
    assert names[n] == names[n - 1] by {
      assert Uniform(names, rs[m]);
    }
    RunsAfterSameSuite(names, rs');
    assert |rs'| == m + 1 && rs'[..m] == rs[..m] && rs'[m].first == rs[m].first;
    assert rs[m] == Run(rs[m].first, n);
    SnocLast(rs);
  }

  /** The merge of a run: its records sit on sheet rows first + 2 .. last + 2. */
  function RunMerge(r: Run): SuiteMerge {
    SuiteMerge(r.first + 2, r.last + 2)
  }

  function RunMerges(rs: seq<Run>): (ms: seq<SuiteMerge>)
    ensures |ms| == |rs|
    ensures forall k :: 0 <= k < |rs| ==> ms[k] == RunMerge(rs[k])
  {
    seq(|rs|, k requires 0 <= k < |rs| => RunMerge(rs[k]))
  }

  /**
   * The merge calls of createTestResultSheet, in order: every run followed by
   * a different suite is merged, single rows included; the final run is
   * merged unless it is a single row at the last index; and for an empty list
   * the trailing test still fires and merges rows 2..1.
   */
  function MergeCalls(names: seq<string>): (ms: seq<SuiteMerge>)
    ensures names == [] ==> ms == [SuiteMerge(2, 1)]
    ensures names != [] ==>
      var rs := Runs(names);
      var single := rs[|rs| - 1].first == |names| - 1;
      && |ms| == (if single then |rs| - 1 else |rs|)
      && forall k :: 0 <= k < |ms| ==> ms[k] == RunMerge(rs[k])
  {
    if names == [] then [SuiteMerge(2, 1)]
    else
      var rs := Runs(names);
      var last := rs[|rs| - 1];
      RunMerges(rs[..|rs| - 1]) + (if last.first == |names| - 1 then [] else [RunMerge(last)])
  }

  /** Every record from sheet row `top` to sheet row `bottom` has the suite of the first. */
  ghost predicate OneSuite(names: seq<string>, m: SuiteMerge) {
    && 2 <= m.top <= m.bottom <= |names| + 1
    && forall i :: m.top - 2 <= i <= m.bottom - 2 ==> names[i] == names[m.top - 2]
  }

  /** For a non-empty list every merge spans sheet rows of one suite, inside the data rows. */
  lemma MergesSpanOneSuite(names: seq<string>)
    requires names != []
    ensures var ms := MergeCalls(names);
      forall k :: 0 <= k < |ms| ==> OneSuite(names, ms[k])
  {
    var rs := Runs(names);
    var ms := MergeCalls(names);
    RunsAreMaximal(names);
    forall k | 0 <= k < |ms|
      ensures OneSuite(names, ms[k])
    {
      assert ms[k] == RunMerge(rs[k]) && Uniform(names, rs[k]);
    }
  }

  /** The merges come in increasing row order and do not overlap. */
  lemma MergesInOrder(names: seq<string>)
    requires names != []
    ensures var ms := MergeCalls(names);
      forall k :: 0 < k < |ms| ==> ms[k - 1].bottom < ms[k].top
  {
    var rs := Runs(names);
    var ms := MergeCalls(names);
    RunsAreMaximal(names);
    forall k | 0 < k < |ms|
      ensures ms[k - 1].bottom < ms[k].top
    {
      assert ms[k - 1] == RunMerge(rs[k - 1]) && ms[k] == RunMerge(rs[k]);
    }
  }

  /** A merge cannot be extended upwards: the record above its top row has another suite. */
  lemma MergesMaximalAbove(names: seq<string>)
    requires names != []
    ensures var ms := MergeCalls(names);
      forall k :: 0 <= k < |ms| && 2 < ms[k].top <= |names| + 1 ==> names[ms[k].top - 3] != names[ms[k].top - 2]
  {
    var rs := Runs(names);
    var ms := MergeCalls(names);
    RunsAreMaximal(names);
    forall k | 0 <= k < |ms| && 2 < ms[k].top <= |names| + 1
      ensures names[ms[k].top - 3] != names[ms[k].top - 2]
    {
      assert ms[k] == RunMerge(rs[k]);
      assert StartsNewSuite(names, rs[k]);
    }
  }

  /** A merge cannot be extended downwards: the record below its bottom row has another suite. */
  lemma MergesMaximalBelow(names: seq<string>)
    requires names != []
    ensures var ms := MergeCalls(names);
      forall k :: 0 <= k < |ms| ==> EndsAtChange(names, ms[k])
  {
    var ms := MergeCalls(names);
    forall k | 0 <= k < |ms|
      ensures EndsAtChange(names, ms[k])
    {
      MergeEndsAtChange(names, ms, k);
    }
  }

  /** Merge `m` is followed by a record of another suite, unless it reaches past the last record. */
  ghost predicate EndsAtChange(names: seq<string>, m: SuiteMerge) {
    2 <= m.bottom < |names| + 1 ==> names[m.bottom - 1] != names[m.bottom - 2]
  }

  lemma MergeEndsAtChange(names: seq<string>, ms: seq<SuiteMerge>, k: nat)
    requires names != [] && ms == MergeCalls(names) && k < |ms|
    ensures EndsAtChange(names, ms[k])
  {
    var rs := Runs(names);
    assert k < |rs| && ms[k] == RunMerge(rs[k]);
    if rs[k].last < |names| - 1 {
      RunsAreMaximal(names);
      RunEndsAtChange(names, rs, k);
    }
  }

  /** In a decomposition into maximal runs, the record after a run that is not the last has another suite. */
  lemma RunEndsAtChange(names: seq<string>, rs: seq<Run>, k: nat)
    requires IsRunDecomposition(names, rs)
    requires k < |rs| && rs[k].last < |names| - 1
    ensures names[rs[k].last + 1] != names[rs[k].last]
  {
    assert k + 1 < |rs|;
    assert rs[k + 1].first == rs[k].last + 1;
    assert StartsNewSuite(names, rs[k + 1]);
  }

  /**
   * Grouping is positional: suites a, a, b, a with a != b give the three runs
   * of sizes 2, 1, 1 (not one group of three a's), and the merges 2..3 and
   * 4..4; the final single a is not merged.
   */
  lemma PositionalGrouping(a: string, b: string)
    requires a != b
    ensures Runs([a, a, b, a]) == [Run(0, 1), Run(2, 2), Run(3, 3)]
    ensures MergeCalls([a, a, b, a]) == [SuiteMerge(2, 3), SuiteMerge(4, 4)]
  {
    var rs := [Run(0, 1), Run(2, 2), Run(3, 3)];
    RunsOfExample(a, b);
    assert rs[..2] == [Run(0, 1), Run(2, 2)];
  }

  lemma RunsOfExample(a: string, b: string)
    requires a != b
    ensures Runs([a, a, b, a]) == [Run(0, 1), Run(2, 2), Run(3, 3)]
  {
    assert [a][..0] == [];
    RunsAfterNewSuite([a], []);
    assert [a, a][..1] == [a];
    RunsAfterSameSuite([a, a], [Run(0, 0)]);
    assert [Run(0, 0)][..0] + [Run(0, 1)] == [Run(0, 1)];
    assert [a, a, b][..2] == [a, a];
    RunsAfterNewSuite([a, a, b], [Run(0, 1)]);
    assert [a, a, b, a][..3] == [a, a, b];
    RunsAfterNewSuite([a, a, b, a], [Run(0, 1), Run(2, 2)]);
  }

  // ---------------------------------------------------------------------
  // Detail rows and status fill
  // ---------------------------------------------------------------------

  /** The status cell is filled red exactly for "FAILED"; any other status, "UNKNOWN" included, is filled green. */
  function StatusFill(status: string): (f: Fill)
    ensures f == FailedFill <==> status == FAILED
    ensures f == PassedFill <==> status != FAILED
  {
    if status == FAILED then FailedFill else PassedFill
  }

  /** One data row per record, in order: record k sits on sheet row k + 2, below the header row. */
  function DetailRows(rows: seq<Row>): (detail: seq<DetailRow>)
    ensures |detail| == |rows|
    ensures forall k :: 0 <= k < |rows| ==>
      && detail[k].number == k + 2
      && detail[k].cells == rows[k]
      && (detail[k].statusFill == FailedFill <==> rows[k].status == FAILED)
  {
    seq(|rows|, k requires 0 <= k < |rows| => DetailRow(k + 2, rows[k], StatusFill(rows[k].status)))
  }

  /** The detail sheet createTestResultSheet builds for `rows`. */
  function DetailSheetOf(rows: seq<Row>): (sheet: DetailSheet)
    ensures |sheet.rows| == |rows|
    ensures rows == [] ==> sheet.merges == [SuiteMerge(2, 1)]
  {
    DetailSheet(DetailRows(rows), MergeCalls(SuiteNames(rows)))
  }

  // ---------------------------------------------------------------------
  // Summary counts and the text summary
  // ---------------------------------------------------------------------

  /** `testResults.filter(test => test.status === status).length` */
  function CountStatus(rows: seq<Row>, status: string): (n: nat)
    ensures n <= |rows|
    decreases |rows|
  {
    if rows == [] then 0
    else CountStatus(rows[..|rows| - 1], status) + (if rows[|rows| - 1].status == status then 1 else 0)
  }

  /** The status column, in record order. */
  function Statuses(rows: seq<Row>): (statuses: seq<string>)
    ensures |statuses| == |rows|
    ensures forall k :: 0 <= k < |rows| ==> statuses[k] == rows[k].status
  {
    seq(|rows|, k requires 0 <= k < |rows| => rows[k].status)
  }

  /** The count of a status is its multiplicity in the status column. */
  lemma {:induction false} CountStatusIsMultiplicity(rows: seq<Row>, status: string)
    ensures CountStatus(rows, status) == multiset(Statuses(rows))[status]
    decreases |rows|
  {
    if rows != [] {
      var init := rows[..|rows| - 1];
      CountStatusIsMultiplicity(init, status);
      assert Statuses(rows) == Statuses(init) + [rows[|rows| - 1].status];
    }
  }

  /** Counting distributes over concatenation. */
  lemma {:induction false} CountStatusAppend(a: seq<Row>, b: seq<Row>, status: string)
    ensures CountStatus(a + b, status) == CountStatus(a, status) + CountStatus(b, status)
    decreases |b|
  {
    if b == [] {
      assert a + b == a;
    } else {
      var init := b[..|b| - 1];
      assert (a + b)[..|a + b| - 1] == a + init;
      CountStatusAppend(a, init, status);
    }
  }

  /**
   * Passed and failed records never outnumber the records; they make up all
   * of them exactly when every status is "PASSED" or "FAILED".
   */
  lemma {:induction false} PassedAndFailedWithinTotal(rows: seq<Row>)
    ensures CountStatus(rows, PASSED) + CountStatus(rows, FAILED) <= |rows|
    ensures CountStatus(rows, PASSED) + CountStatus(rows, FAILED) == |rows| <==>
      forall k :: 0 <= k < |rows| ==> rows[k].status == PASSED || rows[k].status == FAILED
    decreases |rows|
  {
    if rows != [] {
      var init := rows[..|rows| - 1];
      PassedAndFailedWithinTotal(init);
      assert forall k :: 0 <= k < |init| ==> init[k] == rows[k];
    }
  }

  /** `calculateSummaryStats`: total, passed and failed counts, in that order. */
  function SummaryStats(rows: seq<Row>): (stats: seq<Stat>)
    ensures |stats| == 3
    ensures stats[0].metric == "Total Tests" && stats[0].value == |rows|
    ensures stats[1].metric == "Passed Tests" && stats[1].value == multiset(Statuses(rows))[PASSED]
    ensures stats[2].metric == "Failed Tests" && stats[2].value == multiset(Statuses(rows))[FAILED]
    ensures stats[1].value + stats[2].value <= stats[0].value
  {
    CountStatusIsMultiplicity(rows, PASSED);
    CountStatusIsMultiplicity(rows, FAILED);
    PassedAndFailedWithinTotal(rows);
    [Stat("Total Tests", |rows|), Stat("Passed Tests", CountStatus(rows, PASSED)), Stat("Failed Tests", CountStatus(rows, FAILED))]
  }

  /** One stat as the template `${metric}: ${value}` renders it. */
  function StatText(stat: Stat): string {
    stat.metric + ": " + NatToString(stat.value)
  }

  /** A stat's text is its label, ": ", then decimal digits denoting its value. */
  lemma StatTextShape(stat: Stat)
    ensures var r, m := StatText(stat), |stat.metric|;
      && |r| > m + 2
      && r[..m] == stat.metric && r[m..m + 2] == ": "
      && AllDigits(r[m + 2..]) && DecimalValue(r[m + 2..]) == stat.value
  {
    var r, m := StatText(stat), |stat.metric|;
    assert r[m + 2..] == NatToString(stat.value);
  }

  /** The stats rendered one by one and joined with ", ". */
  function SummaryLine(stats: seq<Stat>): string {
    Join(seq(|stats|, k requires 0 <= k < |stats| => StatText(stats[k])), ", ")
  }

  /** Joining three parts, grouped to the right. */
  lemma JoinThree(x: string, y: string, z: string, sep: string)
    ensures Join([x, y, z], sep) == x + (sep + (y + (sep + z)))
  {
    assert [x, y, z][1..] == [y, z];
    assert [y, z][1..] == [z];
    assert Join([y, z], sep) == y + sep + z;
    assert x + sep + (y + sep + z) == x + (sep + (y + (sep + z)));
  }

  /** A line of three stats, grouped to the right. */
  lemma LineOfThree(s0: Stat, s1: Stat, s2: Stat)
    ensures SummaryLine([s0, s1, s2]) == StatText(s0) + (", " + (StatText(s1) + (", " + StatText(s2))))
  {
    var stats := [s0, s1, s2];
    assert seq(|stats|, k requires 0 <= k < |stats| => StatText(stats[k])) == [StatText(s0), StatText(s1), StatText(s2)];
    JoinThree(StatText(s0), StatText(s1), StatText(s2), ", ");
  }

  /** A line of three stats, grouped as labels and numbers. */
  lemma FlatLine(m0: string, m1: string, m2: string, t: nat, p: nat, f: nat)
    ensures SummaryLine([Stat(m0, t), Stat(m1, p), Stat(m2, f)]) ==
      (m0 + ": ") + NatToString(t) + (", " + m1 + ": ") + NatToString(p) + (", " + m2 + ": ") + NatToString(f)
  {
    LineOfThree(Stat(m0, t), Stat(m1, p), Stat(m2, f));
  }

  /** The labels of the summary line, each with its separators. */
  lemma Labels()
    ensures "Total Tests" + ": " == "Total Tests: "
    ensures ", " + "Passed Tests" + ": " == ", Passed Tests: "
    ensures ", " + "Failed Tests" + ": " == ", Failed Tests: "
  {
  }

  /** The text summary is "Total Tests: T, Passed Tests: P, Failed Tests: F" with the three counts in decimal. */
  lemma SummaryTextFormat(rows: seq<Row>)
    ensures SummaryLine(SummaryStats(rows)) ==
      "Total Tests: " + NatToString(|rows|)
      + ", Passed Tests: " + NatToString(CountStatus(rows, PASSED))
      + ", Failed Tests: " + NatToString(CountStatus(rows, FAILED))
  {
    FlatLine("Total Tests", "Passed Tests", "Failed Tests", |rows|, CountStatus(rows, PASSED), CountStatus(rows, FAILED));
    Labels();
  }

  /** A common prefix can be cancelled. */
  lemma DropPrefix(p: string, u: string, v: string)
    requires p + u == p + v
    ensures u == v
  {
    assert u == (p + u)[|p|..] && v == (p + v)[|p|..];
  }

  /** A rendered stat followed by text that does not start with a digit gives back its value. */
  lemma ReadStat(m: string, a: nat, b: nat, r: string, t: string)
    requires r == [] || !IsDigit(r[0])
    requires t == [] || !IsDigit(t[0])
    requires StatText(Stat(m, a)) + r == StatText(Stat(m, b)) + t
    ensures a == b && r == t
  {
    var x, y := NatToString(a), NatToString(b);
    assert StatText(Stat(m, a)) + r == (m + ": ") + (x + r);
    assert StatText(Stat(m, b)) + t == (m + ": ") + (y + t);
    DropPrefix(m + ": ", x + r, y + t);
    DigitRunIsDetermined(x, r, y, t);
    NatToStringInjective(a, b);
  }

  /** Three stats with the same labels and the same line have the same values. */
  lemma SummaryLineDeterminesValues(xs: seq<Stat>, ys: seq<Stat>)
    requires |xs| == 3 && |ys| == 3
    requires forall k :: 0 <= k < 3 ==> xs[k].metric == ys[k].metric
    requires SummaryLine(xs) == SummaryLine(ys)
    ensures xs == ys
  {
    LineOfThree(xs[0], xs[1], xs[2]);
    LineOfThree(ys[0], ys[1], ys[2]);
    assert xs == [xs[0], xs[1], xs[2]] && ys == [ys[0], ys[1], ys[2]];
    var a1, a2 := StatText(xs[1]), StatText(xs[2]);
    var b1, b2 := StatText(ys[1]), StatText(ys[2]);
    assert xs[0] == Stat(xs[0].metric, xs[0].value) && ys[0] == Stat(xs[0].metric, ys[0].value);
    ReadStat(xs[0].metric, xs[0].value, ys[0].value, ", " + (a1 + (", " + a2)), ", " + (b1 + (", " + b2)));
    DropPrefix(", ", a1 + (", " + a2), b1 + (", " + b2));
    assert xs[1] == Stat(xs[1].metric, xs[1].value) && ys[1] == Stat(xs[1].metric, ys[1].value);
    ReadStat(xs[1].metric, xs[1].value, ys[1].value, ", " + a2, ", " + b2);
    DropPrefix(", ", a2, b2);
    assert a2 + [] == b2 + [];
    assert xs[2] == Stat(xs[2].metric, xs[2].value) && ys[2] == Stat(xs[2].metric, ys[2].value);
    ReadStat(xs[2].metric, xs[2].value, ys[2].value, [], []);
  }

  /** The text summary can be read back: equal lines mean equal counts. */
  lemma SummaryLineDeterminesCounts(a: seq<Row>, b: seq<Row>)
    requires SummaryLine(SummaryStats(a)) == SummaryLine(SummaryStats(b))
    ensures |a| == |b|
    ensures CountStatus(a, PASSED) == CountStatus(b, PASSED)
    ensures CountStatus(a, FAILED) == CountStatus(b, FAILED)
  {
    SummaryLineDeterminesValues(SummaryStats(a), SummaryStats(b));
  }

  /**
   * The state of the sheet loop after `index` records: the previous suite
   * name, the start row of the current run, and the merges issued so far,
   * which are those of every run but the last.
   */
  ghost predicate SheetLoopState(names: seq<string>, index: nat, prev: Option<string>, start: nat, merges: seq<SuiteMerge>) {
    && index <= |names|
    && (index == 0 ==> prev.None? && start == 1 && merges == [])
    && (index > 0 ==>
      var rs := Runs(names[..index]);
      && prev == Some(names[index - 1])
      && start == rs[|rs| - 1].first + 1
      && merges == RunMerges(rs[..|rs| - 1]))
  }

  /** The sheet loop meets a record whose suite differs from the previous one: the current run is merged and a new one starts. */
  lemma SheetStepNewSuite(names: seq<string>, index: nat, prev: Option<string>, start: nat, merges: seq<SuiteMerge>)
    requires SheetLoopState(names, index, prev, start, merges) && index < |names|
    requires prev != Some(names[index])
    ensures index == 0 ==> start == index + 1
    ensures index > 0 ==> start != index + 1
    ensures SheetLoopState(names, index + 1, Some(names[index]), index + 1,
      if start != index + 1 then merges + [SuiteMerge(start + 1, index + 1)] else merges)
  {
    if index == 0 {
      assert names[..1][..0] == [];
    } else {
      NewSuiteRuns(names, index);
    }
  }

  /** The runs before and after a record whose suite differs from the previous record's. */
  lemma NewSuiteRuns(names: seq<string>, index: nat)
    requires 0 < index < |names| && names[index] != names[index - 1]
    ensures var rs, rs2 := Runs(names[..index]), Runs(names[..index + 1]);
      && rs[|rs| - 1].first < index
      && rs2[|rs2| - 1].first == index
      && RunMerges(rs2[..|rs2| - 1]) == RunMerges(rs[..|rs| - 1]) + [SuiteMerge(rs[|rs| - 1].first + 2, index + 1)]
  {
    var rs := Runs(names[..index]);
    assert names[..index + 1][..index] == names[..index];
    RunsAfterNewSuite(names[..index + 1], rs);
    var rs2 := Runs(names[..index + 1]);
    assert rs2[..|rs2| - 1] == rs;
    LastRunIsOrdered(names[..index]);
    RunMergesSnoc(rs);
  }

  lemma LastRunIsOrdered(names: seq<string>)
    requires names != []
    ensures var rs := Runs(names); rs[|rs| - 1].first <= rs[|rs| - 1].last
  {
    RunsAreMaximal(names);
    var rs := Runs(names);
    assert Uniform(names, rs[|rs| - 1]);
  }

  lemma RunMergesSnoc(rs: seq<Run>)
    requires rs != []
    ensures RunMerges(rs) == RunMerges(rs[..|rs| - 1]) + [RunMerge(rs[|rs| - 1])]
  {
  }

  /** The sheet loop meets a record of the previous record's suite: the current run grows. */
  lemma SheetStepSameSuite(names: seq<string>, index: nat, prev: Option<string>, start: nat, merges: seq<SuiteMerge>)
    requires SheetLoopState(names, index, prev, start, merges) && index < |names|
    requires prev == Some(names[index])
    ensures SheetLoopState(names, index + 1, prev, start, merges)
  {
    var rs := Runs(names[..index]);
    assert names[..index + 1][..index] == names[..index];
    RunsAfterSameSuite(names[..index + 1], rs);
  }

  /** After the sheet loop, the trailing test completes the merge calls. */
  lemma SheetFinish(names: seq<string>, prev: Option<string>, start: nat, merges: seq<SuiteMerge>)
    requires SheetLoopState(names, |names|, prev, start, merges)
    ensures MergeCalls(names) ==
      if start != |names| then merges + [SuiteMerge(start + 1, |names| + 1)] else merges
  {
    if names != [] {
      assert names[..|names|] == names;
      var rs := Runs(names);
      var last := rs[|rs| - 1];
      assert start == last.first + 1 && merges == RunMerges(rs[..|rs| - 1]);
      assert RunMerge(last) == SuiteMerge(start + 1, |names| + 1);
    }
  }

  /** The variables of the sheet loop: the previous suite name, the row index where the current run starts, the merges issued so far. */
  datatype SheetScan = SheetScan(prev: Option<string>, start: nat, merges: seq<SuiteMerge>)

  /** The sheet loop's variables after it has gone through records with suite names `names`. */
  ghost function ScanSuites(names: seq<string>): (s: SheetScan)
    ensures names == [] ==> s == SheetScan(None, 1, [])
    ensures names != [] ==> s.prev == Some(names[|names| - 1]) && 1 <= s.start <= |names|
  {
    if names == [] then SheetScan(None, 1, [])
    else
      var index := |names| - 1;
      var s := ScanSuites(names[..index]);
      if s.prev != Some(names[index]) then
        SheetScan(Some(names[index]), index + 1,
          if s.start != index + 1 then s.merges + [SuiteMerge(s.start + 1, index + 1)] else s.merges)
      else
        s
  }

  /** One more record: the sheet loop's step, as `ScanSuites` takes it. */
  lemma ScanSuitesStep(names: seq<string>, index: nat)
    requires index < |names|
    ensures var s := ScanSuites(names[..index]);
      ScanSuites(names[..index + 1]) ==
        if s.prev != Some(names[index]) then
          SheetScan(Some(names[index]), index + 1,
            if s.start != index + 1 then s.merges + [SuiteMerge(s.start + 1, index + 1)] else s.merges)
        else s
  {
    assert names[..index + 1][..index] == names[..index];
  }

  /** The sheet loop's state depends only on the records it has gone through. */
  lemma SheetLoopStateOfPrefix(names: seq<string>, index: nat, prev: Option<string>, start: nat, merges: seq<SuiteMerge>)
    requires index <= |names| && SheetLoopState(names[..index], index, prev, start, merges)
    ensures SheetLoopState(names, index, prev, start, merges)
  {
    assert names[..index][..index] == names[..index];
  }

  /** The sheet loop's variables always describe the runs of the records seen so far. */
  lemma {:induction false} ScanSuitesFollowsRuns(names: seq<string>, prev: Option<string>, start: nat, merges: seq<SuiteMerge>)
    requires ScanSuites(names) == SheetScan(prev, start, merges)
    ensures SheetLoopState(names, |names|, prev, start, merges)
  {
    if names != [] {
      var index := |names| - 1;
      var init := names[..index];
      var SheetScan(p, st, m) := ScanSuites(init);
      ScanSuitesFollowsRuns(init, p, st, m);
      SheetLoopStateOfPrefix(names, index, p, st, m);
      if p != Some(names[index]) {
        assert prev == Some(names[index]) && start == index + 1;
        assert merges == if st != index + 1 then m + [SuiteMerge(st + 1, index + 1)] else m;
        SheetStepNewSuite(names, index, p, st, m);
      } else {
        assert prev == p && start == st && merges == m;
        SheetStepSameSuite(names, index, p, st, m);
      }
    }
  }

  /** The merges the sheet loop and its trailing test issue are the merge calls of the runs. */
  lemma ScanSuitesGivesMergeCalls(names: seq<string>, prev: Option<string>, start: nat, merges: seq<SuiteMerge>)
    requires ScanSuites(names) == SheetScan(prev, start, merges)
    ensures MergeCalls(names) == if start != |names| then merges + [SuiteMerge(start + 1, |names| + 1)] else merges
  {
    ScanSuitesFollowsRuns(names, prev, start, merges);
    SheetFinish(names, prev, start, merges);
  }

  /** The folder loop reads an array from a ".json" file. */
  lemma IngestStepArray(files: seq<DirEntry>, i: nat)
    requires i < |files| && !Ingest(files[..i]).aborted
    requires IsJsonName(files[i].name) && files[i].content.JsonArray?
    ensures Ingest(files[..i + 1]) == Ingested(Ingest(files[..i]).entries + files[i].content.items, false)
  {
    IngestPrefixStep(files, i);
  }

  /** The folder loop passes over a name without adding anything. */
  lemma IngestStepSkip(files: seq<DirEntry>, i: nat)
    requires i < |files| && !Ingest(files[..i]).aborted
    requires !IsJsonName(files[i].name) || files[i].content.NotArray?
    ensures Ingest(files[..i + 1]) == Ingest(files[..i])
  {
    IngestPrefixStep(files, i);
  }

  /** The folder loop meets a ".json" file that throws: the whole listing ends there. */
  lemma IngestStepAbort(files: seq<DirEntry>, i: nat)
    requires i < |files| && !Ingest(files[..i]).aborted
    requires IsBroken(files[i])
    ensures Ingest(files) == Ingested(Ingest(files[..i]).entries, true)
  {
    IngestPrefixStep(files, i);
    IngestAbortIsFinal(files, i + 1);
  }

  /** Normalising distributes over concatenation. */
  lemma NormalizeAllAppend(a: seq<TestEntry>, b: seq<TestEntry>)
    ensures NormalizeAll(a + b) == NormalizeAll(a) + NormalizeAll(b)
  {
  }

  /** Concatenation is associative. */
  lemma AppendAssociative<T>(a: seq<T>, b: seq<T>, c: seq<T>)
    ensures a + b + c == a + (b + c)
  {
  }

  /** Normalising one more entry appends one more record. */
  lemma NormalizeAllSnoc(tests: seq<TestEntry>, test: TestEntry)
    ensures NormalizeAll(tests + [test]) == NormalizeAll(tests) + [Normalize(test)]
  {
  }

  /** The rows of one more record are the rows so far and one more row. */
  lemma DetailRowsSnoc(rows: seq<Row>, k: nat)
    requires k < |rows|
    ensures DetailRows(rows[..k + 1]) == DetailRows(rows[..k]) + [DetailRow(k + 2, rows[k], StatusFill(rows[k].status))]
  {
  }

  /**
   * The row loop of createTestResultSheet: one row per record with its status
   * fill, and a merge call each time the suite name changes after a run that
   * is not a single row at the current index.
   */
  method ScanRecords(results: seq<Row>) returns (rows: seq<DetailRow>, prevSuiteName: Option<string>, mergeStartRow: nat, merges: seq<SuiteMerge>)
    ensures rows == DetailRows(results)
    ensures SheetScan(prevSuiteName, mergeStartRow, merges) == ScanSuites(SuiteNames(results))
  {
    ghost var names := SuiteNames(results);
    prevSuiteName := None;
    mergeStartRow := 1;
    rows := [];
    merges := [];
    var index := 0;
    while index < |results|
      invariant 0 <= index <= |results|
      invariant rows == DetailRows(results[..index])
      invariant SheetScan(prevSuiteName, mergeStartRow, merges) == ScanSuites(names[..index])
    {
      var currentSuiteName := results[index].suiteName;
      assert names[index] == currentSuiteName;
      ScanSuitesStep(names, index);
      if prevSuiteName != Some(currentSuiteName) {
        if mergeStartRow != index + 1 {
          merges := merges + [SuiteMerge(mergeStartRow + 1, index + 1)];
        }
        mergeStartRow := index + 1;
      }
      prevSuiteName := Some(currentSuiteName);
      DetailRowsSnoc(results, index);
      rows := rows + [DetailRow(index + 2, results[index], StatusFill(results[index].status))];
      index := index + 1;
    }
    assert results[..index] == results && names[..index] == names;
  }

  /**
   * createTestResultSheet's rows and merges: the row loop, then the trailing
   * test that merges the last run unless it is a single row at the last index.
   */
  method LayOutDetailSheet(results: seq<Row>) returns (sheet: DetailSheet)
    ensures sheet == DetailSheetOf(results)
  {
    var rows, prevSuiteName, mergeStartRow, merges := ScanRecords(results);
    ScanSuitesGivesMergeCalls(SuiteNames(results), prevSuiteName, mergeStartRow, merges);
    if mergeStartRow != |results| {
      merges := merges + [SuiteMerge(mergeStartRow + 1, |results| + 1)];
    }
    sheet := DetailSheet(rows, merges);
  }

  // ---------------------------------------------------------------------
  // The converter object
  // ---------------------------------------------------------------------

  /**
   * `JSONToExcelConverter`. The workbook is reduced to what the model can
   * state: the data part of the "Test Results" sheet, the rows of the
   * "Summary" sheet, and the paths the workbook was written to.
   */
  class JsonToExcelConverter {
    const outputFilePath: string
    /** The normalised records, in ingest order. */
    var testResults: seq<Row>
    /** The "Test Results" sheet, once built. */
    var worksheet: Option<DetailSheet>
    /** The "Summary" sheet, once built. */
    var summarySheet: Option<seq<Stat>>
    /** The paths the workbook has been written to, in order. */
    var excelWrites: seq<string>

    constructor(outputFilePath: string)
      ensures this.outputFilePath == outputFilePath
      ensures testResults == [] && worksheet.None? && summarySheet.None? && excelWrites == []
    {
      this.outputFilePath := outputFilePath;
      testResults := [];
      worksheet := None;
      summarySheet := None;
      excelWrites := [];
    }

    /** `addTestResult`: exactly one normalised record is appended. */
    method AddTestResult(test: TestEntry)
      modifies this
      ensures testResults == old(testResults) + [Normalize(test)]
      ensures worksheet == old(worksheet) && summarySheet == old(summarySheet) && excelWrites == old(excelWrites)
    {
      var suiteName := RemoveSuiteSuffix(OrDefault(test.suiteName, DEFAULT_SUITE));
      var error := OrDefault(test.error, "");
      var status := OrDefault(test.status, UNKNOWN);
      testResults := testResults + [Row(suiteName, test.testName, status, error)];
    }

    /**
     * `convertJSONFolderToExcel` over the folder listing, `None` when listing
     * the folder throws, which ends the conversion before anything is read,
     * built or written. Otherwise every element of every array read is
     * appended; when a read or parse throws, the conversion stops there
     * with the records so far kept and nothing built or written; otherwise both
     * sheets are built from the whole list and the workbook is written once.
     */
    method ConvertJsonFolderToExcel(listing: Option<seq<DirEntry>>)
      requires worksheet.None? && summarySheet.None?
      modifies this
      ensures listing.None? ==>
        testResults == old(testResults) && worksheet.None? && summarySheet.None? && excelWrites == old(excelWrites)
      ensures listing.Some? ==> testResults == old(testResults) + NormalizeAll(Ingest(listing.value).entries)
      ensures listing.Some? && Ingest(listing.value).aborted ==>
        worksheet.None? && summarySheet.None? && excelWrites == old(excelWrites)
      ensures listing.Some? && !Ingest(listing.value).aborted ==>
        && worksheet == Some(DetailSheetOf(testResults))
        && summarySheet == Some(SummaryStats(testResults))
        && excelWrites == old(excelWrites) + [outputFilePath]
    {
      if listing.None? {
        return;
      }
      var files := listing.value;
      var i := 0;
      while i < |files|
        invariant 0 <= i <= |files|
        invariant !Ingest(files[..i]).aborted
        invariant testResults == old(testResults) + NormalizeAll(Ingest(files[..i]).entries)
        invariant worksheet.None? && summarySheet.None? && excelWrites == old(excelWrites)
      {
        var file := files[i];
        if IsJsonName(file.name) {
          match file.content {
            case Unparsable =>
              IngestStepAbort(files, i);
              return;
            case NotArray =>
              IngestStepSkip(files, i);
            case JsonArray(items) =>
              IngestStepArray(files, i);
              ghost var before := Ingest(files[..i]).entries;
              AddTestResults(items);
              NormalizeAllAppend(before, items);
              AppendAssociative(old(testResults), NormalizeAll(before), NormalizeAll(items));
          }
        } else {
          IngestStepSkip(files, i);
        }
        i := i + 1;
      }
      assert files[..i] == files;
      CreateTestResultSheet();
      WriteSummary();
      GenerateExcelReport();
    }

    /** The inner loop of the folder conversion: `addTestResult` for each element of one array, in order. */
    method AddTestResults(items: seq<TestEntry>)
      modifies this
      ensures testResults == old(testResults) + NormalizeAll(items)
      ensures worksheet == old(worksheet) && summarySheet == old(summarySheet) && excelWrites == old(excelWrites)
    {
      var j := 0;
      while j < |items|
        invariant 0 <= j <= |items|
        invariant testResults == old(testResults) + NormalizeAll(items[..j])
        invariant worksheet == old(worksheet) && summarySheet == old(summarySheet) && excelWrites == old(excelWrites)
      {
        AddTestResult(items[j]);
        assert items[..j + 1] == items[..j] + [items[j]];
        NormalizeAllSnoc(items[..j], items[j]);
        j := j + 1;
      }
      assert items[..j] == items;
    }

    /**
     * `createTestResultSheet`: one row per record with its status fill, and
     * the suite-name merges the run loop and its trailing test issue.
     */
    method CreateTestResultSheet()
      modifies this
      ensures worksheet == Some(DetailSheetOf(testResults))
      ensures testResults == old(testResults) && summarySheet == old(summarySheet) && excelWrites == old(excelWrites)
    {
      var sheet := LayOutDetailSheet(testResults);
      worksheet := Some(sheet);
    }

    /** `writeSummary`: the "Summary" sheet holds the three stats, in order. */
    method WriteSummary()
      modifies this
      ensures summarySheet == Some(SummaryStats(testResults))
      ensures testResults == old(testResults) && worksheet == old(worksheet) && excelWrites == old(excelWrites)
    {
      summarySheet := Some(SummaryStats(testResults));
    }

    /** `generateExcelReport`: the workbook is written to the output path. */
    method GenerateExcelReport()
      modifies this
      ensures excelWrites == old(excelWrites) + [outputFilePath]
      ensures testResults == old(testResults) && worksheet == old(worksheet) && summarySheet == old(summarySheet)
    {
      excelWrites := excelWrites + [outputFilePath];
    }

    /**
     * `writeSummaryInTextFile`: the path of the summary file in `directory`
     * and the one line written to it.
     */
    method WriteSummaryInTextFile(directory: string) returns (path: string, text: string)
      ensures path == directory + "/test-summary.txt"
      ensures text ==
        "Total Tests: " + NatToString(|testResults|)
        + ", Passed Tests: " + NatToString(CountStatus(testResults, PASSED))
        + ", Failed Tests: " + NatToString(CountStatus(testResults, FAILED))
    {
      text := SummaryLine(SummaryStats(testResults));
      SummaryTextFormat(testResults);
      path := directory + "/test-summary.txt";
    }
  }
}
