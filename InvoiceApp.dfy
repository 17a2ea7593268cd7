/**
 * `InvoiceApp.process_files`: the batch over the selected PDFs. An empty key or an empty
 * selection returns at once; otherwise the files are processed in order, their rows
 * accumulated, and the first file that raises ends the batch without saving; a batch without
 * errors is normalised and saved when it produced rows.
 */
module InvoiceApp {
  import opened Wrappers
  import opened Errors
  import opened RowFlattener
  import opened Extractor
  import opened Export

  /** How the batch ended, as the status line reports it. */
  datatype BatchStatus =
    | ApiKeyRequired
    | NoFilesSelected
    | StoppedOnError(file: nat, error: Failure)
    | Saved(table: Table)
    | NoDataExtracted

  /** The files handed to `process_invoice_file`, the rows accumulated, and the outcome. */
  datatype BatchReport = BatchReport(attempted: nat, rows: seq<Row>, status: BatchStatus)

  /** What `process_invoice_file` gives for one file: its rows, or the exception it raised. */
  type FileOutcome = Result<seq<Row>, Failure>

  /** The outcome each file of a selection would have, in file order. */
  function Outcomes(files: seq<PdfFile>, apiKey: string): (outs: seq<FileOutcome>)
    ensures |outs| == |files|
  {
    seq(|files|, k requires 0 <= k < |files| => InvoiceRows(files[k], apiKey))
  }

  /** The rows of one outcome, none when it is an exception. */
  function OutcomeRows(out: FileOutcome): seq<Row> {
    match out
    case Success(rows) => rows
    case Failure(_) => []
  }

  /** The rows of the given outcomes, concatenated in file order. */
  function Accumulated(outs: seq<FileOutcome>): seq<Row> {
    if outs == [] then []
    else Accumulated(outs[..|outs| - 1]) + OutcomeRows(outs[|outs| - 1])
  }

  /** The position of the first outcome that is an exception, if any. */
  function FirstFailure(outs: seq<FileOutcome>): (r: Option<nat>)
    ensures r.Some? ==> r.value < |outs| && outs[r.value].Failure?
    ensures r.Some? ==> forall k :: 0 <= k < r.value ==> outs[k].Success?
    ensures r.None? ==> forall k :: 0 <= k < |outs| ==> outs[k].Success?
  {
    if outs == [] then None
    else if outs[0].Failure? then Some(0)
    else
      match FirstFailure(outs[1..])
      case Some(k) => Some(k + 1)
      case None => None
  }

  /** The course of the batch for a key and the outcomes of the selected files, in order. */
  function BatchFrom(apiKey: string, outs: seq<FileOutcome>): BatchReport {
    if apiKey == "" then BatchReport(0, [], ApiKeyRequired)
    else if outs == [] then BatchReport(0, [], NoFilesSelected)
    else
      match FirstFailure(outs)
      case Some(k) => BatchReport(k + 1, Accumulated(outs[..k]), StoppedOnError(k, outs[k].error))
      case None =>
        var rows := Accumulated(outs);
        BatchReport(|outs|, rows, if rows != [] then Saved(ExportTable(rows)) else NoDataExtracted)
  }

  /** The course of `process_files` for a key and a selection of files. */
  function BatchOf(apiKey: string, files: seq<PdfFile>): BatchReport {
    BatchFrom(apiKey, Outcomes(files, apiKey))
  }

  /** Outcomes that all succeed have no first failure. */
  lemma NoFailure(outs: seq<FileOutcome>)
    requires forall k :: 0 <= k < |outs| ==> outs[k].Success?
    ensures FirstFailure(outs) == None
  {
  }

  /** The first failing outcome is the one before which every outcome succeeded. */
  lemma FirstFailureAt(outs: seq<FileOutcome>, i: nat)
    requires i < |outs| && outs[i].Failure?
    requires forall k :: 0 <= k < i ==> outs[k].Success?
    ensures FirstFailure(outs) == Some(i)
  {
  }

  /**
   * `process_files`: an empty key or an empty selection returns at once; otherwise the rows of
   * the files are collected, and saved when there was no error and there are rows.
   */
  method ProcessFiles(apiKey: string, files: seq<PdfFile>) returns (report: BatchReport)
    ensures report == BatchOf(apiKey, files)
  {
    if apiKey == "" {
      return BatchReport(0, [], ApiKeyRequired);
    }
    if files == [] {
      return BatchReport(0, [], NoFilesSelected);
    }
    var allRows, failedAt, error := CollectRows(apiKey, files);
    if failedAt.Some? {
      report := BatchReport(failedAt.value + 1, allRows, StoppedOnError(failedAt.value, error));
    } else if allRows != [] {
      var table := NormaliseForExport(allRows);
      report := BatchReport(|files|, allRows, Saved(table));
    } else {
      report := BatchReport(|files|, allRows, NoDataExtracted);
    }
  }

  /**
   * The loop of `process_files`: each file in turn, its rows appended, stopping at the first
   * file that raises.
   */
  method CollectRows(apiKey: string, files: seq<PdfFile>) returns (allRows: seq<Row>, failedAt: Option<nat>, error: Failure)
    ensures failedAt == FirstFailure(Outcomes(files, apiKey))
    ensures failedAt.Some? ==>
      allRows == Accumulated(Outcomes(files, apiKey)[..failedAt.value])
      && error == Outcomes(files, apiKey)[failedAt.value].error
    ensures failedAt.None? ==> allRows == Accumulated(Outcomes(files, apiKey))
  {
    allRows := [];
    failedAt := None;
    error := NoText;
    ghost var outs: seq<FileOutcome> := [];
    var i: nat := 0;
    while i < |files|
      invariant i <= |files|
      invariant outs == Outcomes(files[..i], apiKey)
      invariant forall k :: 0 <= k < i ==> outs[k].Success?
      invariant allRows == Accumulated(outs)
    {
      var run := ProcessInvoiceFile(files[i], apiKey);
      if run.result.Failure? {
        FailsAtFile(files, apiKey, i);
        failedAt := Some(i);
        error := run.result.error;
        return;
      }
      OutcomesSnoc(files, apiKey, i);
      AccumulatedSnoc(outs, run.result);
      outs := outs + [run.result];
      allRows := allRows + run.result.value;
      i := i + 1;
    }
    assert files[..i] == files;
    NoFailure(outs);
  }

  // ---------------------------------------------------------------------------
  // Properties of a batch

  /** The rows of a selection are those of its parts, in order. */
  lemma {:induction false} AccumulatedAppend(outs1: seq<FileOutcome>, outs2: seq<FileOutcome>)
    ensures Accumulated(outs1 + outs2) == Accumulated(outs1) + Accumulated(outs2)
    decreases |outs2|
  {
    if outs2 == [] {
      assert outs1 + outs2 == outs1;
    } else {
      var n := |outs2| - 1;
      assert (outs1 + outs2)[..|outs1 + outs2| - 1] == outs1 + outs2[..n];
      AccumulatedAppend(outs1, outs2[..n]);
    }
  }

  /** One more outcome appends its rows. */
  lemma AccumulatedSnoc(outs: seq<FileOutcome>, out: FileOutcome)
    ensures Accumulated(outs + [out]) == Accumulated(outs) + OutcomeRows(out)
  {
    assert (outs + [out])[..|outs|] == outs;
  }

  /** Outcomes that all succeed with at least one row each give at least one row per file. */
  lemma {:induction false} AccumulatedLength(outs: seq<FileOutcome>)
    requires forall k :: 0 <= k < |outs| ==> outs[k].Success? && |outs[k].value| >= 1
    ensures |Accumulated(outs)| >= |outs|
  {
    if outs != [] {
      var n := |outs| - 1;
      assert forall k :: 0 <= k < n ==> outs[..n][k] == outs[k];
      AccumulatedLength(outs[..n]);
    }
  }

  /** An empty key or an empty selection returns before any file is processed, and only then. */
  lemma EarlyExits(apiKey: string, outs: seq<FileOutcome>)
    ensures BatchFrom(apiKey, outs).attempted == 0 <==> apiKey == "" || outs == []
    ensures apiKey == "" ==> BatchFrom(apiKey, outs) == BatchReport(0, [], ApiKeyRequired)
    ensures apiKey != "" && outs == [] ==> BatchFrom(apiKey, outs) == BatchReport(0, [], NoFilesSelected)
  {
  }

  /**
   * A batch that stops on an error stops at the first failing file: every earlier file
   * succeeded, the rows are theirs in order, and nothing is saved.
   */
  lemma StopsAtFirstFailure(apiKey: string, outs: seq<FileOutcome>)
    requires BatchFrom(apiKey, outs).status.StoppedOnError?
    ensures BatchFrom(apiKey, outs).status.file < |outs|
    ensures BatchFrom(apiKey, outs).attempted == BatchFrom(apiKey, outs).status.file + 1
    ensures outs[BatchFrom(apiKey, outs).status.file] == Failure(BatchFrom(apiKey, outs).status.error)
    ensures forall j :: 0 <= j < BatchFrom(apiKey, outs).status.file ==> outs[j].Success?
    ensures BatchFrom(apiKey, outs).rows == Accumulated(outs[..BatchFrom(apiKey, outs).status.file])
  {
  }

  /** The outcomes after the first failing one are never looked at. */
  lemma LaterOutcomesIgnored(apiKey: string, outs: seq<FileOutcome>, later: seq<FileOutcome>)
    requires BatchFrom(apiKey, outs).status.StoppedOnError?
    ensures BatchFrom(apiKey, outs[..BatchFrom(apiKey, outs).status.file + 1] + later) == BatchFrom(apiKey, outs)
  {
    var k := BatchFrom(apiKey, outs).status.file;
    var outs2 := outs[..k + 1] + later;
    assert forall j :: 0 <= j <= k ==> outs2[j] == outs[j];
    FirstFailureAt(outs2, k);
    assert outs2[..k] == outs[..k];
  }

  /**
   * The batch is saved exactly when there is a key, a selection, and every file succeeds
   * with rows; the table saved is the export of all rows, file after file.
   */
  lemma SavedIff(apiKey: string, outs: seq<FileOutcome>)
    ensures BatchFrom(apiKey, outs).status.Saved? <==>
      apiKey != "" && outs != [] && (forall k :: 0 <= k < |outs| ==> outs[k].Success?) && Accumulated(outs) != []
    ensures BatchFrom(apiKey, outs).status.Saved? ==>
      BatchFrom(apiKey, outs).attempted == |outs|
      && BatchFrom(apiKey, outs).rows == Accumulated(outs)
      && BatchFrom(apiKey, outs).status.table == ExportTable(Accumulated(outs))
  {
    if apiKey != "" && outs != [] && (forall k :: 0 <= k < |outs| ==> outs[k].Success?) {
      assert FirstFailure(outs).None?;
    }
  }

  /** Adding a file that succeeds to a batch that is saved appends that file's rows and lines. */
  lemma SavedGrowsByFile(apiKey: string, outs: seq<FileOutcome>, out: FileOutcome)
    requires BatchFrom(apiKey, outs).status.Saved? && out.Success?
    ensures BatchFrom(apiKey, outs + [out]).status.Saved?
    ensures BatchFrom(apiKey, outs + [out]).rows == BatchFrom(apiKey, outs).rows + out.value
    ensures BatchFrom(apiKey, outs + [out]).status.table.rows ==
      BatchFrom(apiKey, outs).status.table.rows + ExportTable(out.value).rows
  {
    var outs2 := outs + [out];
    SavedIff(apiKey, outs);
    assert forall k :: 0 <= k < |outs| ==> outs2[k] == outs[k];
    assert outs2[..|outs2| - 1] == outs;
    SavedIff(apiKey, outs2);
    ExportConcat(Accumulated(outs), out.value);
  }

  // ---------------------------------------------------------------------------
  // The batch over files

  /** The outcomes of a selection are those of its parts, in order. */
  lemma OutcomesAppend(files1: seq<PdfFile>, files2: seq<PdfFile>, apiKey: string)
    ensures Outcomes(files1 + files2, apiKey) == Outcomes(files1, apiKey) + Outcomes(files2, apiKey)
  {
    var files := files1 + files2;
    forall k | 0 <= k < |files|
      ensures Outcomes(files, apiKey)[k] == (Outcomes(files1, apiKey) + Outcomes(files2, apiKey))[k]
    {
      if k < |files1| {
        assert files[k] == files1[k];
      } else {
        assert files[k] == files2[k - |files1|];
      }
    }
  }

  /** One more file adds its own outcome at the end. */
  lemma OutcomesSnoc(files: seq<PdfFile>, apiKey: string, i: nat)
    requires i < |files|
    ensures Outcomes(files[..i + 1], apiKey) == Outcomes(files[..i], apiKey) + [InvoiceRows(files[i], apiKey)]
  {
    assert files[..i + 1] == files[..i] + [files[i]];
    OutcomesAppend(files[..i], [files[i]], apiKey);
  }

  /** The outcomes of the first n files are the first n outcomes. */
  lemma OutcomesPrefix(files: seq<PdfFile>, apiKey: string, n: nat)
    requires n <= |files|
    ensures Outcomes(files[..n], apiKey) == Outcomes(files, apiKey)[..n]
  {
    assert files == files[..n] + files[n..];
    OutcomesAppend(files[..n], files[n..], apiKey);
  }

  /** When every file before the i-th succeeds and the i-th raises, the i-th is the first to fail. */
  lemma FailsAtFile(files: seq<PdfFile>, apiKey: string, i: nat)
    requires i < |files|
    requires forall k :: 0 <= k < i ==> Outcomes(files[..i], apiKey)[k].Success?
    requires InvoiceRows(files[i], apiKey).Failure?
    ensures FirstFailure(Outcomes(files, apiKey)) == Some(i)
    ensures Outcomes(files, apiKey)[..i] == Outcomes(files[..i], apiKey)
    ensures Outcomes(files, apiKey)[i] == InvoiceRows(files[i], apiKey)
  {
    OutcomesPrefix(files, apiKey, i);
    var outs := Outcomes(files, apiKey);
    assert forall k :: 0 <= k < i ==> outs[k] == outs[..i][k];
    FirstFailureAt(outs, i);
  }

  /** Every file that succeeds gives at least one row. */
  lemma OutcomesHaveRows(files: seq<PdfFile>, apiKey: string)
    ensures forall k :: 0 <= k < |files| && Outcomes(files, apiKey)[k].Success? ==> |Outcomes(files, apiKey)[k].value| >= 1
  {
    forall k | 0 <= k < |files| && Outcomes(files, apiKey)[k].Success?
      ensures |Outcomes(files, apiKey)[k].value| >= 1
    {
      InvoiceRowsSpec(files[k], apiKey);
    }
  }

  /**
   * "No data extracted" cannot happen: a batch without errors processed at least one file,
   * and every file that succeeds gives at least one row.
   */
  lemma NoDataExtractedUnreachable(apiKey: string, files: seq<PdfFile>)
    ensures BatchOf(apiKey, files).status != NoDataExtracted
  {
    var outs := Outcomes(files, apiKey);
    OutcomesHaveRows(files, apiKey);
    if apiKey != "" && outs != [] && FirstFailure(outs).None? {
      AccumulatedLength(outs);
    }
  }

  /** The files after the first failing one are never looked at. */
  lemma LaterFilesIgnored(apiKey: string, files: seq<PdfFile>, later: seq<PdfFile>)
    requires BatchOf(apiKey, files).status.StoppedOnError?
    ensures BatchOf(apiKey, files[..BatchOf(apiKey, files).status.file + 1] + later) == BatchOf(apiKey, files)
  {
    var outs := Outcomes(files, apiKey);
    var k := BatchFrom(apiKey, outs).status.file;
    StopsAtFirstFailure(apiKey, outs);
    var pre := files[..k + 1];
    OutcomesPrefix(files, apiKey, k + 1);
    OutcomesAppend(pre, later, apiKey);
    LaterOutcomesIgnored(apiKey, outs, Outcomes(later, apiKey));
  }
}
