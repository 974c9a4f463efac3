/**
  `compare_batched_outputs`: compares the two `batched_output.csv` files and
  derives the mismatch-only rows, the top mismatch reasons and the closing
  line from the batch table.
 */
module BatchedReport {
  import opened Wrappers
  import opened JsonValue
  import opened Alignment
  import opened Rows
  import opened Reports
  import opened Batched

  datatype Summary = Summary(
    table: seq<BatchComparison>,
    totals: Stats,
    mismatchOnly: Option<seq<BatchComparison>>,
    topReasons: seq<(string, nat)>,
    verification: string,
    closing: ClosingLine)

  datatype SummaryFailure =
    | MissingFile(side: nat)            // "File not found": the comparison is skipped
    | Failed(failure: BatchedFailure)   // `compare_batched_csv` raised

  function BatchComments(table: seq<BatchComparison>): (cs: seq<string>)
    ensures |cs| == |table|
    ensures forall i :: 0 <= i < |table| ==> cs[i] == table[i].comment
  {
    seq(|table|, i requires 0 <= i < |table| => table[i].comment)
  }

  /**
    `compare_batched_outputs`; `file1`/`file2` are the rows of the two files,
    `None` for a file that does not exist.
   */
  function SummarySpec(codec: Codec, file1: Option<seq<BatchRow>>, file2: Option<seq<BatchRow>>)
    : (r: Result<Summary, SummaryFailure>)
    ensures r == Err(MissingFile(1)) <==> file1.None?
    ensures r == Err(MissingFile(2)) <==> file1.Some? && file2.None?
  {
    if file1.None? then Err(MissingFile(1))
    else if file2.None? then Err(MissingFile(2))
    else match BatchedSpec(codec, file1.value, file2.value)
      case Err(e) => Err(Failed(e))
      case Ok(res) =>
        Ok(Summary(res.table, res.stats, MismatchOnly(res.table, res.statuses),
                   ReasonList(BatchComments(res.table), res.statuses), res.verification, Closing(res.stats)))
  }

  method CompareBatchedOutputs(codec: Codec, file1: Option<seq<BatchRow>>, file2: Option<seq<BatchRow>>)
    returns (r: Result<Summary, SummaryFailure>)
    ensures r == SummarySpec(codec, file1, file2)
  {
    if file1.None? {
      return Err(MissingFile(1));
    }
    if file2.None? {
      return Err(MissingFile(2));
    }
    var res := CompareBatchedCsv(codec, file1.value, file2.value);
    if res.Err? {
      return Err(Failed(res.error));
    }
    var v := res.value;
    r := Ok(Summary(v.table, v.stats, MismatchOnly(v.table, v.statuses),
                    ReasonList(BatchComments(v.table), v.statuses), v.verification, Closing(v.stats)));
  }

  /**
    The totals count every batch of the table exactly once, and the table is
    never empty, so the percentages never divide by zero.
   */
  lemma SummaryTotalsCountTable(codec: Codec, file1: Option<seq<BatchRow>>, file2: Option<seq<BatchRow>>)
    requires SummarySpec(codec, file1, file2).Ok?
    ensures var s := SummarySpec(codec, file1, file2).value;
            |s.table| > 0 && s.totals.matches + s.totals.mismatches + s.totals.dataMismatches == |s.table|
  {
    var res := BatchedSpec(codec, file1.value, file2.value).value;
    assert |res.statuses| == |res.table|;
  }

  /**
    The batched closing line counts input alignment issues as issues: it
    reads PERFECT MATCH exactly when every batch of the table matched on
    all three fields.
   */
  lemma PerfectMatchIff(codec: Codec, file1: Option<seq<BatchRow>>, file2: Option<seq<BatchRow>>)
    requires SummarySpec(codec, file1, file2).Ok?
    ensures var s := SummarySpec(codec, file1, file2).value;
            s.closing == PerfectMatch <==>
              forall i :: 0 <= i < |s.table| ==>
                s.table[i].descriptionsMatch == SubMatch && s.table[i].memosMatch == SubMatch
                && s.table[i].responseMatch == SubMatch
  {
    var res := BatchedSpec(codec, file1.value, file2.value).value;
    var s := SummarySpec(codec, file1, file2).value;
    assert s.table == res.table && s.closing == Closing(StatsOf(res.statuses));
    ClosingAllClearIff(res.statuses);
  }

  /** The mismatch-only file is written exactly when the closing line asks for a review. */
  lemma MismatchFileIffReview(codec: Codec, file1: Option<seq<BatchRow>>, file2: Option<seq<BatchRow>>)
    requires SummarySpec(codec, file1, file2).Ok?
    ensures var s := SummarySpec(codec, file1, file2).value;
            s.mismatchOnly.Some? <==> s.closing.ReviewIssues?
    ensures var s := SummarySpec(codec, file1, file2).value;
            s.mismatchOnly.Some? ==> |s.mismatchOnly.value| == s.closing.issues
  {
  }
}
