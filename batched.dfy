/**
  The row loop of `compare_batched_csv`: per batch, the descriptions, memos
  and response sub-statuses and a comment, then the final `match_status`
  derived from the three sub-statuses.
 */
module Batched {
  import opened Wrappers
  import opened JsonValue
  import opened Normalization
  import opened Differ
  import opened Parsing
  import opened Alignment
  import opened Rows

  /** The values of the `descriptions_match`, `memos_match` and `api_response_match` columns. */
  datatype SubStatus = SubMatch | SubMismatch | MissingBatch | SubDataMismatch

  function SubOf(matched: bool): (s: SubStatus)
    ensures s == SubMatch <==> matched
    ensures s == SubMatch || s == SubMismatch
  {
    if matched then SubMatch else SubMismatch
  }

  /** One row of the batched comparison table before `match_status` is added. */
  datatype BatchComparison = BatchComparison(
    batchId: string,
    descriptionsMatch: SubStatus,
    memosMatch: SubStatus,
    responseMatch: SubStatus,
    comment: string)

  /**
    `match_status`: MATCH when all three sub-statuses are MATCH, otherwise
    MISMATCH, then overwritten with DATA_MISMATCH where the descriptions or
    the memos column holds MISMATCH, MISSING_BATCH or DATA_MISMATCH.
   */
  function MatchStatus(c: BatchComparison): (s: Status)
    ensures s == Match <==> c.descriptionsMatch == SubMatch && c.memosMatch == SubMatch && c.responseMatch == SubMatch
    ensures s == DataMismatch <==> c.descriptionsMatch != SubMatch || c.memosMatch != SubMatch
  {
    var bad := {SubMismatch, MissingBatch, SubDataMismatch};
    var allMatch := c.responseMatch == SubMatch && c.descriptionsMatch == SubMatch && c.memosMatch == SubMatch;
    assert c.descriptionsMatch in bad <==> c.descriptionsMatch != SubMatch;
    assert c.memosMatch in bad <==> c.memosMatch != SubMatch;
    if c.descriptionsMatch in bad || c.memosMatch in bad then DataMismatch
    else if allMatch then Match
    else Mismatch
  }

  /** The parsed fields of an aligned pair of batches and the three comparisons on them. */
  function DescriptionsCompared(codec: Codec, r1: BatchRow, r2: BatchRow): Result<(bool, string), TypeError> {
    CompareJsonArrays(codec.floatRepr, ParseJsonField(codec.loads, r1.descriptionsJson),
                      ParseJsonField(codec.loads, r2.descriptionsJson), "descriptions_json")
  }

  function MemosCompared(codec: Codec, r1: BatchRow, r2: BatchRow): Result<(bool, string), TypeError> {
    CompareJsonArrays(codec.floatRepr, ParseJsonField(codec.loads, r1.memosJson),
                      ParseJsonField(codec.loads, r2.memosJson), "memos_json")
  }

  function ResponsesCompared(codec: Codec, r1: BatchRow, r2: BatchRow): (bool, string) {
    ResponseVerdict(codec, ParseJsonField(codec.loads, r1.apiResponseJson),
                    ParseJsonField(codec.loads, r2.apiResponseJson))
  }

  /** The overall comment: an input mismatch names both input comparisons and outranks the response. */
  function OverallComment(desc: (bool, string), memo: (bool, string), resp: (bool, string)): (r: string)
    ensures !desc.0 || !memo.0 ==> "Input mismatch: " <= r
    ensures desc.0 && memo.0 && !resp.0 ==> r == resp.1
    ensures desc.0 && memo.0 && resp.0 ==> r == "All fields match"
  {
    if !desc.0 || !memo.0 then "Input mismatch: " + desc.1 + "; " + memo.1
    else if !resp.0 then resp.1
    else "All fields match"
  }

  /** The row the loop appends for index `idx`, or the `TypeError` a field comparison raises. */
  function BatchRowSpec(codec: Codec, rows1: seq<BatchRow>, rows2: seq<BatchRow>, idx: nat)
    : Result<BatchComparison, TypeError>
    requires idx < MaxLen(|rows1|, |rows2|)
  {
    if idx >= |rows1| then
      Ok(BatchComparison(rows2[idx].batchId, MissingBatch, MissingBatch, SubDataMismatch, "Batch exists only in api_2"))
    else if idx >= |rows2| then
      Ok(BatchComparison(rows1[idx].batchId, MissingBatch, MissingBatch, SubDataMismatch, "Batch exists only in api_1"))
    else
      var r1 := rows1[idx];
      var r2 := rows2[idx];
      if r1.batchId != r2.batchId then
        Ok(BatchComparison("api_1=" + r1.batchId + ", api_2=" + r2.batchId,
                           SubDataMismatch, SubDataMismatch, SubDataMismatch,
                           "Batch IDs don't match - batches are not aligned!"))
      else
        var d := DescriptionsCompared(codec, r1, r2);
        var m := MemosCompared(codec, r1, r2);
        if d.Err? || m.Err? then Err(TypeError)
        else
          var resp := ResponsesCompared(codec, r1, r2);
          Ok(BatchComparison(r1.batchId, SubOf(d.value.0), SubOf(m.value.0), SubOf(resp.0),
                             OverallComment(d.value, m.value, resp)))
  }

  /** One iteration of the row loop of `compare_batched_csv`. */
  method CompareBatchRow(codec: Codec, rows1: seq<BatchRow>, rows2: seq<BatchRow>, idx: nat)
    returns (r: Result<BatchComparison, TypeError>)
    requires idx < MaxLen(|rows1|, |rows2|)
    ensures r == BatchRowSpec(codec, rows1, rows2, idx)
  {
    if idx >= |rows1| {
      return Ok(BatchComparison(rows2[idx].batchId, MissingBatch, MissingBatch, SubDataMismatch,
                                "Batch exists only in api_2"));
    } else if idx >= |rows2| {
      return Ok(BatchComparison(rows1[idx].batchId, MissingBatch, MissingBatch, SubDataMismatch,
                                "Batch exists only in api_1"));
    }
    var r1 := rows1[idx];
    var r2 := rows2[idx];
    if r1.batchId != r2.batchId {
      return Ok(BatchComparison("api_1=" + r1.batchId + ", api_2=" + r2.batchId,
                                SubDataMismatch, SubDataMismatch, SubDataMismatch,
                                "Batch IDs don't match - batches are not aligned!"));
    }
    var d := DescriptionsCompared(codec, r1, r2);
    var m := MemosCompared(codec, r1, r2);
    if d.Err? || m.Err? {
      return Err(TypeError);
    }
    var respMatch, respComment := CompareApiResponses(codec, ParseJsonField(codec.loads, r1.apiResponseJson),
                                                      ParseJsonField(codec.loads, r2.apiResponseJson));
    r := Ok(BatchComparison(r1.batchId, SubOf(d.value.0), SubOf(m.value.0), SubOf(respMatch),
                            OverallComment(d.value, m.value, (respMatch, respComment))));
  }

  /** The row loop of `compare_batched_csv`; the first `TypeError` aborts it. */
  method CompareBatchedRows(codec: Codec, rows1: seq<BatchRow>, rows2: seq<BatchRow>)
    returns (r: Result<seq<BatchComparison>, TypeError>)
    ensures r.Ok? <==> forall i :: 0 <= i < MaxLen(|rows1|, |rows2|) ==> BatchRowSpec(codec, rows1, rows2, i).Ok?
    ensures r.Ok? ==> |r.value| == MaxLen(|rows1|, |rows2|)
    ensures r.Ok? ==> forall i :: 0 <= i < |r.value| ==> r.value[i] == BatchRowSpec(codec, rows1, rows2, i).value
  {
    var n := MaxLen(|rows1|, |rows2|);
    var table: seq<BatchComparison> := [];
    var idx := 0;
    while idx < n
      invariant 0 <= idx <= n
      invariant |table| == idx
      invariant forall i :: 0 <= i < idx ==> BatchRowSpec(codec, rows1, rows2, i) == Ok(table[i])
    {
      var row := CompareBatchRow(codec, rows1, rows2, idx);
      if row.Err? {
        return Err(TypeError);
      }
      table := table + [row.value];
      idx := idx + 1;
    }
    return Ok(table);
  }

  /** What `compare_batched_csv` returns: the table, its status column, the counts and the input check's message. */
  datatype BatchedResult = BatchedResult(table: seq<BatchComparison>, statuses: seq<Status>, stats: Stats, verification: string)

  datatype BatchedFailure =
    | RaisedTypeError  // `len()` of a number or a bool in a descriptions or memos field
    | NoBatchColumns   // no batch on either side: the empty table has no sub-status columns

  function StatusColumn(table: seq<BatchComparison>): (ss: seq<Status>)
    ensures |ss| == |table|
    ensures forall i :: 0 <= i < |table| ==> ss[i] == MatchStatus(table[i])
  {
    seq(|table|, i requires 0 <= i < |table| => MatchStatus(table[i]))
  }

  /** The result of `compare_batched_csv` on two readable files. */
  function BatchedSpec(codec: Codec, rows1: seq<BatchRow>, rows2: seq<BatchRow>): (r: Result<BatchedResult, BatchedFailure>)
    ensures r.Ok? ==> |r.value.table| == |r.value.statuses| == MaxLen(|rows1|, |rows2|) > 0
    ensures r.Ok? ==> r.value.stats == StatsOf(r.value.statuses)
    ensures r.Ok? ==> forall i :: 0 <= i < |r.value.table| ==> r.value.statuses[i] == MatchStatus(r.value.table[i])
  {
    var n := MaxLen(|rows1|, |rows2|);
    if exists i | 0 <= i < n :: BatchRowSpec(codec, rows1, rows2, i).Err? then Err(RaisedTypeError)
    else if n == 0 then Err(NoBatchColumns)
    else
      var table := seq(n, i requires 0 <= i < n => BatchRowSpec(codec, rows1, rows2, i).value);
      var ss := StatusColumn(table);
      Ok(BatchedResult(table, ss, StatsOf(ss), VerifyBatchSpec(codec.loads, rows1, rows2).1))
  }

  /** `compare_batched_csv` after reading the two files. */
  method CompareBatchedCsv(codec: Codec, rows1: seq<BatchRow>, rows2: seq<BatchRow>)
    returns (r: Result<BatchedResult, BatchedFailure>)
    ensures r == BatchedSpec(codec, rows1, rows2)
  {
    var _, verification := VerifySameInputBatch(codec.loads, rows1, rows2);
    var rows := CompareBatchedRows(codec, rows1, rows2);
    if rows.Err? {
      return Err(RaisedTypeError);
    }
    var table := rows.value;
    if table == [] {
      return Err(NoBatchColumns);
    }
    var ss := StatusColumn(table);
    r := Ok(BatchedResult(table, ss, StatsOf(ss), verification));
    assert table == BatchedSpec(codec, rows1, rows2).value.table;
  }

  // ---------------------------------------------------------------------
  // Properties of the status rules
  // ---------------------------------------------------------------------

  /** A batch present on one side only, or whose ids differ, always ends as DATA_MISMATCH. */
  lemma UnalignedBatchIsDataMismatch(codec: Codec, rows1: seq<BatchRow>, rows2: seq<BatchRow>, idx: nat)
    requires idx < MaxLen(|rows1|, |rows2|)
    requires idx >= |rows1| || idx >= |rows2| || rows1[idx].batchId != rows2[idx].batchId
    ensures BatchRowSpec(codec, rows1, rows2, idx).Ok?
    ensures MatchStatus(BatchRowSpec(codec, rows1, rows2, idx).value) == DataMismatch
  {
  }

  /**
    On an aligned batch, a descriptions or memos mismatch makes the batch
    DATA_MISMATCH whatever the responses are, and the comment says so.
   */
  lemma InputMismatchOutranksResponse(codec: Codec, rows1: seq<BatchRow>, rows2: seq<BatchRow>, idx: nat)
    requires idx < |rows1| && idx < |rows2| && rows1[idx].batchId == rows2[idx].batchId
    requires BatchRowSpec(codec, rows1, rows2, idx).Ok?
    requires !DescriptionsCompared(codec, rows1[idx], rows2[idx]).value.0
          || !MemosCompared(codec, rows1[idx], rows2[idx]).value.0
    ensures MatchStatus(BatchRowSpec(codec, rows1, rows2, idx).value) == DataMismatch
    ensures var c := BatchRowSpec(codec, rows1, rows2, idx).value.comment;
            |c| >= 16 && c[..16] == "Input mismatch: "
  {
  }

  /**
    An aligned batch is MATCH exactly when both input lists match and the
    responses match, and MISMATCH exactly when only the responses differ.
   */
  lemma AlignedBatchStatusIff(codec: Codec, rows1: seq<BatchRow>, rows2: seq<BatchRow>, idx: nat)
    requires idx < |rows1| && idx < |rows2| && rows1[idx].batchId == rows2[idx].batchId
    requires BatchRowSpec(codec, rows1, rows2, idx).Ok?
    ensures var s := MatchStatus(BatchRowSpec(codec, rows1, rows2, idx).value);
            var d := DescriptionsCompared(codec, rows1[idx], rows2[idx]).value.0;
            var m := MemosCompared(codec, rows1[idx], rows2[idx]).value.0;
            var resp := ResponsesCompared(codec, rows1[idx], rows2[idx]).0;
            (s == Match <==> d && m && resp) && (s == Mismatch <==> d && m && !resp)
  {
  }

  /**
    A batch file compared with itself is all MATCH, as long as no descriptions
    or memos field is a bare number or bool.
   */
  lemma SelfComparisonAllMatch(codec: Codec, rows: seq<BatchRow>, idx: nat)
    requires idx < |rows|
    requires var d := ParseJsonField(codec.loads, rows[idx].descriptionsJson); d.Some? ==> Items(d.value).Some?
    requires var m := ParseJsonField(codec.loads, rows[idx].memosJson); m.Some? ==> Items(m.value).Some?
    ensures BatchRowSpec(codec, rows, rows, idx).Ok?
    ensures MatchStatus(BatchRowSpec(codec, rows, rows, idx).value) == Match
    ensures BatchRowSpec(codec, rows, rows, idx).value.comment == "All fields match"
  {
    var r := rows[idx];
    CompareJsonArraysSelf(codec.floatRepr, ParseJsonField(codec.loads, r.descriptionsJson), "descriptions_json");
    CompareJsonArraysSelf(codec.floatRepr, ParseJsonField(codec.loads, r.memosJson), "memos_json");
    ResponseVerdictSelf(codec, ParseJsonField(codec.loads, r.apiResponseJson));
  }

  /**
    The input check and the row rules can disagree: descriptions `[1]` and
    `["1"]` fail the input check (`==`) while the batch itself is MATCH
    (the lists are compared by `str()`).
   */
  lemma InputCheckAndRowsDisagree(codec: Codec, c1: string, c2: string)
    requires codec.loads(c1) == Some(Arr([Int(1)])) && codec.loads(c2) == Some(Arr([Str("1")]))
    requires c1 != "" && c1 != "{}" && c1 != "[]" && c2 != "" && c2 != "{}" && c2 != "[]"
    ensures var rows1 := [BatchRow("7", c1, "", "")];
            var rows2 := [BatchRow("7", c2, "", "")];
            !VerifyBatchSpec(codec.loads, rows1, rows2).0
            && BatchRowSpec(codec, rows1, rows2, 0).Ok?
            && MatchStatus(BatchRowSpec(codec, rows1, rows2, 0).value) == Match
  {
    var rows1 := [BatchRow("7", c1, "", "")];
    var rows2 := [BatchRow("7", c2, "", "")];
    CompareJsonArraysStrQuirk(codec.floatRepr, "descriptions_json");
    assert !SameField(codec.loads, rows1, rows2, Descriptions, 0);
    VerifyBatchOkIff(codec.loads, rows1, rows2);
    ResponseVerdictSelf(codec, None);
  }
}
