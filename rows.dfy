/**
  The per-transaction row loop of `compare_csv_files`: one comparison row per
  index up to the longer file, classified as MATCH, MISMATCH or DATA_MISMATCH,
  and the per-part statistics counted from those rows.
 */
module Rows {
  import opened Wrappers
  import opened JsonValue
  import opened Normalization
  import opened Differ
  import opened Parsing
  import opened Alignment
  import opened DifferProps

  datatype Status = Match | Mismatch | DataMismatch

  function StatusText(s: Status): (r: string)
    ensures r == "MATCH" || r == "MISMATCH" || r == "DATA_MISMATCH"
  {
    match s
    case Match => "MATCH"
    case Mismatch => "MISMATCH"
    case DataMismatch => "DATA_MISMATCH"
  }

  /** One row of the comparison table. */
  datatype ComparisonRow = ComparisonRow(
    transactionId: string,
    description: string,
    memo: string,
    api1Output: string,
    api2Output: string,
    status: Status,
    comment: string)

  function MaxLen(a: nat, b: nat): (r: nat)
    ensures r >= a && r >= b && (r == a || r == b)
  {
    if a >= b then a else b
  }

  /** The outputs text shown for a compared row: an empty cell is shown as `{}`. */
  function OutputText(cell: string): (r: string)
    ensures r != ""
    ensures cell != "" ==> r == cell
  {
    if cell == "" then "{}" else cell
  }

  /** The outputs of a row as the dict `compare_outputs` receives. */
  function OutputsOf(loads: string -> Option<Json>, row: TxnRow): (r: Json)
    ensures r.Obj?
  {
    Obj(ParseOutputsJson(loads, row.outputsJson))
  }

  /** The comparison row the loop appends for index `idx`. */
  function RowSpec(codec: Codec, rows1: seq<TxnRow>, rows2: seq<TxnRow>, idx: nat): ComparisonRow
    requires idx < MaxLen(|rows1|, |rows2|)
  {
    if idx >= |rows1| then
      var r := rows2[idx];
      ComparisonRow(r.transactionId, r.description, r.memo, "MISSING ROW", r.outputsJson,
                    DataMismatch, "Row exists only in api_2")
    else if idx >= |rows2| then
      var r := rows1[idx];
      ComparisonRow(r.transactionId, r.description, r.memo, r.outputsJson, "MISSING ROW",
                    DataMismatch, "Row exists only in api_1")
    else
      var r1 := rows1[idx];
      var r2 := rows2[idx];
      if !RowAligned(r1, r2) then
        ComparisonRow("api_1=" + r1.transactionId + ", api_2=" + r2.transactionId, r1.description, r1.memo,
                      "N/A", "N/A", DataMismatch, "Input data doesn't match - rows are not aligned!")
      else
        var v := Verdict(codec, OutputsOf(codec.loads, r1), OutputsOf(codec.loads, r2));
        ComparisonRow(r1.transactionId, r1.description, r1.memo,
                      OutputText(r1.outputsJson), OutputText(r2.outputsJson),
                      if v.0 then Match else Mismatch, v.1)
  }

  /** The whole table the loop builds. */
  predicate IsComparisonTable(codec: Codec, rows1: seq<TxnRow>, rows2: seq<TxnRow>, table: seq<ComparisonRow>) {
    |table| == MaxLen(|rows1|, |rows2|)
    && forall i :: 0 <= i < |table| ==> table[i] == RowSpec(codec, rows1, rows2, i)
  }

  /** The row loop of `compare_csv_files`. */
  method CompareRows(codec: Codec, rows1: seq<TxnRow>, rows2: seq<TxnRow>) returns (table: seq<ComparisonRow>)
    ensures IsComparisonTable(codec, rows1, rows2, table)
  {
    var n := MaxLen(|rows1|, |rows2|);
    table := [];
    var idx := 0;
    while idx < n
      invariant 0 <= idx <= n
      invariant |table| == idx
      invariant forall i :: 0 <= i < idx ==> table[i] == RowSpec(codec, rows1, rows2, i)
    {
      var row;
      if idx >= |rows1| {
        var r := rows2[idx];
        row := ComparisonRow(r.transactionId, r.description, r.memo, "MISSING ROW", r.outputsJson,
                             DataMismatch, "Row exists only in api_2");
      } else if idx >= |rows2| {
        var r := rows1[idx];
        row := ComparisonRow(r.transactionId, r.description, r.memo, r.outputsJson, "MISSING ROW",
                             DataMismatch, "Row exists only in api_1");
      } else {
        var r1 := rows1[idx];
        var r2 := rows2[idx];
        if r1.transactionId != r2.transactionId || r1.description != r2.description {
          row := ComparisonRow("api_1=" + r1.transactionId + ", api_2=" + r2.transactionId, r1.description,
                               r1.memo, "N/A", "N/A", DataMismatch,
                               "Input data doesn't match - rows are not aligned!");
        } else {
          var output1 := ParseOutputsJson(codec.loads, r1.outputsJson);
          var output2 := ParseOutputsJson(codec.loads, r2.outputsJson);
          var isMatch, comment := CompareOutputs(codec, Obj(output1), Obj(output2));
          row := ComparisonRow(r1.transactionId, r1.description, r1.memo,
                               OutputText(r1.outputsJson), OutputText(r2.outputsJson),
                               if isMatch then Match else Mismatch, comment);
        }
      }
      table := table + [row];
      idx := idx + 1;
    }
  }

  // ---------------------------------------------------------------------
  // Statistics
  // ---------------------------------------------------------------------

  /** The status column of a table. */
  function Statuses(table: seq<ComparisonRow>): (ss: seq<Status>)
    ensures |ss| == |table|
    ensures forall i :: 0 <= i < |table| ==> ss[i] == table[i].status
  {
    seq(|table|, i requires 0 <= i < |table| => table[i].status)
  }

  /** How many entries of a status column are `s`. */
  function CountStatus(ss: seq<Status>, s: Status): (r: nat)
    ensures r <= |ss|
    decreases |ss|
  {
    if ss == [] then 0
    else CountStatus(ss[..|ss| - 1], s) + (if ss[|ss| - 1] == s then 1 else 0)
  }

  lemma {:induction false} CountStatusAppend(a: seq<Status>, b: seq<Status>, s: Status)
    ensures CountStatus(a + b, s) == CountStatus(a, s) + CountStatus(b, s)
    decreases |b|
  {
    if b == [] {
      assert a + b == a;
    } else {
      assert (a + b)[..|a + b| - 1] == a + b[..|b| - 1];
      CountStatusAppend(a, b[..|b| - 1], s);
    }
  }

  /** Every entry is exactly one of the three statuses, so the three counts add up to the length. */
  lemma {:induction false} CountsCover(ss: seq<Status>)
    ensures CountStatus(ss, Match) + CountStatus(ss, Mismatch) + CountStatus(ss, DataMismatch) == |ss|
    decreases |ss|
  {
    if ss != [] {
      CountsCover(ss[..|ss| - 1]);
    }
  }

  /** A status is absent from the column exactly when its count is zero. */
  lemma {:induction false} CountStatusZero(ss: seq<Status>, s: Status)
    ensures CountStatus(ss, s) == 0 <==> forall i :: 0 <= i < |ss| ==> ss[i] != s
    decreases |ss|
  {
    if ss != [] {
      CountStatusZero(ss[..|ss| - 1], s);
    }
  }

  /** The statistics of one part, or of the union of several. */
  datatype Stats = Stats(matches: nat, mismatches: nat, dataMismatches: nat)

  /** The `matches`, `mismatches` and `data_mismatches` counts of a status column. */
  function StatsOf(ss: seq<Status>): (st: Stats)
    ensures st.matches + st.mismatches + st.dataMismatches == |ss|
  {
    CountsCover(ss);
    Stats(CountStatus(ss, Match), CountStatus(ss, Mismatch), CountStatus(ss, DataMismatch))
  }

  /** What `compare_csv_files` returns for one part: its table, its counts and the input check's message. */
  datatype PartResult = PartResult(table: seq<ComparisonRow>, stats: Stats, verification: string)

  /** Why a part's worker raised. */
  datatype PartFailure =
    | Unreadable       // a file could not be read as CSV
    | NoStatusColumn   // no row on either side: the empty table has no `match_status` column

  /** The result of `compare_csv_files` on two readable files. */
  function PartSpec(codec: Codec, rows1: seq<TxnRow>, rows2: seq<TxnRow>): (r: Result<PartResult, PartFailure>)
    ensures r.Err? <==> |rows1| == 0 && |rows2| == 0
    ensures r.Ok? ==> |r.value.table| > 0 && IsComparisonTable(codec, rows1, rows2, r.value.table)
    ensures r.Ok? ==> r.value.stats == StatsOf(Statuses(r.value.table))
  {
    if |rows1| == 0 && |rows2| == 0 then Err(NoStatusColumn)
    else
      var table := seq(MaxLen(|rows1|, |rows2|), i requires 0 <= i < MaxLen(|rows1|, |rows2|) =>
                         RowSpec(codec, rows1, rows2, i));
      Ok(PartResult(table, StatsOf(Statuses(table)), VerifySameInputTransaction(rows1, rows2).1))
  }

  /** `compare_csv_files` after reading the two files. */
  method CompareCsvFiles(codec: Codec, rows1: seq<TxnRow>, rows2: seq<TxnRow>) returns (r: Result<PartResult, PartFailure>)
    ensures r == PartSpec(codec, rows1, rows2)
  {
    var verification := VerifySameInputTransaction(rows1, rows2).1;
    var table := CompareRows(codec, rows1, rows2);
    if table == [] {
      return Err(NoStatusColumn);
    }
    r := Ok(PartResult(table, StatsOf(Statuses(table)), verification));
    ComparisonTableUnique(codec, rows1, rows2, table, PartSpec(codec, rows1, rows2).value.table);
  }

  /** The comparison table of two files is determined by the files. */
  lemma ComparisonTableUnique(codec: Codec, rows1: seq<TxnRow>, rows2: seq<TxnRow>, t1: seq<ComparisonRow>, t2: seq<ComparisonRow>)
    requires IsComparisonTable(codec, rows1, rows2, t1) && IsComparisonTable(codec, rows1, rows2, t2)
    ensures t1 == t2
  {
  }

  // ---------------------------------------------------------------------
  // Properties of the classification
  // ---------------------------------------------------------------------

  /** A row is DATA_MISMATCH exactly when its index is missing on one side or its inputs disagree. */
  lemma DataMismatchIff(codec: Codec, rows1: seq<TxnRow>, rows2: seq<TxnRow>, idx: nat)
    requires idx < MaxLen(|rows1|, |rows2|)
    ensures RowSpec(codec, rows1, rows2, idx).status == DataMismatch
        <==> idx >= |rows1| || idx >= |rows2| || !RowAligned(rows1[idx], rows2[idx])
  {
  }

  /** An aligned row is MATCH exactly when the normal forms of its two outputs are `==`. */
  lemma AlignedRowMatchIff(codec: Codec, rows1: seq<TxnRow>, rows2: seq<TxnRow>, idx: nat)
    requires idx < |rows1| && idx < |rows2| && RowAligned(rows1[idx], rows2[idx])
    ensures RowSpec(codec, rows1, rows2, idx).status == Match
        <==> PyEq(Normalize(codec.dumps, OutputsOf(codec.loads, rows1[idx])),
                  Normalize(codec.dumps, OutputsOf(codec.loads, rows2[idx])))
    ensures RowSpec(codec, rows1, rows2, idx).status != DataMismatch
  {
  }

  /**
    The input check passes exactly when the table has no DATA_MISMATCH row:
    both classify by the same row count, ids and descriptions.
   */
  lemma VerifiedIffNoDataMismatch(codec: Codec, rows1: seq<TxnRow>, rows2: seq<TxnRow>, table: seq<ComparisonRow>)
    requires IsComparisonTable(codec, rows1, rows2, table)
    ensures VerifySameInputTransaction(rows1, rows2).0
        <==> forall i :: 0 <= i < |table| ==> table[i].status != DataMismatch
  {
    if forall i :: 0 <= i < |table| ==> table[i].status != DataMismatch {
      if |table| > 0 {
        var last := |table| - 1;
        assert table[last] == RowSpec(codec, rows1, rows2, last);
        assert table[last].status != DataMismatch;
        assert last < |rows1| && last < |rows2|;
      }
      forall i | 0 <= i < |rows1| ensures RowAligned(rows1[i], rows2[i]) {
        assert table[i].status != DataMismatch;
      }
    }
  }

  /** Comparing a file with itself gives a table of MATCH rows only. */
  lemma SelfComparisonAllMatch(codec: Codec, rows: seq<TxnRow>, table: seq<ComparisonRow>)
    requires IsComparisonTable(codec, rows, rows, table)
    ensures forall i :: 0 <= i < |table| ==> table[i].status == Match && table[i].comment == "MATCH"
    ensures StatsOf(Statuses(table)) == Stats(|rows|, 0, 0)
  {
    forall i | 0 <= i < |table| ensures table[i].status == Match && table[i].comment == "MATCH" {
      VerdictSelf(codec, OutputsOf(codec.loads, rows[i]));
    }
    CountStatusZero(Statuses(table), Mismatch);
    CountStatusZero(Statuses(table), DataMismatch);
  }

  /**
    A row whose outputs cell holds a list (or any other non-dict) is read as
    `{}`, so it matches a row whose outputs cell is empty.
   */
  lemma NonDictOutputsMatchEmpty(codec: Codec, r1: TxnRow, r2: TxnRow)
    requires RowAligned(r1, r2) && r2.outputsJson == ""
    requires codec.loads(r1.outputsJson).Some? && !codec.loads(r1.outputsJson).value.Obj?
    ensures RowSpec(codec, [r1], [r2], 0).status == Match
  {
    NonDictOutputsReadAsEmpty(codec.loads, r1.outputsJson);
    VerdictSelf(codec, Obj(map[]));
  }
}
