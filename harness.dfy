/**
  The load-test drivers that produce the files the comparator reads: the
  `run_test` loops of `sanity_v3.py` (batches, transaction ids, chunking
  into `output_part_k.csv` files) and of `sanity.py` (an `APITester` whose
  fields accumulate the per-batch bookkeeping).
 */
module Harness {
  import opened Wrappers
  import opened JsonValue
  import opened Tensor
  import opened Parsing

  /** One input row; `None` is a missing (NaN) cell. */
  datatype InputRow = InputRow(description: Option<string>, memo: Option<string>)

  /** One row of an output file. The input cells are copied as read, NaN included. */
  datatype ResultRow = ResultRow(transactionId: nat, description: Option<string>, memo: Option<string>, outputsJson: string)

  /**
    What the HTTP call yields: an exception (timeout, connection error), or a
    status code and the decoded body, `None` when decoding or de-batching it raises.
   */
  datatype HttpReply = Raised | Reply(status: int, body: Option<Response>)

  /** The endpoint, as a function of the batch number and the payload sent. */
  type Endpoint = (nat, Payload) -> HttpReply

  /** `len(df) // batch_size` for a positive batch size; no batch otherwise. */
  function NumBatches(n: nat, batchSize: int): (nb: nat)
    ensures batchSize > 0 ==> nb * batchSize <= n < (nb + 1) * batchSize
    ensures batchSize <= 0 ==> nb == 0
  {
    if batchSize <= 0 then 0 else n / batchSize
  }

  /** Batch `b` of `nb` lies within the first `nb * bs` rows. */
  lemma BatchFits(b: nat, nb: nat, bs: nat, n: nat)
    requires b < nb && nb * bs <= n
    ensures (b + 1) * bs <= n
  {
    var k := nb - (b + 1);
    assert nb * bs == (b + 1) * bs + k * bs;
  }

  /** The descriptions and memos of a batch, missing cells sent as `""`. */
  function Descriptions(rows: seq<InputRow>): (ds: seq<string>)
    ensures |ds| == |rows| && forall i :: 0 <= i < |rows| ==> ds[i] == rows[i].description.GetOr("")
  {
    seq(|rows|, i requires 0 <= i < |rows| => rows[i].description.GetOr(""))
  }

  function Memos(rows: seq<InputRow>): (ms: seq<string>)
    ensures |ms| == |rows| && forall i :: 0 <= i < |rows| ==> ms[i] == rows[i].memo.GetOr("")
  {
    seq(|rows|, i requires 0 <= i < |rows| => rows[i].memo.GetOr(""))
  }

  /** `df.iloc[start_idx:end_idx]` for batch `b`. */
  function BatchOf(rows: seq<InputRow>, bs: nat, b: nat): (batch: seq<InputRow>)
    requires (b + 1) * bs <= |rows|
    ensures |batch| == bs
    ensures forall i :: 0 <= i < bs ==> b * bs + i < |rows| && batch[i] == rows[b * bs + i]
  {
    assert b * bs + bs == (b + 1) * bs;
    rows[b * bs .. b * bs + bs]
  }

  /** The full batches `df.iloc[b * batch_size : (b + 1) * batch_size]` for `b < nb`. */
  function Batches(rows: seq<InputRow>, bs: nat, nb: nat): (bss: seq<seq<InputRow>>)
    requires nb * bs <= |rows|
    ensures |bss| == nb
    ensures forall b :: 0 <= b < nb ==> (b + 1) * bs <= |rows| && bss[b] == BatchOf(rows, bs, b)
  {
    seq(nb, b requires 0 <= b < nb => (BatchFits(b, nb, bs, |rows|); BatchOf(rows, bs, b)))
  }

  /** Every batch holds `bs` rows. */
  ghost predicate Uniform(batches: seq<seq<InputRow>>, bs: nat) {
    forall b :: 0 <= b < |batches| ==> |batches[b]| == bs
  }

  /** Each row of a batch gets id `start_idx + i + 1` and the `i`-th result's text, or `"{}"`. */
  function BatchResultRows(dumps: Json -> string, batch: seq<InputRow>, bs: nat, b: nat, results: seq<Json>)
    : (out: seq<ResultRow>)
    ensures |out| == |batch|
    ensures forall i :: 0 <= i < |batch| ==>
      out[i] == ResultRow(b * bs + i + 1, batch[i].description, batch[i].memo,
                          if i < |results| then dumps(results[i]) else "{}")
  {
    seq(|batch|, i requires 0 <= i < |batch| =>
      ResultRow(b * bs + i + 1, batch[i].description, batch[i].memo,
                if i < |results| then dumps(results[i]) else "{}"))
  }

  /** What the output column holds for batch `b`: one JSON value per returned transaction. */
  type BatchResults = (nat, seq<InputRow>) -> seq<Json>

  /** The rows written for batch `b`. */
  function RowsOfBatch(dumps: Json -> string, results: BatchResults, b: nat, batch: seq<InputRow>, bs: nat)
    : (out: seq<ResultRow>)
    ensures |out| == |batch|
  {
    BatchResultRows(dumps, batch, bs, b, results(b, batch))
  }

  /** The rows of the first `k` batches, in order. */
  function RowsUpTo(dumps: Json -> string, results: BatchResults, batches: seq<seq<InputRow>>, bs: nat, k: nat)
    : (out: seq<ResultRow>)
    requires k <= |batches|
    decreases k
  {
    if k == 0 then []
    else RowsUpTo(dumps, results, batches, bs, k - 1) + RowsOfBatch(dumps, results, k - 1, batches[k - 1], bs)
  }

  /** With batches of `bs` rows, the first `k` batches write `k * bs` rows. */
  lemma {:induction false} RowsUpToLength(dumps: Json -> string, results: BatchResults, batches: seq<seq<InputRow>>,
                                           bs: nat, k: nat)
    requires k <= |batches| && Uniform(batches, bs)
    ensures |RowsUpTo(dumps, results, batches, bs, k)| == k * bs
    decreases k
  {
    if k > 0 {
      RowsUpToLength(dumps, results, batches, bs, k - 1);
      assert (k - 1) * bs + bs == k * bs;
    }
  }

  /** Row `i` of batch `b` sits at position `b * batch_size + i` of the output. */
  lemma {:induction false} RowsUpToAt(dumps: Json -> string, results: BatchResults, batches: seq<seq<InputRow>>,
                                       bs: nat, k: nat, b: nat, i: nat)
    requires k <= |batches| && Uniform(batches, bs) && b < k && i < bs
    ensures b * bs + i < |RowsUpTo(dumps, results, batches, bs, k)|
    ensures RowsUpTo(dumps, results, batches, bs, k)[b * bs + i] == RowsOfBatch(dumps, results, b, batches[b], bs)[i]
    decreases k
  {
    RowsUpToLength(dumps, results, batches, bs, k - 1);
    var prefix := RowsUpTo(dumps, results, batches, bs, k - 1);
    if b < k - 1 {
      BatchFits(b, k - 1, bs, (k - 1) * bs);
      RowsUpToAt(dumps, results, batches, bs, k - 1, b, i);
      assert b * bs + i < |prefix|;
    } else {
      assert b * bs == |prefix|;
    }
  }

  /**
    Transaction ids run 1, 2, 3, ... over the written rows, each row keeps
    its input cells, and a transaction the endpoint returned no result for
    is written as `{}`.
   */
  lemma RowIdsAndCells(dumps: Json -> string, results: BatchResults, rows: seq<InputRow>, bs: nat, nb: nat,
                       b: nat, i: nat)
    requires nb * bs <= |rows| && b < nb && i < bs
    ensures b * bs + i < |RowsUpTo(dumps, results, Batches(rows, bs, nb), bs, nb)|
    ensures (b + 1) * bs <= |rows|
    ensures var row := RowsUpTo(dumps, results, Batches(rows, bs, nb), bs, nb)[b * bs + i];
            var rs := results(b, BatchOf(rows, bs, b));
            row.transactionId == b * bs + i + 1
            && row.description == rows[b * bs + i].description && row.memo == rows[b * bs + i].memo
            && row.outputsJson == if i < |rs| then dumps(rs[i]) else "{}"
  {
    RowsUpToAt(dumps, results, Batches(rows, bs, nb), bs, nb, b, i);
  }

  // ---------------------------------------------------------------------
  // sanity_v3.py
  // ---------------------------------------------------------------------

  /** `send_batch_request` of `sanity_v3.py`: the de-batched transactions on HTTP 200, nothing otherwise. */
  function SendV3(send: Endpoint, b: nat, batch: seq<InputRow>): (r: (seq<Transaction>, bool))
    ensures var reply := send(b, BuildTensorPayload(Descriptions(batch), Memos(batch)));
            (r.1 <==> reply.Reply? && reply.status == 200 && reply.body.Some?)
            && (r.1 ==> r.0 == Debatch(reply.body.value))
    ensures !r.1 ==> r.0 == []
  {
    match send(b, BuildTensorPayload(Descriptions(batch), Memos(batch)))
    case Reply(200, Some(body)) => (Debatch(body), true)
    case _ => ([], false)
  }

  function TransactionsJson(ts: seq<Transaction>): (js: seq<Json>)
    ensures |js| == |ts| && forall i :: 0 <= i < |ts| ==> js[i] == TransactionJson(ts[i])
  {
    seq(|ts|, i requires 0 <= i < |ts| => TransactionJson(ts[i]))
  }

  /** The output column of `sanity_v3.py`: each transaction as an object. */
  function ResultsV3(send: Endpoint): BatchResults {
    (b: nat, batch: seq<InputRow>) => TransactionsJson(SendV3(send, b, batch).0)
  }

  /** One `output_part_{part}.csv` file. */
  datatype OutputFile = OutputFile(part: nat, rows: seq<ResultRow>)

  function FileRows(files: seq<OutputFile>): seq<ResultRow>
    decreases |files|
  {
    if files == [] then [] else FileRows(files[..|files| - 1]) + files[|files| - 1].rows
  }

  /** `rows_in_current_file >= rows_per_file` is reached after one row when `rows_per_file` is below 1. */
  function FileCap(rowsPerFile: int): (c: nat)
    ensures c >= 1 && (rowsPerFile >= 1 ==> c == rowsPerFile)
  {
    if rowsPerFile < 1 then 1 else rowsPerFile
  }

  /**
    The files hold `rows` in order, numbered from 1; every file but the last
    holds exactly `cap` rows and the last holds between 1 and `cap`.
   */
  predicate ChunkedInto(files: seq<OutputFile>, rows: seq<ResultRow>, cap: nat) {
    FileRows(files) == rows
    && (forall k :: 0 <= k < |files| ==> files[k].part == k + 1)
    && (forall k :: 0 <= k < |files| - 1 ==> |files[k].rows| == cap)
    && (|files| > 0 ==> 0 < |files[|files| - 1].rows| <= cap)
  }

  /** What `run_test` of `sanity_v3.py` leaves behind. */
  datatype RunV3 = RunV3(files: seq<OutputFile>, batches: seq<nat>, raised: bool)

  /** Every closed file is numbered by its position and holds exactly `cap` rows. */
  predicate FullFiles(files: seq<OutputFile>, cap: nat) {
    forall k :: 0 <= k < |files| ==> files[k].part == k + 1 && |files[k].rows| == cap
  }

  /** Appends one row to the open file and flushes it when full: the body of the per-row loop. */
  method AddRow(files: seq<OutputFile>, current: seq<ResultRow>, row: ResultRow, cap: nat)
    returns (files': seq<OutputFile>, current': seq<ResultRow>)
    requires cap >= 1 && |current| < cap && FullFiles(files, cap)
    ensures FileRows(files') + current' == FileRows(files) + current + [row]
    ensures |current'| < cap && FullFiles(files', cap)
  {
    current' := current + [row];
    files' := files;
    if |current'| >= cap {
      files' := files + [OutputFile(|files| + 1, current')];
      assert files'[..|files'| - 1] == files;
      current' := [];
    }
  }

  /** The per-row loop of one batch: every row of the batch passes through `AddRow`. */
  method WriteBatch(dumps: Json -> string, batch: seq<InputRow>, bs: nat, b: nat, results: seq<Json>,
                    files: seq<OutputFile>, current: seq<ResultRow>, cap: nat)
    returns (files': seq<OutputFile>, current': seq<ResultRow>)
    requires cap >= 1 && |current| < cap && FullFiles(files, cap)
    ensures FileRows(files') + current' == FileRows(files) + current + BatchResultRows(dumps, batch, bs, b, results)
    ensures |current'| < cap && FullFiles(files', cap)
  {
    var out := BatchResultRows(dumps, batch, bs, b, results);
    files', current' := files, current;
    var i := 0;
    while i < |batch|
      invariant 0 <= i <= |batch|
      invariant FileRows(files') + current' == FileRows(files) + current + out[..i]
      invariant |current'| < cap && FullFiles(files', cap)
    {
      var outputJson := if i < |results| then dumps(results[i]) else "{}";
      var row := ResultRow(b * bs + i + 1, batch[i].description, batch[i].memo, outputJson);
      assert out[..i + 1] == out[..i] + [row];
      files', current' := AddRow(files', current', row, cap);
      i := i + 1;
    }
    assert out[..i] == out;
  }

  lemma FileRowsAppend(files: seq<OutputFile>, f: OutputFile)
    ensures FileRows(files + [f]) == FileRows(files) + f.rows
  {
    assert (files + [f])[..|files|] == files;
  }

  /** After the loop: a non-empty open file is written as the last part. */
  method CloseLastFile(files: seq<OutputFile>, current: seq<ResultRow>, cap: nat) returns (files': seq<OutputFile>)
    requires |current| < cap && FullFiles(files, cap)
    ensures ChunkedInto(files', FileRows(files) + current, cap)
  {
    files' := files;
    if |current| > 0 {
      files' := files + [OutputFile(|files| + 1, current)];
      FileRowsAppend(files, OutputFile(|files| + 1, current));
    } else {
      assert current == [];
      assert FileRows(files) + current == FileRows(files);
    }
  }

  /** The batch numbers `1, 2, ..., n` (`list(range(1, n + 1))`). */
  function BatchNumbers(n: nat): (r: seq<nat>)
    ensures |r| == n && forall q :: 0 <= q < n ==> r[q] == q + 1
  {
    if n == 0 then [] else BatchNumbers(n - 1) + [n]
  }

  /** One iteration of the batch loop: send batch `b` and write its rows. */
  method RunBatchV3(dumps: Json -> string, send: Endpoint, batches: seq<seq<InputRow>>, bs: nat, b: nat,
                    files: seq<OutputFile>, current: seq<ResultRow>, cap: nat)
    returns (files': seq<OutputFile>, current': seq<ResultRow>)
    requires b < |batches|
    requires cap >= 1 && |current| < cap && FullFiles(files, cap)
    requires FileRows(files) + current == RowsUpTo(dumps, ResultsV3(send), batches, bs, b)
    ensures FileRows(files') + current' == RowsUpTo(dumps, ResultsV3(send), batches, bs, b + 1)
    ensures |current'| < cap && FullFiles(files', cap)
  {
    var reply := SendV3(send, b, batches[b]);
    files', current' := WriteBatch(dumps, batches[b], bs, b, TransactionsJson(reply.0), files, current, cap);
  }

  /** The batch loop of `run_test`: every batch in order; the open file stays open. */
  method RunBatchesV3(dumps: Json -> string, send: Endpoint, batches: seq<seq<InputRow>>, bs: nat, cap: nat)
    returns (files: seq<OutputFile>, current: seq<ResultRow>, batchNumbers: seq<nat>)
    requires cap >= 1
    ensures FileRows(files) + current == RowsUpTo(dumps, ResultsV3(send), batches, bs, |batches|)
    ensures |current| < cap && FullFiles(files, cap)
    ensures batchNumbers == BatchNumbers(|batches|)
  {
    files, current, batchNumbers := [], [], [];
    var b := 0;
    while b < |batches|
      invariant 0 <= b <= |batches|
      invariant FileRows(files) + current == RowsUpTo(dumps, ResultsV3(send), batches, bs, b)
      invariant |current| < cap && FullFiles(files, cap)
      invariant batchNumbers == BatchNumbers(b)
    {
      files, current := RunBatchV3(dumps, send, batches, bs, b, files, current, cap);
      batchNumbers := batchNumbers + [b + 1];
      b := b + 1;
    }
  }

  /**
    `run_test` of `sanity_v3.py`: only full batches are sent; every row of
    them goes to the output, chunked into files of `rows_per_file` rows, a
    shorter remainder in one final file. With no batch at all the average
    batch time divides by zero after the files are written.
   */
  method RunTestV3(dumps: Json -> string, send: Endpoint, rows: seq<InputRow>, batchSize: int, rowsPerFile: int)
    returns (run: RunV3)
    ensures var nb := NumBatches(|rows|, batchSize);
            var bs := Count(batchSize);
            nb * bs <= |rows|
            && ChunkedInto(run.files, RowsUpTo(dumps, ResultsV3(send), Batches(rows, bs, nb), bs, nb), FileCap(rowsPerFile))
            && run.batches == BatchNumbers(nb)
            && (run.raised <==> nb == 0)
  {
    var nb := NumBatches(|rows|, batchSize);
    var bs := Count(batchSize);
    var cap := FileCap(rowsPerFile);
    var files, current, batchNumbers := RunBatchesV3(dumps, send, Batches(rows, bs, nb), bs, cap);
    files := CloseLastFile(files, current, cap);
    run := RunV3(files, batchNumbers, nb == 0);
  }

  /**
    The comparator reads back what the harness wrote: with a `json.loads`
    that inverts `json.dumps`, a row's outputs column parses to the
    transaction object, or to the empty dict when there was no result.
   */
  lemma WrittenOutputsReadBack(loads: string -> Option<Json>, dumps: Json -> string, batch: seq<InputRow>, bs: nat,
                               b: nat, results: seq<Json>, i: nat)
    requires forall j :: loads(dumps(j)) == Some(j)
    requires forall k :: 0 <= k < |results| ==> results[k].Obj? && dumps(results[k]) != "" && dumps(results[k]) != "{}"
    requires loads("{}") == Some(Obj(map[]))
    requires i < |batch|
    ensures var cell := BatchResultRows(dumps, batch, bs, b, results)[i].outputsJson;
            ParseOutputsJson(loads, cell) == if i < |results| then results[i].fields else map[]
  {
    var cell := BatchResultRows(dumps, batch, bs, b, results)[i].outputsJson;
    if i < |results| {
      assert loads(cell) == Some(results[i]);
    }
  }

  // ---------------------------------------------------------------------
  // sanity.py
  // ---------------------------------------------------------------------

  /**
    `send_batch_request` of `sanity.py`: the de-batched transactions, the
    status code (0 after an exception) and the success flag.
   */
  function SendSlim(send: Endpoint, b: nat, batch: seq<InputRow>): (r: (seq<SlimTransaction>, int, bool))
    ensures var reply := send(b, BuildTensorPayload(Descriptions(batch), Memos(batch)));
            (r.2 <==> reply.Reply? && reply.status == 200 && reply.body.Some?)
            && (r.2 ==> r.1 == 200 && r.0 == DebatchDropEmpties(reply.body.value))
            && (reply.Raised? || (reply.status == 200 && reply.body.None?) ==> r.1 == 0)
            && (reply.Reply? && reply.status != 200 ==> r.1 == reply.status)
    ensures !r.2 ==> r.0 == []
  {
    match send(b, BuildTensorPayload(Descriptions(batch), Memos(batch)))
    case Raised => ([], 0, false)
    case Reply(200, Some(body)) => (DebatchDropEmpties(body), 200, true)
    case Reply(200, None) => ([], 0, false)
    case Reply(code, _) => ([], code, false)
  }

  /** `sum(len(r['outputs'][0]['data']) if r.get('outputs') else 0 for r in results)`. */
  function Entities(results: seq<SlimTransaction>): (n: nat)
    decreases |results|
  {
    if results == [] then 0
    else
      var r := results[|results| - 1];
      Entities(results[..|results| - 1]) + (if |r.outputs| > 0 then |r.outputs[0].data| else 0)
  }

  /** No transaction contributes more than `max_entities` entities. */
  lemma {:induction false} EntitiesBound(results: seq<SlimTransaction>, m: nat)
    requires forall i :: 0 <= i < |results| ==> |results[i].outputs| > 0 ==> |results[i].outputs[0].data| <= m
    ensures Entities(results) <= |results| * m
    decreases |results|
  {
    if results != [] {
      EntitiesBound(results[..|results| - 1], m);
      assert |results| * m == (|results| - 1) * m + m;
    }
  }

  /** Hence a batch never reports more entities than its response shape allows. */
  lemma BatchEntitiesBound(r: Response)
    requires Dims(r).Some?
    ensures Entities(DebatchDropEmpties(r)) <= Dims(r).value.0 * Dims(r).value.1
  {
    var ts := DebatchDropEmpties(r);
    forall i | 0 <= i < |ts| && |ts[i].outputs| > 0 ensures |ts[i].outputs[0].data| <= Dims(r).value.1 {
      DropEmptiesKeepsNonEmpty(r, i, 0);
    }
    EntitiesBound(ts, Dims(r).value.1);
  }

  function SlimJson(ts: seq<SlimTransaction>): (js: seq<Json>)
    ensures |js| == |ts| && forall i :: 0 <= i < |ts| ==> js[i] == SlimTransactionJson(ts[i])
  {
    seq(|ts|, i requires 0 <= i < |ts| => SlimTransactionJson(ts[i]))
  }

  /** What `send_batch_request` returns for each batch. */
  type Replies = (nat, seq<InputRow>) -> (seq<SlimTransaction>, int, bool)

  function SendAll(send: Endpoint): Replies {
    (b: nat, batch: seq<InputRow>) => SendSlim(send, b, batch)
  }

  /** The output column of `sanity.py`: each transaction, empty outputs dropped, as an object. */
  function ResultsSlim(replies: Replies): BatchResults {
    (b: nat, batch: seq<InputRow>) => SlimJson(replies(b, batch).0)
  }

  /** The per-batch columns the tester records. */
  function StatusesUpTo(replies: Replies, batches: seq<seq<InputRow>>, k: nat): (s: seq<int>)
    requires k <= |batches|
    ensures |s| == k
  {
    seq(k, b requires 0 <= b < k => replies(b, batches[b]).1)
  }

  function FlagsUpTo(replies: Replies, batches: seq<seq<InputRow>>, k: nat): (s: seq<bool>)
    requires k <= |batches|
    ensures |s| == k
  {
    seq(k, b requires 0 <= b < k => replies(b, batches[b]).2)
  }

  function EntitiesUpTo(replies: Replies, batches: seq<seq<InputRow>>, k: nat): (s: seq<nat>)
    requires k <= |batches|
    ensures |s| == k
  {
    seq<nat>(k, b requires 0 <= b < k => Entities(replies(b, batches[b]).0))
  }

  /** Each batch adds one entry to every column. */
  lemma ColumnsStep(replies: Replies, batches: seq<seq<InputRow>>, b: nat)
    requires b < |batches|
    ensures StatusesUpTo(replies, batches, b + 1) == StatusesUpTo(replies, batches, b) + [replies(b, batches[b]).1]
    ensures FlagsUpTo(replies, batches, b + 1) == FlagsUpTo(replies, batches, b) + [replies(b, batches[b]).2]
    ensures EntitiesUpTo(replies, batches, b + 1)
         == EntitiesUpTo(replies, batches, b) + [Entities(replies(b, batches[b]).0)]
  {
  }

  /** `sum(self.success_flags)`. */
  function CountTrue(flags: seq<bool>): (n: nat)
    ensures n <= |flags|
    decreases |flags|
  {
    if flags == [] then 0 else CountTrue(flags[..|flags| - 1]) + (if flags[|flags| - 1] then 1 else 0)
  }

  lemma {:induction false} CountTrueAppend(a: seq<bool>, b: seq<bool>)
    ensures CountTrue(a + b) == CountTrue(a) + CountTrue(b)
    decreases |b|
  {
    if b != [] {
      assert (a + b)[..|a + b| - 1] == a + b[..|b| - 1];
      assert (a + b)[|a + b| - 1] == b[|b| - 1];
      CountTrueAppend(a, b[..|b| - 1]);
    } else {
      assert a + b == a;
    }
  }

  /** The counters of the `summary` dict. */
  datatype TestSummary = TestSummary(totalBatches: nat, batches: seq<nat>, successfulBatches: nat, failedBatches: int)

  /**
    `successful_batches` sums every flag the tester holds, `failed_batches`
    subtracts that from this run's batch count.
   */
  function SummaryOf(nb: nat, flags: seq<bool>): (s: TestSummary)
    ensures s.totalBatches == nb && |s.batches| == nb
    ensures s.successfulBatches == CountTrue(flags) && s.failedBatches == nb - CountTrue(flags)
  {
    TestSummary(nb, BatchNumbers(nb), CountTrue(flags), nb - CountTrue(flags))
  }

  /** Batches are numbered 1, 2, ..., `total_batches`. */
  lemma SummaryBatchNumbers(nb: nat, flags: seq<bool>, b: nat)
    requires b < nb
    ensures SummaryOf(nb, flags).batches[b] == b + 1
  {
  }

  /** `sanity.py`'s tester: its lists grow by one entry per batch over every run. */
  class APITester {
    const apiName: string
    const batchSize: int
    var httpStatusCodes: seq<int>
    var successFlags: seq<bool>
    var entitiesPerBatch: seq<nat>
    var allResults: seq<ResultRow>

    constructor(apiName: string, batchSize: int)
      ensures this.apiName == apiName && this.batchSize == batchSize
      ensures httpStatusCodes == [] && successFlags == [] && entitiesPerBatch == [] && allResults == []
      ensures Valid()
    {
      this.apiName := apiName;
      this.batchSize := batchSize;
      httpStatusCodes := [];
      successFlags := [];
      entitiesPerBatch := [];
      allResults := [];
    }

    /** The bookkeeping lists all have one entry per batch sent. */
    predicate Valid()
      reads this
    {
      |httpStatusCodes| == |successFlags| == |entitiesPerBatch|
    }

    /** The per-row loop of one batch: each row is appended to `all_results`. */
    method AppendRows(dumps: Json -> string, batch: seq<InputRow>, bs: nat, b: nat, results: seq<Json>)
      modifies this
      ensures allResults == old(allResults) + BatchResultRows(dumps, batch, bs, b, results)
      ensures httpStatusCodes == old(httpStatusCodes) && successFlags == old(successFlags)
      ensures entitiesPerBatch == old(entitiesPerBatch)
    {
      var out := BatchResultRows(dumps, batch, bs, b, results);
      var i := 0;
      while i < |batch|
        invariant 0 <= i <= |batch|
        invariant allResults == old(allResults) + out[..i]
        invariant httpStatusCodes == old(httpStatusCodes) && successFlags == old(successFlags)
        invariant entitiesPerBatch == old(entitiesPerBatch)
      {
        var outputJson := if i < |results| then dumps(results[i]) else "{}";
        var row := ResultRow(b * bs + i + 1, batch[i].description, batch[i].memo, outputJson);
        assert out[..i + 1] == out[..i] + [row];
        allResults := allResults + [row];
        i := i + 1;
      }
      assert out[..i] == out;
    }

    /** One iteration of the batch loop: send batch `b`, record its columns and append its rows. */
    method RunBatch(dumps: Json -> string, replies: Replies, batches: seq<seq<InputRow>>, b: nat)
      requires b < |batches|
      requires Valid()
      modifies this
      ensures Valid()
      ensures allResults == old(allResults) + RowsOfBatch(dumps, ResultsSlim(replies), b, batches[b], Count(batchSize))
      ensures httpStatusCodes == old(httpStatusCodes) + [replies(b, batches[b]).1]
      ensures successFlags == old(successFlags) + [replies(b, batches[b]).2]
      ensures entitiesPerBatch == old(entitiesPerBatch) + [Entities(replies(b, batches[b]).0)]
    {
      var reply := replies(b, batches[b]);
      AppendRows(dumps, batches[b], Count(batchSize), b, SlimJson(reply.0));
      httpStatusCodes := httpStatusCodes + [reply.1];
      successFlags := successFlags + [reply.2];
      entitiesPerBatch := entitiesPerBatch + [Entities(reply.0)];
    }

    /** The batch loop of `run_test`: every batch in order. */
    method RunBatches(dumps: Json -> string, replies: Replies, batches: seq<seq<InputRow>>)
      requires Valid()
      modifies this
      ensures Valid()
      ensures allResults == old(allResults) + RowsUpTo(dumps, ResultsSlim(replies), batches, Count(batchSize), |batches|)
      ensures httpStatusCodes == old(httpStatusCodes) + StatusesUpTo(replies, batches, |batches|)
      ensures successFlags == old(successFlags) + FlagsUpTo(replies, batches, |batches|)
      ensures entitiesPerBatch == old(entitiesPerBatch) + EntitiesUpTo(replies, batches, |batches|)
    {
      var b := 0;
      while b < |batches|
        invariant 0 <= b <= |batches|
        invariant Valid()
        invariant allResults == old(allResults) + RowsUpTo(dumps, ResultsSlim(replies), batches, Count(batchSize), b)
        invariant httpStatusCodes == old(httpStatusCodes) + StatusesUpTo(replies, batches, b)
        invariant successFlags == old(successFlags) + FlagsUpTo(replies, batches, b)
        invariant entitiesPerBatch == old(entitiesPerBatch) + EntitiesUpTo(replies, batches, b)
      {
        RunBatch(dumps, replies, batches, b);
        ColumnsStep(replies, batches, b);
        b := b + 1;
      }
    }

    /**
      `run_test`: every full batch is sent and its rows appended to
      `all_results`; `output_part_1.csv` receives everything accumulated so
      far. It raises (after writing the file) when no batch at all has been
      recorded, and for a batch size of 0 it raises at once, before any
      batch and before the file is written.
     */
    method RunTest(dumps: Json -> string, send: Endpoint, rows: seq<InputRow>)
      returns (file: Option<seq<ResultRow>>, summary: Option<TestSummary>)
      requires Valid()
      modifies this
      ensures Valid()
      ensures var nb := NumBatches(|rows|, batchSize);
              var bs := Count(batchSize);
              nb * bs <= |rows|
              && var batches := Batches(rows, bs, nb);
              allResults == old(allResults) + RowsUpTo(dumps, ResultsSlim(SendAll(send)), batches, bs, nb)
              && httpStatusCodes == old(httpStatusCodes) + StatusesUpTo(SendAll(send), batches, nb)
              && successFlags == old(successFlags) + FlagsUpTo(SendAll(send), batches, nb)
              && entitiesPerBatch == old(entitiesPerBatch) + EntitiesUpTo(SendAll(send), batches, nb)
              && (file.None? <==> batchSize == 0)
              && (file.Some? ==> file.value == allResults)
              && (summary.None? <==> batchSize == 0 || successFlags == [])
              && (summary.Some? ==> summary.value == SummaryOf(nb, successFlags))
    {
      var nb := NumBatches(|rows|, batchSize);
      RunBatches(dumps, SendAll(send), Batches(rows, Count(batchSize), nb));
      file := if batchSize == 0 then None else Some(allResults);
      if batchSize == 0 || successFlags == [] {
        summary := None;
      } else {
        summary := Some(SummaryOf(nb, successFlags));
      }
    }
  }

  /**
    On a fresh tester `failed_batches` is the number of batches whose flag
    is false, so successful and failed batches add up to `total_batches`.
   */
  lemma FreshTesterFailedCount(nb: nat, flags: seq<bool>)
    requires |flags| == nb
    ensures SummaryOf(nb, flags).failedBatches >= 0
    ensures SummaryOf(nb, flags).successfulBatches + SummaryOf(nb, flags).failedBatches == nb
  {
  }

  /**
    On a second run of the same tester the counts mix runs: one failed batch
    after an earlier successful one is reported as no failed batch.
   */
  lemma SecondRunMixesCounts()
    ensures SummaryOf(1, [true] + [false]).failedBatches == 0
    ensures SummaryOf(1, [true] + [true]).failedBatches == -1
  {
    CountTrueAppend([true], [false]);
    CountTrueAppend([true], [true]);
    assert CountTrue([true]) == 1 by { assert [true][..0] == []; }
    assert CountTrue([false]) == 0 by { assert [false][..0] == []; }
  }
}
