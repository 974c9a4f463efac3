# API output comparison, tensor de-batching and memory-graph time axes

This project models, in Dafny, the data-handling core of a set of Python
scripts that test two deployments of a transaction-classification inference
API against each other, and that read memory-usage graphs exported as SVG.

- **Output comparator** (`Compare_output_holo_combined.py`, with the
  transaction-level part repeated in `compare_output.py`):
  - JSON values are canonicalised: keys sorted, and a list whose first item is
    a mapping sorted by each item's `json.dumps` text.
  - Two outputs compare equal when their normal forms are `==`. Otherwise the
    raw trees are walked depth first to list path-tagged differences; the
    first five are joined with `" | "` into the comment.
  - Each row index of two per-part CSV files is classified as `MATCH`,
    `MISMATCH` or `DATA_MISMATCH`.
  - The parts are paired by position in the sorted file lists. Each part is
    compared by a worker (in parallel or in sequence), and the results are
    merged in part order. Totals, the mismatch-only table, the top-20 reasons
    and the closing line are derived from the merged table.
  - The batched variant compares descriptions, memos and API responses of
    each batch row.
- **Tensor de-batcher** (`sanity_v3.py`, `sanity.py`, `miscellaneous.py`):
  - The request payload is built from the descriptions and memos of a batch.
  - A flattened `[batch, max_entities]` response is split into one object per
    transaction. Indexing is `data[i * m + j]`, padded with `""` past the
    data.
  - There are two policies for empty values: all-or-nothing (`sanity_v3.py`,
    and the identical copy in `miscellaneous.py`) and drop-empties
    (`sanity.py`, which also keys outputs by name).
  - The `run_test` bookkeeping is modelled: batch numbers, transaction ids,
    output-file chunking, status codes, success flags and entity counts.
    `sanity.py`'s tester is a class whose lists grow across runs.
- **Time labels** (`Gem.py`, `V3.py`):
  - `parse_time_label` reads `H:MM`, or else the first digit run, as the hour.
    It applies AM/PM and reduces the hour mod 24. `V3.py`'s copy is identical
    to `Gem.py`'s.
  - `Gem.py`'s `create_time_array` sorts labels by position, drops labels
    without digits and adds a day at every midnight crossing. A zero span
    becomes a full day.
  - `V3.py`'s `extract_axis_info` collects time and memory labels that have a
    position, skipping day annotations.
  - `V3.py`'s `create_time_array` and `create_memory_array` de-duplicate
    labels by truncated integer position (last wins). In `create_time_array`
    an end at or before the start is moved to the next day.

Library calls and the outside world are parameters:

- `json.loads`, `json.dumps(sort_keys=True)` and `repr()` of a float are the
  `Codec` fields. `dumps` is assumed injective (`DumpsInjective`) only where a
  lemma says so.
- CSV reading is `read`. The inference endpoint is `Endpoint`: the reply to
  batch `b` with a given payload. `float()` is `ToFloat`.
- The order in which parallel workers finish is `completion`.
- Times are minutes from the base day's midnight. The default range of
  18:00 plus two hours on the current day is the constant `DefaultRange`.

Python `==` is modelled as `PyEq`: `True == 1 == 1.0`, and it compares
mappings and lists element-wise. `type()` equality is `Tag` equality.
Python's `int()` truncates toward zero (`Trunc`). A minute above 59 makes
`datetime.replace` raise, and this is modelled as an error result.

## Model

| member | source | states |
|---|---|---|
| JsonValue.PyEqRefl | Compare_output_holo_combined.py:78-82 | Every value is Python-equal to itself. |
| JsonValue.PyEqSym | Compare_output_holo_combined.py:78-82 | Python equality is symmetric. |
| JsonValue.PyEqSameTagScalar | Compare_output_holo_combined.py:117-119 | For two scalars of the same Python type, `==` is plain equality. |
| JsonValue.BoolEqualsInt | Compare_output_holo_combined.py:81 | `True == 1` and `1 == 1.0` hold in Python although the types differ. |
| JsonValue.NatStrRoundTrip | Compare_output_holo_combined.py:117-119 | The decimal text of a natural number reads back as that number. |
| JsonValue.PyStrConflatesIntAndDigits | Compare_output_holo_combined.py:401 | `str(1)` and `str("1")` are the same text for different values. |
| JsonValue.StrRepr | Compare_output_holo_combined.py:402 | `repr()` of a string: at least two characters longer than the string, opening and closing with the same quote (`"` when the string holds `'` and no `"`, `'` otherwise). |
| JsonValue.PyStr | Compare_output_holo_combined.py:401 | `str()` of a string is the string itself; of any other value it is that value's `repr()`. |
| Normalization.Normalize | Compare_output_holo_combined.py:18-30 | Normalising keeps the type, the key set of a mapping and the length of a list, and leaves scalars alone. |
| Normalization.NormalizeDictList | Compare_output_holo_combined.py:25-27 | A list whose first item is a mapping becomes its normalised items sorted by the `dumps` order, a permutation of them. |
| Normalization.NormalizeOtherList | Compare_output_holo_combined.py:28 | Any other list keeps its order: its items are only normalised. |
| Normalization.NormalizeDictListOrderInsensitive | Compare_output_holo_combined.py:25-27 | Two permutations of a list of mappings have the same normal form. |
| Normalization.NormalizeScalarListOrderSensitive | Compare_output_holo_combined.py:28 | `[1, 2]` and `[2, 1]` keep different normal forms. |
| Normalization.NormalizeFirstItemDecides | Compare_output_holo_combined.py:25 | Only the first item decides whether a list is sorted: mappings after a `null` are not. |
| Normalization.NormalizeIdempotent | Compare_output_holo_combined.py:18-30 | Normalising twice gives the same value as normalising once. |
| Parsing.ParseJsonField | Compare_output_holo_combined.py:33-47 | A cell reads as a value only when it is not blank, `{}` or `[]` and `loads` accepts it with a non-null result; otherwise it is None. |
| Parsing.BlankFieldsReadAsAbsent | Compare_output_holo_combined.py:38-39 | `""`, `"{}"` and `"[]"` read as None, while `"[ ]"` reads as an empty list. |
| Parsing.ParseJsonFieldAgreesWithLoads | Compare_output_holo_combined.py:41-45 | Apart from blanks and `null`, the cell reads exactly as `loads` reads it. |
| Parsing.ParseOutputsJson | Compare_output_holo_combined.py:54-70 | The result is always a mapping; it is non-empty only when `loads` returned that very mapping. |
| Parsing.ParseOutputsJsonAgreesWithLoads | Compare_output_holo_combined.py:54-70 | The outputs cell is the dict `loads` returns, and `{}` for a blank, unparsable or non-dict cell. |
| Parsing.NonDictOutputsReadAsEmpty | Compare_output_holo_combined.py:61-64 | A cell holding a list or scalar reads the same as an empty cell. |
| Differ.FindDiff | Compare_output_holo_combined.py:86-121 | The depth-first walk returns exactly the differences of the reference definition `DiffSpec`. |
| Differ.FindKeyDiffs | Compare_output_holo_combined.py:93-101 | Mappings are visited over the sorted union of their keys, one key after another. |
| Differ.FindOneKeyDiff | Compare_output_holo_combined.py:94-101 | One key is reported only in api_2 when the first mapping lacks it, only in api_1 when the second does, and otherwise the two values are compared below `.key`. |
| Differ.FindItemDiffs | Compare_output_holo_combined.py:103-115 | Lists give a length entry, the differences of the common prefix, then the surplus entries. |
| Differ.FindCommonDiffs | Compare_output_holo_combined.py:107-108 | The common prefix is compared index by index up to the shorter length. |
| Differ.ExtraEntries | Compare_output_holo_combined.py:110-115 | Exactly one "extra in api_X" entry per surplus index. |
| Differ.Extras | Compare_output_holo_combined.py:110-115 | There are as many surplus entries as the length difference, one per surplus index, naming the longer side. |
| Differ.Render | Compare_output_holo_combined.py:89-119 | Every message `find_diff` appends starts with the path, hence with `root`. |
| Differ.Join | Compare_output_holo_combined.py:125 | `str.join` of no parts is empty, of one part is that part, and otherwise the first part, the separator, then the join of the rest. |
| Differ.CompareOutputs | Compare_output_holo_combined.py:73-125 | The returned flag and comment are those of `Verdict` on the two outputs. |
| DifferProps.DiffSelf | Compare_output_holo_combined.py:86-121 | A value compared with itself has no differences. |
| DifferProps.DiffEmptyImpliesEqual | Compare_output_holo_combined.py:86-121 | No differences means the raw trees are identical. |
| DifferProps.DiffEmptyIff | Compare_output_holo_combined.py:86-121 | The walk finds no differences exactly when the two trees are equal. |
| DifferProps.VerdictSelf | Compare_output_holo_combined.py:78-82 | Any output compared with itself is `(True, "MATCH")`, for the model's values (no NaN). |
| DifferProps.VerdictNeverStructureMismatch | Compare_output_holo_combined.py:123-125 | For the model's values (no `-0.0`, no NaN), a mismatch always has a difference, so the comment begins with `root` and is never "Structure mismatch". |
| DifferProps.CommentStartsWithRoot | Compare_output_holo_combined.py:123-125 | A comment built from at least one difference begins with `root`. |
| Differ.Comment | Compare_output_holo_combined.py:125 | The comment is empty exactly when there is no difference, and otherwise begins with the first difference rendered. |
| DifferProps.CommentKeepsFirstFive | Compare_output_holo_combined.py:125 | Once there are five differences, further ones never change the comment (`comments[:5]`). |
| DifferProps.CommentOfFewDiffs | Compare_output_holo_combined.py:125 | With at most five differences, the comment is the first one rendered followed by the separator (space, bar, space) and the comment of the rest; one difference alone is its rendering. |
| DifferProps.VerdictSymmetric | Compare_output_holo_combined.py:73-125 | Swapping the two outputs does not change whether they match. |
| DifferProps.VerdictDictListReordered | Compare_output_holo_combined.py:25-27 | Two permutations of a list of mappings are a MATCH. |
| DifferProps.VerdictBoolIntQuirk | Compare_output_holo_combined.py:81 | `{"x": true}` and `{"x": 1}` are a MATCH although the walk would report a type mismatch for them. |
| DifferProps.DiffPaths | Compare_output_holo_combined.py:86-121 | Every difference lies under the path it was found from, and one-sided and extra entries lie strictly below it. |
| DifferProps.OnlyInFrom | Compare_output_holo_combined.py:94-99 | An "only in api_X" entry for a key means the key is in that side's mapping and not in the other. |
| DifferProps.OnlyInTo | Compare_output_holo_combined.py:94-99 | A key in one side's mapping only gets an "only in" entry for that side. |
| DifferProps.OnlyInIff | Compare_output_holo_combined.py:94-99 | Both directions: the entry appears exactly when the key is on that side only. |
| DifferProps.LengthMismatchIff | Compare_output_holo_combined.py:104-105 | A length entry for a list appears exactly when the two lengths differ, with those lengths. |
| DifferProps.DiffSwap | Compare_output_holo_combined.py:86-121 | Swapping the outputs gives the same differences with the sides swapped. |
| Alignment.VerifySameInputTransaction | compare_output.py:105-122 | The inputs are verified exactly when the row counts, the ids and the descriptions agree; otherwise the message names the first failing check, in that order. |
| Alignment.FirstFieldMismatch | Compare_output_holo_combined.py:478-490 | The first row whose descriptions or memos differ, or None when every row from `from` on agrees. |
| Alignment.VerifyBatchOkIff | Compare_output_holo_combined.py:466-492 | The batched input check passes exactly when the counts and batch ids agree and every row's descriptions and memos are Python-equal. |
| Alignment.VerifySameInputBatch | Compare_output_holo_combined.py:466-492 | The loop returns the verdict and message of `VerifyBatchSpec`. |
| Alignment.FindFieldMismatch | Compare_output_holo_combined.py:478-490 | The loop over the batches stops at the first one whose decoded field differs, as `FirstFieldMismatch` from 0 says. |
| Alignment.Items | Compare_output_holo_combined.py:397-400 | `len()` and iteration are defined for lists, strings and dicts, and raise on anything else; a dict yields its keys, in ascending order in the model. |
| Alignment.CompareJsonArrays | Compare_output_holo_combined.py:386-404 | A match is reported only as "Both empty" or "Match", and every mismatch message starts with the field name; `CompareJsonArraysIff` states when each outcome occurs. |
| Alignment.CompareJsonArraysIff | Compare_output_holo_combined.py:386-404 | A TypeError exactly when a present side has no length; "Both empty" exactly when both are absent; a match exactly when the lengths and every `str()` of the items agree, with dict keys in ascending order in that text. |
| Alignment.CompareJsonArraysSelf | Compare_output_holo_combined.py:386-404 | A list compared with itself matches. |
| Alignment.CompareJsonArraysStrQuirk | Compare_output_holo_combined.py:401 | `[1]` and `["1"]` match, because items are compared by `str()`. |
| Alignment.CompareApiResponses | Compare_output_holo_combined.py:407-463 | The returned flag and comment are those of `ResponseVerdict`. |
| Alignment.ResponseVerdictIff | Compare_output_holo_combined.py:412-422 | Responses match exactly when both are absent or their normal forms are Python-equal, and then the comment is MATCH. |
| Alignment.ResponseVerdictSelf | Compare_output_holo_combined.py:412-422 | A response compared with itself is a MATCH. |
| Rows.CompareRows | Compare_output_holo_combined.py:163-228 | The row loop builds one row per index up to the longer file, each as `RowSpec` classifies it. |
| Rows.DataMismatchIff | Compare_output_holo_combined.py:163-207 | A row is DATA_MISMATCH exactly when it is missing on one side or its id or description differs. |
| Rows.AlignedRowMatchIff | Compare_output_holo_combined.py:209-228 | An aligned row is MATCH exactly when the normal forms of its outputs are Python-equal, and is never DATA_MISMATCH. |
| Rows.VerifiedIffNoDataMismatch | Compare_output_holo_combined.py:128-145 | The input check passes exactly when the table has no DATA_MISMATCH row. |
| Rows.SelfComparisonAllMatch | Compare_output_holo_combined.py:163-237 | A file compared with itself is all MATCH, with totals (n, 0, 0). |
| Rows.NonDictOutputsMatchEmpty | Compare_output_holo_combined.py:209-215 | A non-dict outputs cell matches an empty one. |
| Rows.CountStatusAppend | compare_output.py:300-302 | Status counts add up over concatenated tables. |
| Rows.CountsCover | compare_output.py:140-212 | Matches, mismatches and data mismatches add up to the row count. |
| Rows.StatsOf | Compare_output_holo_combined.py:232-237 | The three per-part counts sum to the number of rows. |
| Rows.PartSpec | Compare_output_holo_combined.py:148-241 | A part fails exactly when both files are empty (no `match_status` column); otherwise its table is non-empty, holds the classification of every index, and the totals count its statuses. |
| Rows.ComparisonTableUnique | Compare_output_holo_combined.py:148-218 | Two tables that both classify every index of the same two files are the same table. |
| Rows.CompareCsvFiles | Compare_output_holo_combined.py:148-241 | The worker returns exactly `PartSpec`. |
| Batched.MatchStatus | Compare_output_holo_combined.py:579-587 | MATCH exactly when all three sub-statuses match; DATA_MISMATCH exactly when descriptions or memos do not. |
| Batched.CompareBatchRow | Compare_output_holo_combined.py:511-575 | One batch row is compared as `BatchRowSpec` says, including the TypeError path. |
| Batched.CompareBatchedRows | Compare_output_holo_combined.py:510-575 | The loop succeeds exactly when every row does, with one row per index up to the longer file, each equal to `BatchRowSpec`. |
| Batched.BatchedSpec | Compare_output_holo_combined.py:495-598 | A successful comparison has one row and one status per index, and at least one row; each status is the one `MatchStatus` gives that row, and the totals count those statuses. |
| Batched.CompareBatchedCsv | Compare_output_holo_combined.py:495-598 | The batched comparison returns exactly `BatchedSpec`. |
| Batched.UnalignedBatchIsDataMismatch | Compare_output_holo_combined.py:511-544 | A missing batch or a batch-id mismatch always ends as DATA_MISMATCH. |
| Batched.OverallComment | Compare_output_holo_combined.py:559-567 | Either input list failing gives an "Input mismatch: " comment; with both inputs matching, it is the response comment on a mismatch and "All fields match" otherwise. |
| Batched.InputMismatchOutranksResponse | Compare_output_holo_combined.py:559-567 | A descriptions or memos mismatch forces DATA_MISMATCH and an "Input mismatch: " comment. |
| Batched.AlignedBatchStatusIff | Compare_output_holo_combined.py:579-587 | An aligned batch is MATCH exactly when all three fields match, and MISMATCH exactly when only the response differs. |
| Batched.SelfComparisonAllMatch | Compare_output_holo_combined.py:546-567 | A batch compared with itself matches with "All fields match". |
| Batched.InputCheckAndRowsDisagree | Compare_output_holo_combined.py:401 | The input check can fail on `[1]` against `["1"]` while the row itself is MATCH. |
| Reports.IndicesOf | compare_output.py:304 | The selected indices are exactly those whose status is wanted, in ascending order. |
| Reports.IssueCount | compare_output.py:304 | The number of selected rows is mismatches plus data mismatches. |
| Reports.MismatchOnly | compare_output.py:304-308 | The mismatch-only table exists exactly when some row is MISMATCH or DATA_MISMATCH; it has that many rows, and they are the table's rows at exactly those positions, ascending. |
| Reports.MismatchOnlyRows | Compare_output_holo_combined.py:327-331 | A row is in the mismatch-only file exactly when it is a table row whose status is MISMATCH or DATA_MISMATCH. |
| Reports.MismatchOnlyInTableOrder | Compare_output_holo_combined.py:327 | The mismatch-only rows come from strictly increasing table positions, so the file keeps the table order. |
| Reports.Truncate | compare_output.py:342 | `[:200]`: at most `n` characters, a prefix of the text, and the whole text when it is short enough. |
| Reports.Ranked | compare_output.py:340 | The distinct reasons, each once, ordered by decreasing count. |
| Reports.RankedCounts | compare_output.py:340 | The ranking lists each distinct reason once; every ranked reason occurs, and the counts never increase along the ranking. |
| Reports.TopReasons | compare_output.py:340-342 | At most `limit` reasons, each with its true count and truncated text, counts non-increasing. |
| Reports.TopReasonIsMostFrequent | compare_output.py:340 | The first reason is at least as frequent as any reason present. |
| Reports.ReasonList | compare_output.py:335-342 | Reasons are listed only when there are MISMATCH rows: at most 20, each counted among MISMATCH rows and at most 200 characters. |
| Reports.ClosingAsWritten | compare_output.py:320-323 | As written, the closing line says PERFECT MATCH exactly when there are no output mismatches. |
| Reports.ClosingAsWrittenMissesDataMismatch | Compare_output_holo_combined.py:343-346 | A table with one DATA_MISMATCH row gets PERFECT MATCH as written, and a review of one issue when corrected. |
| Reports.Closing | Compare_output_holo_combined.py:655-658 | PERFECT MATCH exactly when there are neither mismatches nor data mismatches; otherwise a review of their sum. |
| Reports.ClosingAllClearIff | Compare_output_holo_combined.py:655-658 | The corrected closing line is PERFECT MATCH exactly when every row is MATCH. |
| Reconcile.SortedNames | compare_output.py:231-232 | `sorted()` of the file names: a permutation, in order. |
| Reconcile.PairFiles | compare_output.py:248-252 | As many pairs as the shorter list, numbered 1..n by position. |
| Reconcile.PairFilesSorted | compare_output.py:231-252 | The pairs take names from each list in sorted order. |
| Reconcile.PairFilesDropsSurplus | compare_output.py:245-252 | Surplus files on the longer side are never compared. |
| Reconcile.RunWorker | Compare_output_holo_combined.py:148-241 | A worker reads both files and returns `compare_csv_files` on them. |
| Reconcile.SucceededParts | compare_output.py:256-277 | The parallel map holds exactly the parts whose worker returned, each with its result. |
| Reconcile.CollectParallel | compare_output.py:256-277 | Whatever the completion order, the collected map is `SucceededParts`. |
| Reconcile.FirstFailure | compare_output.py:285-288 | The first part whose worker raises, or None when none does. |
| Reconcile.CollectSequential | compare_output.py:278-288 | The sequential loop returns `SequentialSpec`: a part that raises stops the run. |
| Reconcile.PartsUpTo | compare_output.py:293 | `sorted(all_comparisons.keys())`: exactly the collected part numbers, ascending. |
| Reconcile.CompareAllParts | Compare_output_holo_combined.py:244-379 | The whole merge returns `AllPartsSpec` for either branch. |
| Reconcile.SumStatsCountsTable | compare_output.py:293-302 | The summed part statistics equal the counts over the combined table. |
| Reconcile.ReportTotalsCountTable | compare_output.py:293-302 | The report's totals count its table, and the three totals sum to its length. |
| Reconcile.FailedPartAbsent | compare_output.py:269-277 | A part whose worker raises is absent from the merged map and from the concatenation order. |
| Reconcile.SequentialAgreesWithParallel | compare_output.py:256-288 | The sequential branch succeeds exactly when no worker raises, and then collects the parallel map. |
| Reconcile.ParallelAgreesWithSequential | compare_output.py:256-294 | With no raising worker both branches give the same report, rows in the same order. |
| Reconcile.SequentialFailsOnAnyFailure | compare_output.py:285-288 | In sequence, any raising worker fails the run at or before that part. |
| Reconcile.NothingToConcatenateIff | compare_output.py:293-294 | `pd.concat` of nothing raises exactly when every worker raised. |
| Reconcile.CombinedTableOrder | compare_output.py:293-294 | The combined table is the parts' tables one after another in ascending part order. |
| BatchedReport.SummarySpec | Compare_output_holo_combined.py:611-619 | A missing first file, then a missing second file, is reported as such. |
| BatchedReport.CompareBatchedOutputs | Compare_output_holo_combined.py:601-693 | The batched report returns exactly `SummarySpec`. |
| BatchedReport.SummaryTotalsCountTable | Compare_output_holo_combined.py:589-594 | The batched totals sum to the number of rows. |
| BatchedReport.PerfectMatchIff | Compare_output_holo_combined.py:655-658 | The batched closing line is PERFECT MATCH exactly when every batch matches in all three fields. |
| BatchedReport.MismatchFileIffReview | Compare_output_holo_combined.py:634-658 | The mismatch-only file is written exactly when the closing line asks for a review, and holds that many issues. |
| Tensor.BuildTensorPayload | sanity_v3.py:21-40 | Two inputs named description and memo, of type BYTES, each of shape `[n, 1]`, carrying the descriptions and memos. |
| Tensor.PayloadShapesAgreeIff | sanity_v3.py:21-40 | Both shapes describe their data exactly when there are as many memos as descriptions. |
| Tensor.Dims | sanity_v3.py:48-56 | A batch size and width exist exactly when there is an output whose shape has two entries. |
| Tensor.Slice | sanity_v3.py:76-80 | The slice for transaction `i` has `m` values, `data[i*m + j]` where it exists and `""` past the end. |
| Tensor.OutputAt | sanity_v3.py:58-102 | A per-transaction output keeps the name, has shape `[1, len(data)]` and datatype defaulting to BYTES. |
| Tensor.TransactionAt | sanity_v3.py:66-108 | One entry per output, with model name and version defaulting to `""`. |
| Tensor.Debatch | sanity_v3.py:42-111 | No outputs or a bad shape gives no transactions; otherwise exactly `shape[0]`. |
| Tensor.ReadSlice | sanity_v3.py:76-80 | The inner loop reads exactly the slice. |
| Tensor.TransactionOf | sanity_v3.py:67-109 | The two passes build exactly `TransactionAt`. |
| Tensor.ParseTensorResponse | miscellaneous.py:51-120 | The nested loops return exactly `Debatch`. |
| Tensor.AllOrNothing | sanity_v3.py:85-95 | Either every output keeps its full slice or every output is empty, and some output has a value exactly when the transaction has entities. |
| Tensor.OutputsKeepNamesAndOrder | sanity_v3.py:58-102 | Name, order, type tag and shape are kept, and the data is empty or `m` long. |
| Tensor.SlicesFlatten | sanity_v3.py:76-80 | The slices of the first `n*m` values, one after another, are those values. |
| Tensor.DebatchFlattenRoundTrip | sanity_v3.py:66-111 | When every transaction has entities, concatenating an output's per-transaction data gives back the full data. |
| Tensor.Find | sanity.py:68-72 | The position of a name among the keys, None exactly when it is absent. |
| Tensor.Store | sanity.py:70-72 | `d[name] = data`: a present key keeps its place with the new data, a new key goes last, keys stay distinct. |
| Tensor.CollectByName | sanity.py:68-72 | The loop builds exactly `ByName`. |
| Tensor.ByNameFirstPosition | sanity.py:68-72 | The keys are the output names in first-seen order, each once. |
| Tensor.ByNameLastData | sanity.py:68-72 | Each key holds the data of the last output with that name. |
| Tensor.ByNameDistinct | sanity.py:68-72 | With distinct names the dict is the outputs in order. |
| Tensor.NonEmpty | sanity.py:79-83 | Drops exactly the `""` values and never grows the data. |
| Tensor.DebatchDropEmpties | sanity.py:53-97 | No outputs or a bad shape gives no transactions; otherwise exactly `shape[0]`. |
| Tensor.NonEmptySlice | sanity.py:77-83 | The inner loop reads the slice without its empty values. |
| Tensor.ParseTensorResponseDropEmpties | sanity.py:53-97 | The loops return exactly `DebatchDropEmpties`. |
| Tensor.DropEmptiesKeepsNonEmpty | sanity.py:77-94 | Each output holds the non-empty values of the last same-named output's slice, at most `m` of them. |
| Tensor.VariantsAgreeUpToEmpties | sanity.py:53-97 | With distinct names the two policies agree on names and order, and differ only by dropping `""`. |
| Tensor.TransactionJson | sanity_v3.py:104-108 | A transaction is written as an object with model_name, model_version and outputs. |
| Harness.NumBatches | sanity_v3.py:151 | `len(df) // batch_size`: the number of full batches. |
| Harness.BatchOf | sanity_v3.py:160-163 | Batch `b` is rows `b*bs` to `b*bs + bs`. |
| Harness.Batches | sanity_v3.py:160-166 | One batch per batch number, each the rows for it. |
| Harness.BatchResultRows | sanity_v3.py:170-179 | One row per input row, id `start_idx + i + 1`, outputs `dumps` of the result or `"{}"` when missing. |
| Harness.RowsUpToLength | sanity_v3.py:155-191 | After `k` batches, `k * bs` rows were produced. |
| Harness.RowsUpToAt | sanity_v3.py:155-191 | Row `b*bs + i` comes from row `i` of batch `b`. |
| Harness.RowIdsAndCells | sanity_v3.py:170-179 | The row for index `i` of batch `b` has id `b*bs + i + 1` and that input row's cells. |
| Harness.FileCap | sanity_v3.py:184 | The file size is `rows_per_file`, at least one. |
| Harness.AddRow | sanity_v3.py:181-191 | Adding a row keeps every closed file full and the buffer below the file size. |
| Harness.WriteBatch | sanity_v3.py:181-191 | A batch's rows are appended after those already written. |
| Harness.CloseLastFile | sanity_v3.py:209-212 | The remainder goes into one final file, and the files chunk all rows. |
| Harness.SendV3 | sanity_v3.py:113-137 | A batch succeeds exactly on HTTP 200 with a decoded body, and then carries the de-batched transactions; otherwise it carries none. |
| Harness.RunBatchV3 | sanity_v3.py:155-191 | One loop step appends exactly that batch's rows. |
| Harness.RunBatchesV3 | sanity_v3.py:155-194 | All batches are written in order and the batch numbers are 1..n. |
| Harness.BatchNumbers | sanity.py:218 | The numbers `1, 2, ..., n`: exactly `n` of them, position `q` holding `q + 1`. |
| Harness.RunTestV3 | sanity_v3.py:139-232 | The files are full `rows_per_file` chunks of every batch's rows in order, batch numbers 1..n, and the run raises exactly when there is no batch. |
| Harness.WrittenOutputsReadBack | sanity_v3.py:170-179 | Reading a written outputs cell back gives the result's mapping, or `{}` where there was none. |
| Harness.SendSlim | sanity.py:99-126 | Success exactly on HTTP 200 with a decoded body, then status 200 and the de-batched transactions without empty slices; status 0 after an exception (including a body that does not decode); otherwise the reply's own status and no transactions. |
| Harness.Entities | sanity.py:179-183 | The sum of the first output's data length over the results, 0 for a result without outputs. |
| Harness.BatchEntitiesBound | sanity.py:179-183 | A batch holds at most `shape[0] * shape[1]` entities. |
| Harness.CountTrueAppend | sanity.py:205 | Successes add up over appended flag lists. |
| Harness.SummaryOf | sanity.py:205-232 | The summary has `num_batches` entries, the count of successes, and failed batches as `num_batches` minus successes. |
| Harness.SummaryBatchNumbers | sanity.py:218 | Batch `b` of the summary is numbered `b + 1`. |
| Harness.APITester.constructor | sanity.py:15-27 | A new tester has its name and batch size, and empty lists, so its per-batch lists start aligned (`Valid`). |
| Harness.APITester.AppendRows | sanity.py:162-171 | `all_results` grows by the batch's rows and nothing else changes. |
| Harness.APITester.RunBatch | sanity.py:148-191 | One batch appends its rows, status code, success flag and entity count, keeping the per-batch lists aligned. |
| Harness.APITester.RunBatches | sanity.py:148-191 | All batches append their columns in order, keeping the per-batch lists aligned. |
| Harness.APITester.RunTest | sanity.py:128-262 | The lists grow by this run's columns; the file is all results so far, and is absent exactly when the batch size is 0 (the division at line 136 raises first); the summary is absent exactly when the batch size is 0 or no batch ever ran. |
| Harness.FreshTesterFailedCount | sanity.py:205-232 | For a single run, failed batches are non-negative and successes plus failures is the number of batches. |
| Harness.SecondRunMixesCounts | sanity.py:205-232 | On a second run the success count includes the first run's flags, so failed batches can be -1. |
| TimeParse.Upper | Gem.py:194-195 | ASCII upper-casing of the label. |
| TimeParse.RunEnd | Gem.py:180-191 | The end of the digit run starting at `i`. |
| TimeParse.FirstNumberIff | Gem.py:183-188 | A first number exists exactly when some digit does. |
| TimeParse.Meridiem | Gem.py:194-203 | The hour after AM/PM and mod 24 is below 24, and unchanged for a plain 24-hour hour. |
| TimeParse.ParseTimeLabel | Gem.py:173-205 | A parsed time has hour below 24 and minute below 60; a minute of 60 or more is an error. |
| TimeParse.UnparsedIffNoDigit | Gem.py:180-188 | A label is unparsed exactly when it has no digit. |
| TimeParse.Decimal | Gem.py:180-191 | The decimal text of a number reads back as that number. |
| TimeParse.ClockMatchOf | Gem.py:180-191 | `H:MM` at the start of a label is read as `(H, MM)`. |
| TimeParse.ParseClockLabel | Gem.py:180-205 | `"H:MM AM/PM"` parses to the 24-hour clock of H and MM. |
| TimeParse.ParseClock24 | Gem.py:180-205 | `"HH:MM"` with a valid hour parses to itself. |
| TimeParse.ParseHourLabel | Gem.py:183-205 | `"H AM/PM"` parses to the 24-hour hour with minute 0. |
| TimeParse.MeridiemOf | V3.py:193-203 | The AM/PM suffix is recognised and maps a 12-hour hour as `To24`. |
| GemAxis.PositionLeOrder | Gem.py:227-229 | The `(position, label)` order of `sort()` is a total order. |
| GemAxis.Zip | Gem.py:227 | `zip` pairs positions and labels up to the shorter list. |
| GemAxis.SortedPairsInPositionOrder | Gem.py:227-231 | The sorted labels are the labels in non-decreasing position order. |
| GemAxis.ParsedPrefix | Gem.py:236-240 | Parsing keeps at most one time per label. |
| GemAxis.ParsedPrefixFails | Gem.py:236-240 | Parsing fails exactly when some label has a minute above 59, and then names the first such label. |
| GemAxis.ParsedPrefixValid | Gem.py:236-240 | Every parsed time is a valid clock. |
| GemAxis.ParseLabels | Gem.py:236-240 | The parse loop returns exactly `ParsedPrefix`. |
| GemAxis.Crossings | Gem.py:254-266 | The day offset at label `i` is at most `i`. |
| GemAxis.AdjustTimes | Gem.py:254-268 | The offset loop returns exactly `Adjusted`. |
| GemAxis.HourIndexMonotone | Gem.py:254-266 | The day offset never decreases and the hour count never goes back. |
| GemAxis.AdjustedHour | Gem.py:254-266 | The adjusted minutes agree with the hour count down to the hour. |
| GemAxis.CreateTimeArray | Gem.py:210-299 | The range `create_time_array` interpolates over is `GemRange`. |
| GemAxis.GemRangeOrder | Gem.py:273-287 | The range starts on the base day, never ends where it starts and never ends at an earlier hour. |
| GemAxis.ZeroDurationSpansOneDay | Gem.py:283-287 | Equal first and last adjusted times give a range of exactly one day. |
| V3Axis.NumberPrefix | V3.py:82-84 | The longest prefix of number characters. |
| V3Axis.IsDayLabelIff | V3.py:68 | `IsDayLabel` holds exactly when some position starts a digit, a space, optional spaces and a weekday abbreviation in any case. |
| V3Axis.IsTimeLabelIff | V3.py:73-74 | `IsTimeLabel` holds exactly when some position starts a digit followed by optional spaces and AM/PM in any case, or a digit, a colon and a digit. |
| V3Axis.IsMemoryLabelIff | V3.py:80 | `IsMemoryLabel` holds exactly when one of the units MB, GB or B ends the text in any case, or ends it just before a final newline. |
| V3Axis.DayLabelExamples | V3.py:68-69 | "11 FRI" is a day label; "8 PM" and "1:00 AM" are not. |
| V3Axis.TimeLabelExamples | V3.py:73-74 | "8 PM", "1:00 AM" and "13:45" are time labels; "286.10MB" is not. |
| V3Axis.MemoryLabelExamples | V3.py:80-81 | "286.10MB" and "0B" are memory labels; "8 PM" is not. |
| V3Axis.NumberPrefixOfLabel | V3.py:82-84 | A run of digits and dots followed by a unit that does not start with one (or by nothing) is reduced to exactly that run, so "286.10MB" gives "286.10". |
| V3Axis.ExtractAxisInfo | V3.py:38-89 | The element loop returns exactly `Collected`, stopping at the first position `float()` rejects. |
| V3Axis.CollectedErrStays | V3.py:73-87 | Once a position fails to convert, the result stays that failure. |
| V3Axis.CollectedWellFormed | V3.py:73-87 | Labels and positions always have equal length on each axis. |
| V3Axis.DayLabelsSkipped | V3.py:68-69 | A day label changes nothing. |
| V3Axis.Trunc | V3.py:228 | `int()` truncates toward zero. |
| V3Axis.SortedItems | V3.py:232 | `sorted(items())`: every key once, strictly ascending, each with its value. |
| V3Axis.SortedItemsComplete | V3.py:232 | Every key of the map appears among the sorted items. |
| V3Axis.UniqueByPosition | V3.py:226-232 | The de-duplication loop returns the sorted items of `LastByPosition`. |
| V3Axis.LastByPositionKeys | V3.py:226-229 | A key is present exactly when some label's truncated position is that key. |
| V3Axis.LastByPositionLastWins | V3.py:226-229 | Each key holds the label of the last element at that position. |
| V3Axis.CreateTimeArray | V3.py:207-279 | The range `create_time_array` interpolates over is `V3Range`. |
| V3Axis.RangeBetween | V3.py:246-264 | The endpoint parse: a minute over 59 in the first, then the last, label is an error, an unparsable label gives the default range, and otherwise the end at or before the start is moved one day (1440 minutes) on, as `EndpointRange` says. |
| V3Axis.V3RangeForward | V3.py:262-264 | The range starts on the base day and ends after it, at most one day later. |
| V3Axis.TwoPointItems | V3.py:226-232 | Two labels at distinct whole positions stay as they are, in position order. |
| V3Axis.V3RangeUsesEndpoints | V3.py:246-250 | Only the first and last unique labels matter: with two or more unique labels, the range is `EndpointRange` of the first and the last in position order. |
| V3Axis.V3RangeOfTwo | V3.py:226-250 | An axis of just two labels at distinct whole positions ranges from the left label to the right one. |
| V3Axis.CreateMemoryLabels | V3.py:287-300 | The label half of `create_memory_array` is `MemoryLabels`. |
| V3Axis.MemoryLabelsInPositionOrder | V3.py:287-292 | Memory labels are axis labels, each last at its position, in strictly increasing position. |

## Left out

- Reading and writing files (CSV through pandas, glob, summary and JSON files) is not modelled. Files are sequences of records, and `read` is a parameter.
- `json.loads`, `json.dumps`, `float()` and float `repr()` are parameters, so their own behaviour is not modelled.
- The `ProcessPoolExecutor` is not modelled. The completion order of the workers is a parameter.
- HTTP calls (`send_batch_request`), timings and `time.sleep` are not modelled. The reply to each batch is a parameter function. The `input()` prompts and the memory checks of `main` are not modelled either.
- Percentages and average batch times are floating point and are left out. This includes the unguarded division by `len(combined_df)` and the `ZeroDivisionError` when no batch ran. That error is modelled in two places: as `raised` in `RunTestV3` (sanity_v3.py:215), and as an absent summary in `APITester.RunTest` (sanity.py:206, where `len(self.success_flags)` is 0).
- Reports.ReasonList: states counts and bounds only. The order among reasons with equal counts is the one `value_counts` happens to give, which pandas does not specify.
- Reports.TopReasons: puts reasons with equal counts in first-seen order. pandas does not promise this order, so it is a choice of the model.
- Harness.NumBatches: a negative batch size is taken as no batch. Python's floor division gives a negative `num_batches` there, so no batch runs either, but sanity.py:215 and 232 would then report a negative `total_batches` and `failed_batches`.
- Tensor.Debatch: shapes hold integers; a non-integer or missing shape entry, which would raise in Python, is not modelled.
- Printing is left out: `print_sample_outputs` and `main` of the testers and comparators.
- The HTML and SVG scraping is not modelled: BeautifulSoup, `parse_svg_path_data`, `find_memory_usage_path`, `extract_viewbox_dimensions`, and the `strip()` and `tspan` text extraction. An axis is a sequence of text elements.
- The `extract_axis_info` of `miscellaneous.py` and of `Gem.py` is not modelled.
- Regular expressions, `\d`, `\s`, `upper()` and `IGNORECASE` are modelled on ASCII only.
- JsonValue.StrRepr: escapes only the backslash, the quote, and the characters below 32 and 127 (`\t`, `\n`, `\r` and `\xNN`). Python's `repr()` also escapes non-printable non-ASCII characters (`repr('\xa0')` is `'\xa0'`), which the model keeps as they are, in diff comments and in the `str()` test of `compare_json_arrays`.
- GemAxis.CreateTimeArray: returns the start and end minutes of the range, not the interpolated `datetime` array. The interpolation over x coordinates, the identical-x case and `datetime.now()` are left out.
- V3Axis.CreateTimeArray: returns the start and end minutes of the range, not the interpolated `datetime` array.
- V3Axis.CreateMemoryLabels: covers only the label de-duplication of `create_memory_array`. The float parsing of the labels and the pixel-to-megabyte scaling are left out, as is `map_coordinates_to_values`.
- Positions are real numbers. NaN and infinite positions are not modelled.
- Alignment.Items: a dict is iterated over its keys in ascending order, not in the insertion order Python keeps, because a dict is a map and carries no key order.
- Alignment.CompareJsonArraysIff: `str()` of a dict item lists its keys in ascending order, so items that differ only in key order agree. Python keeps insertion order, so `[{"b":1,"a":2}]` against `[{"a":2,"b":1}]` is a DATA_MISMATCH there and a MATCH in the model.
- DifferProps.VerdictNeverStructureMismatch: floats are exact reals, so there is no `-0.0`. In Python `-0.0 == 0.0` while their `dumps` texts differ, so the dict lists of `{"l":[{"a":0.0},{"a":-0.0,"b":1}]}` and `{"l":[{"a":-0.0},{"a":0.0,"b":1}]}` sort into different orders, `find_diff` then finds nothing, and the verdict is "Structure mismatch".
- DifferProps.VerdictSelf, Rows.SelfComparisonAllMatch, Batched.SelfComparisonAllMatch: `json.loads` accepts `NaN`, and `NaN != NaN` in Python, so an output holding NaN does not match itself there. The model has no NaN.
- Reconcile.CompareAllParts: its report ends with the corrected closing line (see Findings). As written, lines 343-346 print "PERFECT MATCH" for a table whose only non-matching rows are DATA_MISMATCH.
- The plotting, animation and measurement scripts are not part of this model.

## Findings

| source | as written | input that shows it | evidently intended | confidence | as-written member | corrected member |
|---|---|---|---|---|---|---|
| Compare_output_holo_combined.py:343-346 | The closing line of `compare_all_parts` tests only `total_mismatches`; compare_output.py:320-323 does the same. | Parts whose only non-matching row is DATA_MISMATCH print "PERFECT MATCH" while also reporting a data alignment issue. | Count data mismatches as issues too, as `compare_batched_outputs` does at lines 655-658. | not executed | Reports.ClosingAsWritten, Reports.ClosingAsWrittenMissesDataMismatch | Reports.Closing, Reports.ClosingAllClearIff |

The merged reports (`Reconcile.BuildReport`, `BatchedReport.SummarySpec`) use the corrected closing line.
