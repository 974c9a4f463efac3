/**
  `compare_all_parts`: the per-part output files of the two runs are paired
  by position in sorted order, each pair is compared by a worker, the results
  are collected in a map keyed by part number and concatenated in ascending
  part order, and the statistics are summed over the collected parts.
 */
module Reconcile {
  import opened Wrappers
  import opened Order
  import opened JsonValue
  import opened Alignment
  import opened Rows
  import opened Reports

  /** `(api1_file, api2_file, part_num)`. */
  datatype FilePair = FilePair(api1: string, api2: string, part: nat)

  function NameOrder(): (string, string) -> bool {
    (a: string, b: string) => StrLe(a, b)
  }

  lemma NameOrderTotal()
    ensures TotalPreorder(NameOrder())
  {
    var le := NameOrder();
    forall a, b ensures le(a, b) || le(b, a) { StrLeTotal(a, b); }
    forall a, b, c | le(a, b) && le(b, c) ensures le(a, c) { StrLeTrans(a, b, c); }
  }

  /** `sorted(glob(...))`: the file names in ascending order. */
  function SortedNames(files: seq<string>): (r: seq<string>)
    ensures multiset(r) == multiset(files) && |r| == |files|
    ensures SortedBy(r, NameOrder())
  {
    NameOrderTotal();
    SortBySorted(files, NameOrder());
    SortBy(files, NameOrder())
  }

  function MinLen(a: nat, b: nat): (r: nat)
    ensures r <= a && r <= b && (r == a || r == b)
  {
    if a <= b then a else b
  }

  /** Pair `i` (from 0) carries part number `i + 1`. */
  predicate NumberedPairs(pairs: seq<FilePair>) {
    forall i :: 0 <= i < |pairs| ==> pairs[i].part == i + 1
  }

  /** `file_pairs`: the sorted lists zipped up to the shorter one, numbered from 1. */
  function PairFiles(files1: seq<string>, files2: seq<string>): (pairs: seq<FilePair>)
    ensures |pairs| == MinLen(|files1|, |files2|)
    ensures NumberedPairs(pairs)
  {
    var s1 := SortedNames(files1);
    var s2 := SortedNames(files2);
    var n := MinLen(|files1|, |files2|);
    seq(n, i requires 0 <= i < n => FilePair(s1[i], s2[i], i + 1))
  }

  /**
    Each side of the pairing runs through its own files in ascending name
    order, and every paired name is one of that side's files.
   */
  lemma PairFilesSorted(files1: seq<string>, files2: seq<string>)
    ensures var pairs := PairFiles(files1, files2);
            forall i, j :: 0 <= i < j < |pairs| ==>
              StrLe(pairs[i].api1, pairs[j].api1) && StrLe(pairs[i].api2, pairs[j].api2)
    ensures var pairs := PairFiles(files1, files2);
            forall i :: 0 <= i < |pairs| ==> pairs[i].api1 in files1 && pairs[i].api2 in files2
  {
    var s1 := SortedNames(files1);
    var s2 := SortedNames(files2);
    var pairs := PairFiles(files1, files2);
    forall i | 0 <= i < |pairs| ensures pairs[i].api1 in files1 && pairs[i].api2 in files2 {
      assert pairs[i].api1 == s1[i] && s1[i] in multiset(s1);
      assert pairs[i].api2 == s2[i] && s2[i] in multiset(s2);
    }
  }

  /** Different numbers of files on the two sides: the surplus files of the longer side are not compared. */
  lemma PairFilesDropsSurplus(files1: seq<string>, files2: seq<string>)
    requires |files1| > |files2|
    ensures |PairFiles(files1, files2)| == |files2| < |files1|
  {
  }

  // ---------------------------------------------------------------------
  // Workers
  // ---------------------------------------------------------------------

  /**
    What one worker (`compare_csv_files` on a pair) yields; `read` is the CSV
    reader, `None` for a file it cannot read.
   */
  function WorkerSpec(codec: Codec, read: string -> Option<seq<TxnRow>>, pair: FilePair): Result<PartResult, PartFailure> {
    var a := read(pair.api1);
    var b := read(pair.api2);
    if a.None? || b.None? then Err(Unreadable) else PartSpec(codec, a.value, b.value)
  }

  method RunWorker(codec: Codec, read: string -> Option<seq<TxnRow>>, pair: FilePair) returns (r: Result<PartResult, PartFailure>)
    ensures r == WorkerSpec(codec, read, pair)
  {
    var a := read(pair.api1);
    var b := read(pair.api2);
    if a.None? || b.None? {
      return Err(Unreadable);
    }
    r := CompareCsvFiles(codec, a.value, b.value);
  }

  /** A worker, as the executor sees it: a pair in, the part's result or the exception out. */
  type Work = FilePair -> Result<PartResult, PartFailure>

  /** `compare_csv_files` on CSV files that `read` reads. */
  function Worker(codec: Codec, read: string -> Option<seq<TxnRow>>): (work: Work)
    ensures forall pair :: work(pair) == WorkerSpec(codec, read, pair)
  {
    pair => WorkerSpec(codec, read, pair)
  }

  /** The worker's outcome for part number `p` (pair `p - 1`). */
  function PartOutcome(work: Work, pairs: seq<FilePair>, p: nat): Result<PartResult, PartFailure>
    requires 1 <= p <= |pairs|
  {
    work(pairs[p - 1])
  }

  /** The parts whose worker returned, keyed by part number. */
  function SucceededParts(work: Work, pairs: seq<FilePair>): (parts: map<nat, PartResult>)
    ensures forall p :: p in parts <==> 1 <= p <= |pairs| && PartOutcome(work, pairs, p).Ok?
    ensures forall p :: p in parts ==> parts[p] == PartOutcome(work, pairs, p).value
  {
    map p: nat | 1 <= p <= |pairs| && PartOutcome(work, pairs, p).Ok? :: PartOutcome(work, pairs, p).value
  }

  /** `as_completed` hands back every submitted part number. */
  ghost predicate CoversParts(completion: seq<nat>, n: nat) {
    forall p :: p in completion <==> 1 <= p <= n
  }

  /**
    The parallel branch: results are stored as workers finish, in the order
    `completion`; a worker that raises is reported and skipped. The map it
    builds does not depend on that order.
   */
  method CollectParallel(work: Work, pairs: seq<FilePair>, completion: seq<nat>)
    returns (parts: map<nat, PartResult>)
    requires NumberedPairs(pairs)
    requires CoversParts(completion, |pairs|)
    ensures parts == SucceededParts(work, pairs)
  {
    parts := map[];
    var k := 0;
    while k < |completion|
      invariant 0 <= k <= |completion|
      invariant forall p :: p in parts <==>
        p in completion[..k] && 1 <= p <= |pairs| && PartOutcome(work, pairs, p).Ok?
      invariant forall p :: p in parts ==>
        1 <= p <= |pairs| && parts[p] == PartOutcome(work, pairs, p).value
    {
      var p := completion[k];
      assert p in completion;
      var outcome := work(pairs[p - 1]);
      if outcome.Ok? {
        parts := parts[pairs[p - 1].part := outcome.value];
      }
      assert completion[..k + 1] == completion[..k] + [p];
      k := k + 1;
    }
    assert completion[..k] == completion;
    assert parts.Keys == SucceededParts(work, pairs).Keys;
  }

  /** The first pair from index `from` on whose worker raises. */
  function FirstFailure(work: Work, pairs: seq<FilePair>, from: nat): (r: Option<nat>)
    requires from <= |pairs|
    ensures r.None? <==> forall i :: from <= i < |pairs| ==> work(pairs[i]).Ok?
    ensures r.Some? ==> from <= r.value < |pairs| && work(pairs[r.value]).Err?
    ensures r.Some? ==> forall i :: from <= i < r.value ==> work(pairs[i]).Ok?
    decreases |pairs| - from
  {
    if from == |pairs| then None
    else if work(pairs[from]).Err? then Some(from)
    else FirstFailure(work, pairs, from + 1)
  }

  /** Why `compare_all_parts` produced no report. */
  datatype ReportFailure =
    | NoApi1Files                                   // "No CSV files found in api_1 folder!"
    | NoApi2Files                                   // "No CSV files found in api_2 folder!"
    | WorkerRaised(part: nat, failure: PartFailure) // sequential branch: the exception propagates
    | NothingToConcatenate                          // every worker raised: `pd.concat([])` raises

  /** The sequential branch: the first worker that raises ends the whole run. */
  function SequentialSpec(work: Work, pairs: seq<FilePair>): Result<map<nat, PartResult>, ReportFailure> {
    match FirstFailure(work, pairs, 0)
    case Some(i) => Err(WorkerRaised(i + 1, work(pairs[i]).error))
    case None => Ok(SucceededParts(work, pairs))
  }

  method CollectSequential(work: Work, pairs: seq<FilePair>)
    returns (r: Result<map<nat, PartResult>, ReportFailure>)
    requires NumberedPairs(pairs)
    ensures r == SequentialSpec(work, pairs)
  {
    var parts: map<nat, PartResult> := map[];
    var k := 0;
    while k < |pairs|
      invariant 0 <= k <= |pairs|
      invariant FirstFailure(work, pairs, 0) == FirstFailure(work, pairs, k)
      invariant forall p :: p in parts <==> 1 <= p <= k
      invariant forall p :: 1 <= p <= k ==> PartOutcome(work, pairs, p).Ok?
      invariant forall p :: p in parts ==> parts[p] == PartOutcome(work, pairs, p).value
    {
      var outcome := work(pairs[k]);
      if outcome.Err? {
        return Err(WorkerRaised(pairs[k].part, outcome.error));
      }
      parts := parts[pairs[k].part := outcome.value];
      k := k + 1;
    }
    assert FirstFailure(work, pairs, 0).None?;
    var all := SucceededParts(work, pairs);
    assert parts.Keys == all.Keys;
    assert forall p :: p in parts ==> parts[p] == all[p];
    assert parts == all;
    return Ok(parts);
  }

  // ---------------------------------------------------------------------
  // Merging
  // ---------------------------------------------------------------------

  /** `sorted(all_comparisons.keys())` for part numbers between 1 and `n`. */
  function PartsUpTo(parts: map<nat, PartResult>, n: nat): (ks: seq<nat>)
    ensures forall k :: k in ks <==> 1 <= k <= n && k in parts
    ensures forall i, j :: 0 <= i < j < |ks| ==> ks[i] < ks[j]
    ensures forall i :: 0 <= i < |ks| ==> 1 <= ks[i] <= n
    decreases n
  {
    if n == 0 then []
    else
      var ks := PartsUpTo(parts, n - 1);
      if n in parts then ks + [n] else ks
  }

  /** `pd.concat` of the tables of the parts `ks`, in that order. */
  function ConcatTables(parts: map<nat, PartResult>, ks: seq<nat>): seq<ComparisonRow>
    requires forall k :: k in ks ==> k in parts
    decreases |ks|
  {
    if ks == [] then []
    else ConcatTables(parts, ks[..|ks| - 1]) + parts[ks[|ks| - 1]].table
  }

  /** The totals summed over the statistics of the parts `ks`. */
  function SumStats(parts: map<nat, PartResult>, ks: seq<nat>): Stats
    requires forall k :: k in ks ==> k in parts
    decreases |ks|
  {
    if ks == [] then Stats(0, 0, 0)
    else
      var s := SumStats(parts, ks[..|ks| - 1]);
      var t := parts[ks[|ks| - 1]].stats;
      Stats(s.matches + t.matches, s.mismatches + t.mismatches, s.dataMismatches + t.dataMismatches)
  }

  /** A part as its worker returns it: a non-empty table and the counts of its statuses. */
  predicate PartConsistent(pr: PartResult) {
    pr.stats == StatsOf(Statuses(pr.table)) && |pr.table| > 0
  }

  lemma StatusesAppend(a: seq<ComparisonRow>, b: seq<ComparisonRow>)
    ensures Statuses(a + b) == Statuses(a) + Statuses(b)
  {
  }

  /**
    The summed statistics are the counts of the concatenated table: the
    totals count each row of the combined table exactly once.
   */
  lemma {:induction false} SumStatsCountsTable(parts: map<nat, PartResult>, ks: seq<nat>)
    requires forall k :: k in ks ==> k in parts && PartConsistent(parts[k])
    ensures SumStats(parts, ks) == StatsOf(Statuses(ConcatTables(parts, ks)))
    ensures ks != [] ==> |ConcatTables(parts, ks)| > 0
    decreases |ks|
  {
    if ks != [] {
      var init := ks[..|ks| - 1];
      assert forall k :: k in init ==> k in ks;
      SumStatsCountsTable(parts, init);
      var a := ConcatTables(parts, init);
      var b := parts[ks[|ks| - 1]].table;
      StatusesAppend(a, b);
      CountStatusAppend(Statuses(a), Statuses(b), Match);
      CountStatusAppend(Statuses(a), Statuses(b), Mismatch);
      CountStatusAppend(Statuses(a), Statuses(b), DataMismatch);
    }
  }

  /** The combined report. */
  datatype Report = Report(
    table: seq<ComparisonRow>,
    totals: Stats,
    mismatchOnly: Option<seq<ComparisonRow>>,
    topReasons: seq<(string, nat)>,
    closing: ClosingLine)

  function Comments(table: seq<ComparisonRow>): (cs: seq<string>)
    ensures |cs| == |table|
    ensures forall i :: 0 <= i < |table| ==> cs[i] == table[i].comment
  {
    seq(|table|, i requires 0 <= i < |table| => table[i].comment)
  }

  /** Everything after the workers: merge, totals, mismatch-only rows, reasons and closing line. */
  function BuildReport(parts: map<nat, PartResult>, n: nat): Result<Report, ReportFailure>
    requires forall p :: p in parts ==> 1 <= p <= n
  {
    var ks := PartsUpTo(parts, n);
    if ks == [] then Err(NothingToConcatenate)
    else
      var table := ConcatTables(parts, ks);
      var totals := SumStats(parts, ks);
      Ok(Report(table, totals, MismatchOnly(table, Statuses(table)),
                ReasonList(Comments(table), Statuses(table)), Closing(totals)))
  }

  /** `compare_all_parts` over the two folders' file lists. */
  function AllPartsSpec(codec: Codec, read: string -> Option<seq<TxnRow>>, files1: seq<string>, files2: seq<string>,
                        parallel: bool): Result<Report, ReportFailure>
  {
    if files1 == [] then Err(NoApi1Files)
    else if files2 == [] then Err(NoApi2Files)
    else
      var pairs := PairFiles(files1, files2);
      var work := Worker(codec, read);
      var collected := if parallel then Ok(SucceededParts(work, pairs)) else SequentialSpec(work, pairs);
      if collected.Err? then Err(collected.error) else BuildReport(collected.value, |pairs|)
  }

  /**
    `compare_all_parts`. In the parallel branch, `completion` is the order in
    which the workers finish.
   */
  method CompareAllParts(codec: Codec, read: string -> Option<seq<TxnRow>>, files1: seq<string>, files2: seq<string>,
                         parallel: bool, completion: seq<nat>)
    returns (r: Result<Report, ReportFailure>)
    requires parallel ==> CoversParts(completion, MinLen(|files1|, |files2|))
    ensures r == AllPartsSpec(codec, read, files1, files2, parallel)
  {
    if files1 == [] {
      return Err(NoApi1Files);
    }
    if files2 == [] {
      return Err(NoApi2Files);
    }
    var pairs := PairFiles(files1, files2);
    var work := Worker(codec, read);
    var parts;
    if parallel {
      parts := CollectParallel(work, pairs, completion);
    } else {
      var collected := CollectSequential(work, pairs);
      if collected.Err? {
        return Err(collected.error);
      }
      parts := collected.value;
    }
    r := BuildReport(parts, |pairs|);
  }

  // ---------------------------------------------------------------------
  // Properties of the merge
  // ---------------------------------------------------------------------

  /** Every part a worker returned is as `compare_csv_files` builds it. */
  lemma SucceededPartsConsistent(codec: Codec, read: string -> Option<seq<TxnRow>>, pairs: seq<FilePair>, p: nat)
    requires p in SucceededParts(Worker(codec, read), pairs)
    ensures PartConsistent(SucceededParts(Worker(codec, read), pairs)[p])
  {
    var outcome := PartOutcome(Worker(codec, read), pairs, p);
    assert outcome == WorkerSpec(codec, read, pairs[p - 1]);
  }

  /**
    The totals of a report are the status counts of its combined table, and
    that table is never empty, so the percentages never divide by zero.
   */
  lemma ReportTotalsCountTable(codec: Codec, read: string -> Option<seq<TxnRow>>, files1: seq<string>,
                               files2: seq<string>, parallel: bool)
    requires AllPartsSpec(codec, read, files1, files2, parallel).Ok?
    ensures var rep := AllPartsSpec(codec, read, files1, files2, parallel).value;
            rep.totals == StatsOf(Statuses(rep.table)) && |rep.table| > 0
            && rep.totals.matches + rep.totals.mismatches + rep.totals.dataMismatches == |rep.table|
  {
    var pairs := PairFiles(files1, files2);
    var parts := SucceededParts(Worker(codec, read), pairs);
    assert AllPartsSpec(codec, read, files1, files2, parallel) == BuildReport(parts, |pairs|);
    var ks := PartsUpTo(parts, |pairs|);
    forall k | k in ks ensures k in parts && PartConsistent(parts[k]) {
      SucceededPartsConsistent(codec, read, pairs, k);
    }
    SumStatsCountsTable(parts, ks);
  }

  /**
    A part whose worker raised contributes neither rows nor counts in the
    parallel branch: it is not among the merged part numbers.
   */
  lemma FailedPartAbsent(work: Work, pairs: seq<FilePair>, i: nat)
    requires i < |pairs| && work(pairs[i]).Err?
    ensures i + 1 !in SucceededParts(work, pairs)
    ensures i + 1 !in PartsUpTo(SucceededParts(work, pairs), |pairs|)
  {
    assert PartOutcome(work, pairs, i + 1) == work(pairs[i]);
  }

  /**
    When no worker raises, the sequential branch collects what the parallel
    branch does; otherwise it collects nothing.
   */
  lemma SequentialAgreesWithParallel(work: Work, pairs: seq<FilePair>)
    ensures (forall i :: 0 <= i < |pairs| ==> work(pairs[i]).Ok?)
        <==> SequentialSpec(work, pairs) == Ok(SucceededParts(work, pairs))
  {
  }

  /** Hence with no raising worker both branches give the same report, rows in the same order. */
  lemma ParallelAgreesWithSequential(codec: Codec, read: string -> Option<seq<TxnRow>>, files1: seq<string>,
                                     files2: seq<string>)
    requires forall i :: 0 <= i < MinLen(|files1|, |files2|) ==>
      WorkerSpec(codec, read, PairFiles(files1, files2)[i]).Ok?
    ensures AllPartsSpec(codec, read, files1, files2, true) == AllPartsSpec(codec, read, files1, files2, false)
  {
    var pairs := PairFiles(files1, files2);
    var work := Worker(codec, read);
    assert forall i :: 0 <= i < |pairs| ==> work(pairs[i]).Ok?;
    SequentialAgreesWithParallel(work, pairs);
  }

  /** In the sequential branch a raising worker ends the run with no report, at that part or an earlier one. */
  lemma SequentialFailsOnAnyFailure(work: Work, pairs: seq<FilePair>, i: nat)
    requires i < |pairs| && work(pairs[i]).Err?
    ensures SequentialSpec(work, pairs).Err?
    ensures SequentialSpec(work, pairs).error.WorkerRaised?
    ensures SequentialSpec(work, pairs).error.part <= i + 1
    ensures work(pairs[SequentialSpec(work, pairs).error.part - 1]).Err?
  {
  }

  /** The parallel branch ends with no report exactly when every worker raised. */
  lemma NothingToConcatenateIff(work: Work, pairs: seq<FilePair>)
    ensures BuildReport(SucceededParts(work, pairs), |pairs|) == Err(NothingToConcatenate)
        <==> forall i :: 0 <= i < |pairs| ==> work(pairs[i]).Err?
  {
    var parts := SucceededParts(work, pairs);
    var ks := PartsUpTo(parts, |pairs|);
    if ks == [] {
      forall i | 0 <= i < |pairs| ensures work(pairs[i]).Err? {
        assert i + 1 !in ks;
        assert PartOutcome(work, pairs, i + 1) == work(pairs[i]);
      }
    } else {
      assert ks[0] in parts;
      assert PartOutcome(work, pairs, ks[0]) == work(pairs[ks[0] - 1]);
    }
  }

  /** The combined table lists the merged parts' rows part after part, in ascending part number. */
  lemma CombinedTableOrder(parts: map<nat, PartResult>, n: nat, i: nat)
    requires forall p :: p in parts ==> 1 <= p <= n
    requires i + 1 < |PartsUpTo(parts, n)|
    ensures var ks := PartsUpTo(parts, n);
            ConcatTables(parts, ks[..i + 2]) == ConcatTables(parts, ks[..i + 1]) + parts[ks[i + 1]].table
            && ks[i] < ks[i + 1]
  {
    var ks := PartsUpTo(parts, n);
    assert ks[..i + 2][..i + 1] == ks[..i + 1];
  }
}
