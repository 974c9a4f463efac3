/**
  What the summary reports select from a comparison table: the mismatch-only
  rows, the "Top 20 Mismatch Reasons" list (`value_counts().head(20)` of the
  MISMATCH comments, each cut to 200 characters) and the closing line.
 */
module Reports {
  import opened Order
  import opened Rows
  import opened Wrappers
  import opened Seqs

  // ---------------------------------------------------------------------
  // Selecting rows by status
  // ---------------------------------------------------------------------

  /** The indices, ascending, of the entries of a status column that lie in `wanted`. */
  function IndicesOf(ss: seq<Status>, wanted: set<Status>): (r: seq<nat>)
    ensures forall i :: i in r <==> 0 <= i < |ss| && ss[i] in wanted
    ensures forall a, b :: 0 <= a < b < |r| ==> r[a] < r[b]
    ensures forall a :: 0 <= a < |r| ==> r[a] < |ss|
    decreases |ss|
  {
    if ss == [] then []
    else
      var init := IndicesOf(ss[..|ss| - 1], wanted);
      if ss[|ss| - 1] in wanted then init + [|ss| - 1] else init
  }

  /** Exactly one index is selected per MISMATCH or DATA_MISMATCH entry. */
  lemma {:induction false} IssueCount(ss: seq<Status>)
    ensures |IndicesOf(ss, {Mismatch, DataMismatch})| == CountStatus(ss, Mismatch) + CountStatus(ss, DataMismatch)
    decreases |ss|
  {
    if ss != [] {
      IssueCount(ss[..|ss| - 1]);
    }
  }

  /** Exactly one index is selected per MISMATCH entry. */
  lemma {:induction false} MismatchCount(ss: seq<Status>)
    ensures |IndicesOf(ss, {Mismatch})| == CountStatus(ss, Mismatch)
    decreases |ss|
  {
    if ss != [] {
      MismatchCount(ss[..|ss| - 1]);
    }
  }

  /** The entries of `s` at the indices `idx`, in that order. */
  function Select<T>(s: seq<T>, idx: seq<nat>): (r: seq<T>)
    requires forall a :: 0 <= a < |idx| ==> idx[a] < |s|
    ensures |r| == |idx|
    ensures forall a :: 0 <= a < |idx| ==> r[a] == s[idx[a]]
  {
    seq(|idx|, a requires 0 <= a < |idx| => s[idx[a]])
  }

  /**
    The mismatch-only file: the rows whose status is MISMATCH or
    DATA_MISMATCH, in table order, or nothing when there is no such row
    (the file is then not written).
   */
  function MismatchOnly<T>(table: seq<T>, ss: seq<Status>): (r: Option<seq<T>>)
    requires |ss| == |table|
    ensures r.Some? <==> CountStatus(ss, Mismatch) + CountStatus(ss, DataMismatch) > 0
    ensures r.Some? ==> |r.value| == CountStatus(ss, Mismatch) + CountStatus(ss, DataMismatch)
    ensures r.Some? ==> r.value == Select(table, IndicesOf(ss, {Mismatch, DataMismatch}))
  {
    IssueCount(ss);
    var idx := IndicesOf(ss, {Mismatch, DataMismatch});
    if |idx| > 0 then Some(Select(table, idx)) else None
  }

  /**
    A row is in the mismatch-only file exactly when some row of the table
    with status MISMATCH or DATA_MISMATCH is that row.
   */
  lemma MismatchOnlyRows<T>(table: seq<T>, ss: seq<Status>, x: T)
    requires |ss| == |table|
    ensures (MismatchOnly(table, ss).Some? && x in MismatchOnly(table, ss).value)
        <==> exists i :: 0 <= i < |table| && ss[i] in {Mismatch, DataMismatch} && table[i] == x
  {
  }

  /** The mismatch-only file keeps the table order: its rows come from strictly increasing table positions. */
  lemma MismatchOnlyInTableOrder<T>(table: seq<T>, ss: seq<Status>)
    requires |ss| == |table|
    requires MismatchOnly(table, ss).Some?
    ensures var idx := IndicesOf(ss, {Mismatch, DataMismatch});
            |idx| == |MismatchOnly(table, ss).value|
            && (forall a, b :: 0 <= a < b < |idx| ==> idx[a] < idx[b])
            && (forall a :: 0 <= a < |idx| ==> idx[a] < |table| && MismatchOnly(table, ss).value[a] == table[idx[a]])
  {
  }

  // ---------------------------------------------------------------------
  // The reason list
  // ---------------------------------------------------------------------

  /** Python's `s[:n]`. */
  function Truncate(s: string, n: nat): (r: string)
    ensures |r| <= n && r <= s
    ensures |s| <= n ==> r == s
    ensures |s| > n ==> |r| == n
  {
    if |s| <= n then s else s[..n]
  }

  /** More frequent comments first. */
  function ByCountDesc(cs: seq<string>): (string, string) -> bool {
    (a: string, b: string) => multiset(cs)[a] >= multiset(cs)[b]
  }

  lemma ByCountDescTotal(cs: seq<string>)
    ensures TotalPreorder(ByCountDesc(cs))
  {
    var le := ByCountDesc(cs);
    forall a, b ensures le(a, b) || le(b, a) {
      assert multiset(cs)[a] >= multiset(cs)[b] || multiset(cs)[b] >= multiset(cs)[a];
    }
    forall a, b, c | le(a, b) && le(b, c) ensures le(a, c) {
      assert multiset(cs)[a] >= multiset(cs)[b] >= multiset(cs)[c];
    }
  }

  /** The different comments, most frequent first; among equal counts, first seen first. */
  function Ranked(cs: seq<string>): (r: seq<string>)
    ensures multiset(r) == multiset(Distinct(cs))
    ensures SortedBy(r, ByCountDesc(cs))
  {
    ByCountDescTotal(cs);
    SortBySorted(Distinct(cs), ByCountDesc(cs));
    SortBy(Distinct(cs), ByCountDesc(cs))
  }

  /**
    The reason list: the `limit` most frequent comments with their counts,
    each comment cut to `width` characters.
   */
  function TopReasons(cs: seq<string>, limit: nat, width: nat): (r: seq<(string, nat)>)
    ensures |Distinct(cs)| <= limit ==> |r| == |Distinct(cs)|
    ensures |Distinct(cs)| > limit ==> |r| == limit
    ensures forall i :: 0 <= i < |r| ==> r[i].1 > 0 && |r[i].0| <= width
    ensures forall i :: 0 <= i < |r| ==> r[i] == (Truncate(Ranked(cs)[i], width), multiset(cs)[Ranked(cs)[i]])
    ensures forall i, j :: 0 <= i < j < |r| ==> r[i].1 >= r[j].1
  {
    var ranked := Ranked(cs);
    RankedCounts(cs);
    var k := if |ranked| < limit then |ranked| else limit;
    seq(k, i requires 0 <= i < k => (Truncate(ranked[i], width), multiset(cs)[ranked[i]]))
  }

  /** Every ranked comment occurs, once each, and the counts never increase along the ranking. */
  lemma RankedCounts(cs: seq<string>)
    ensures |Ranked(cs)| == |Distinct(cs)|
    ensures forall i :: 0 <= i < |Ranked(cs)| ==> multiset(cs)[Ranked(cs)[i]] > 0
    ensures forall i, j :: 0 <= i < j < |Ranked(cs)| ==> multiset(cs)[Ranked(cs)[i]] >= multiset(cs)[Ranked(cs)[j]]
  {
    var ranked := Ranked(cs);
    assert |ranked| == |multiset(ranked)| == |multiset(Distinct(cs))| == |Distinct(cs)|;
    forall i | 0 <= i < |ranked| ensures multiset(cs)[ranked[i]] > 0 {
      assert ranked[i] in multiset(Distinct(cs));
    }
    forall i, j | 0 <= i < j < |ranked| ensures multiset(cs)[ranked[i]] >= multiset(cs)[ranked[j]] {
      assert ByCountDesc(cs)(ranked[i], ranked[j]);
    }
  }

  /** The first reason is a most frequent comment: no comment occurs more often. */
  lemma TopReasonIsMostFrequent(cs: seq<string>, limit: nat, width: nat, c: string)
    requires limit > 0 && c in cs
    ensures |TopReasons(cs, limit, width)| > 0
    ensures multiset(cs)[c] <= TopReasons(cs, limit, width)[0].1
  {
    var ranked := Ranked(cs);
    assert c in Distinct(cs);
    assert c in multiset(ranked);
    ByCountDescTotal(cs);
    SortedHeadLeast(ranked, ByCountDesc(cs));
  }

  /** The comments of the MISMATCH rows, in table order. */
  function MismatchComments(comments: seq<string>, ss: seq<Status>): (r: seq<string>)
    requires |comments| == |ss|
    ensures |r| == CountStatus(ss, Mismatch)
  {
    MismatchCount(ss);
    Select(comments, IndicesOf(ss, {Mismatch}))
  }

  /** The reason list is written only when some row is MISMATCH. */
  function ReasonList(comments: seq<string>, ss: seq<Status>): (r: seq<(string, nat)>)
    requires |comments| == |ss|
    ensures CountStatus(ss, Mismatch) == 0 ==> r == []
    ensures |r| <= 20
    ensures forall i :: 0 <= i < |r| ==> 0 < r[i].1 <= CountStatus(ss, Mismatch) && |r[i].0| <= 200
  {
    var cs := MismatchComments(comments, ss);
    if CountStatus(ss, Mismatch) > 0 then
      var r := TopReasons(cs, 20, 200);
      forall i | 0 <= i < |r| ensures r[i].1 <= |cs| {
        var c := Ranked(cs)[i];
        assert multiset(cs)[c] <= |multiset(cs)|;
      }
      r
    else []
  }

  // ---------------------------------------------------------------------
  // The closing line
  // ---------------------------------------------------------------------

  /** The closing line of a summary: where the issues file was saved, or the all-clear. */
  datatype ClosingLine = ReviewIssues(issues: nat) | PerfectMatch

  /**
    The closing line as `compare_all_parts` writes it: it is chosen on the
    output mismatches alone, so data alignment issues without any output
    mismatch still end with the all-clear.
   */
  function ClosingAsWritten(t: Stats): (c: ClosingLine)
    ensures c == PerfectMatch <==> t.mismatches == 0
  {
    if t.mismatches > 0 then ReviewIssues(t.mismatches + t.dataMismatches) else PerfectMatch
  }

  /**
    The closing line as intended, and as `compare_batched_outputs` writes
    it: the all-clear only when there is neither kind of issue.
   */
  function Closing(t: Stats): (c: ClosingLine)
    ensures c == PerfectMatch <==> t.mismatches == 0 && t.dataMismatches == 0
    ensures c.ReviewIssues? ==> c.issues == t.mismatches + t.dataMismatches
  {
    if t.mismatches > 0 || t.dataMismatches > 0 then ReviewIssues(t.mismatches + t.dataMismatches) else PerfectMatch
  }

  /** With the intended closing line, the all-clear means every row of the table is MATCH. */
  lemma ClosingAllClearIff(ss: seq<Status>)
    ensures Closing(StatsOf(ss)) == PerfectMatch <==> forall i :: 0 <= i < |ss| ==> ss[i] == Match
  {
    CountStatusZero(ss, Mismatch);
    CountStatusZero(ss, DataMismatch);
    CountStatusZero(ss, Match);
  }

  /** As written, a table whose only row is DATA_MISMATCH still gets the all-clear. */
  lemma ClosingAsWrittenMissesDataMismatch()
    ensures ClosingAsWritten(StatsOf([DataMismatch])) == PerfectMatch
    ensures Closing(StatsOf([DataMismatch])) == ReviewIssues(1)
  {
    assert [DataMismatch][..0] == [];
  }
}
