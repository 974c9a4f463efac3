/**
  `create_time_array` of `Gem.py`: the x-axis labels are put in position
  order, parsed, shifted by one day at every midnight crossing, and the
  first and last of them give the time range the axis covers.
 */
module GemAxis {
  import opened Wrappers
  import opened Order
  import opened TimeParse

  // ---------------------------------------------------------------------
  // Sorting the labels by position
  // ---------------------------------------------------------------------

  /** Python's order on `(position, label)` tuples: by position, ties by label. */
  predicate PositionLe(a: (real, string), b: (real, string)) {
    a.0 < b.0 || (a.0 == b.0 && StrLe(a.1, b.1))
  }

  lemma PositionLeOrder()
    ensures TotalPreorder(PositionLe) && Antisymmetric(PositionLe)
  {
    forall a: (real, string), b: (real, string) ensures PositionLe(a, b) || PositionLe(b, a) {
      StrLeTotal(a.1, b.1);
    }
    forall a: (real, string), b: (real, string), c: (real, string) | PositionLe(a, b) && PositionLe(b, c)
      ensures PositionLe(a, c)
    {
      if a.0 == b.0 == c.0 {
        StrLeTrans(a.1, b.1, c.1);
      }
    }
    forall a: (real, string), b: (real, string) | PositionLe(a, b) && PositionLe(b, a) ensures a == b {
      StrLeAntisym(a.1, b.1);
    }
  }

  /** `zip(positions, labels)`, as long as the shorter list. */
  function Zip(ps: seq<real>, ls: seq<string>): (z: seq<(real, string)>)
    ensures |z| == if |ps| < |ls| then |ps| else |ls|
    ensures forall i :: 0 <= i < |z| ==> z[i] == (ps[i], ls[i])
  {
    var n := if |ps| < |ls| then |ps| else |ls|;
    seq(n, i requires 0 <= i < n => (ps[i], ls[i]))
  }

  function LabelsOf(pairs: seq<(real, string)>): (ls: seq<string>)
    ensures |ls| == |pairs| && forall i :: 0 <= i < |pairs| ==> ls[i] == pairs[i].1
  {
    seq(|pairs|, i requires 0 <= i < |pairs| => pairs[i].1)
  }

  /** `sorted_labels`: the labels after `paired_list.sort()`. */
  function SortedLabels(positions: seq<real>, labels: seq<string>): seq<string> {
    LabelsOf(SortBy(Zip(positions, labels), PositionLe))
  }

  /**
    The sorted pairs are the zipped pairs rearranged, in non-decreasing
    position order.
   */
  lemma SortedPairsInPositionOrder(positions: seq<real>, labels: seq<string>)
    ensures var sp := SortBy(Zip(positions, labels), PositionLe);
            multiset(sp) == multiset(Zip(positions, labels))
            && forall i, j :: 0 <= i < j < |sp| ==> sp[i].0 <= sp[j].0
  {
    PositionLeOrder();
    SortBySorted(Zip(positions, labels), PositionLe);
  }

  // ---------------------------------------------------------------------
  // Parsing the sorted labels
  // ---------------------------------------------------------------------

  /**
    The parse loop over the first `k` labels: unparsed labels are dropped,
    the first label with a bad minute raises.
   */
  function ParsedPrefix(labels: seq<string>, k: nat): (r: Result<seq<Clock>, BadLabel>)
    requires k <= |labels|
    ensures r.Ok? ==> |r.value| <= k
    decreases k
  {
    if k == 0 then Ok([])
    else
      match ParsedPrefix(labels, k - 1)
      case Err(e) => Err(e)
      case Ok(cs) =>
        match ParseTimeLabel(labels[k - 1])
        case Unparsed => Ok(cs)
        case At(c) => Ok(cs + [c])
        case BadMinute(_) => Err(BadLabel(labels[k - 1]))
  }

  predicate BadAt(labels: seq<string>, i: nat)
    requires i < |labels|
  {
    ParseTimeLabel(labels[i]).BadMinute?
  }

  /** Parsing raises exactly when some label has a bad minute, and names the first such label. */
  lemma {:induction false} ParsedPrefixFails(labels: seq<string>, k: nat)
    requires k <= |labels|
    ensures ParsedPrefix(labels, k).Err? <==> exists i :: 0 <= i < k && BadAt(labels, i)
    ensures ParsedPrefix(labels, k).Err? ==>
              exists i :: 0 <= i < k && BadAt(labels, i) && ParsedPrefix(labels, k).error == BadLabel(labels[i])
                && forall j :: 0 <= j < i ==> !BadAt(labels, j)
    decreases k
  {
    if k > 0 {
      ParsedPrefixFails(labels, k - 1);
      if ParsedPrefix(labels, k - 1).Ok? {
        assert forall j :: 0 <= j < k - 1 ==> !BadAt(labels, j);
        if BadAt(labels, k - 1) {
          assert ParsedPrefix(labels, k) == Err(BadLabel(labels[k - 1]));
        } else {
          assert forall j :: 0 <= j < k ==> !BadAt(labels, j);
        }
      }
    }
  }

  /** Once the loop has raised, later labels change nothing. */
  lemma {:induction false} ParsedPrefixErrStays(labels: seq<string>, i: nat, k: nat)
    requires i <= k <= |labels| && ParsedPrefix(labels, i).Err?
    ensures ParsedPrefix(labels, k) == ParsedPrefix(labels, i)
    decreases k - i
  {
    if i < k {
      ParsedPrefixErrStays(labels, i, k - 1);
    }
  }

  /** Every parsed clock is a valid time of day. */
  lemma {:induction false} ParsedPrefixValid(labels: seq<string>, k: nat)
    requires k <= |labels| && ParsedPrefix(labels, k).Ok?
    ensures forall c :: c in ParsedPrefix(labels, k).value ==> c.hour < 24 && c.minute < 60
    decreases k
  {
    if k > 0 {
      ParsedPrefixValid(labels, k - 1);
    }
  }

  /** The parse loop of `create_time_array`. */
  method ParseLabels(labels: seq<string>) returns (r: Result<seq<Clock>, BadLabel>)
    ensures r == ParsedPrefix(labels, |labels|)
  {
    var times: seq<Clock> := [];
    var i := 0;
    while i < |labels|
      invariant 0 <= i <= |labels|
      invariant ParsedPrefix(labels, i) == Ok(times)
    {
      var t := ParseTimeLabel(labels[i]);
      if t.BadMinute? {
        ParsedPrefixErrStays(labels, i + 1, |labels|);
        return Err(BadLabel(labels[i]));
      }
      if t.At? {
        times := times + [t.time];
      }
      i := i + 1;
    }
    r := Ok(times);
  }

  // ---------------------------------------------------------------------
  // Midnight crossings
  // ---------------------------------------------------------------------

  /** `current_day_offset` at label `i`: the number of times the hour went down up to it. */
  function Crossings(cs: seq<Clock>, i: nat): (n: nat)
    requires i < |cs|
    ensures n <= i
  {
    if i == 0 then 0 else Crossings(cs, i - 1) + (if cs[i].hour < cs[i - 1].hour then 1 else 0)
  }

  /** Reading `i` moved forward by its day offset, in minutes. */
  function AdjustedAt(cs: seq<Clock>, i: nat): int
    requires i < |cs|
  {
    Crossings(cs, i) * 1440 + Minutes(cs[i])
  }

  /** `adjusted_times` for the first `k` readings. */
  function AdjustedUpTo(cs: seq<Clock>, k: nat): (adj: seq<int>)
    requires k <= |cs|
    ensures |adj| == k
  {
    if k == 0 then [] else AdjustedUpTo(cs, k - 1) + [AdjustedAt(cs, k - 1)]
  }

  function Adjusted(cs: seq<Clock>): (adj: seq<int>)
    ensures |adj| == |cs|
  {
    AdjustedUpTo(cs, |cs|)
  }

  lemma {:induction false} AdjustedUpToAt(cs: seq<Clock>, k: nat, i: nat)
    requires i < k <= |cs|
    ensures AdjustedUpTo(cs, k)[i] == AdjustedAt(cs, i)
    decreases k
  {
    if i < k - 1 {
      AdjustedUpToAt(cs, k - 1, i);
    }
  }

  /** The day-offset loop of `create_time_array`. */
  method AdjustTimes(cs: seq<Clock>) returns (adjusted: seq<int>)
    ensures adjusted == Adjusted(cs)
  {
    adjusted := [];
    var offset := 0;
    var lastHour: int := -1;
    var i := 0;
    while i < |cs|
      invariant 0 <= i <= |cs|
      invariant adjusted == AdjustedUpTo(cs, i)
      invariant i == 0 ==> lastHour == -1 && offset == 0
      invariant i > 0 ==> lastHour == cs[i - 1].hour && offset == Crossings(cs, i - 1)
    {
      var currentHour := cs[i].hour;
      if lastHour != -1 && currentHour < lastHour {
        offset := offset + 1;
      }
      adjusted := adjusted + [offset * 1440 + Minutes(cs[i])];
      lastHour := currentHour;
      i := i + 1;
    }
  }

  /** The hour count since the base midnight, `24 * offset + hour`. */
  function HourIndex(cs: seq<Clock>, i: nat): int
    requires i < |cs|
  {
    Crossings(cs, i) * 24 + cs[i].hour
  }

  /**
    With valid hours the day offset never decreases and the hour count never
    goes back: each label is at the same hour as, or a later hour than, the
    one before it.
   */
  lemma {:induction false} HourIndexMonotone(cs: seq<Clock>, i: nat, j: nat)
    requires forall c :: c in cs ==> c.hour < 24
    requires i <= j < |cs|
    ensures Crossings(cs, i) <= Crossings(cs, j)
    ensures HourIndex(cs, i) <= HourIndex(cs, j)
    decreases j - i
  {
    if i < j {
      HourIndexMonotone(cs, i, j - 1);
      assert cs[j - 1] in cs && cs[j] in cs;
    }
  }

  /** Adjusted minutes agree with the hour count down to the hour. */
  lemma AdjustedHour(cs: seq<Clock>, i: nat)
    requires forall c :: c in cs ==> c.minute < 60
    requires i < |cs|
    ensures Adjusted(cs)[i] >= 0 && Adjusted(cs)[i] / 60 == HourIndex(cs, i)
  {
    assert cs[i] in cs;
    AdjustedUpToAt(cs, |cs|, i);
    var a := Adjusted(cs)[i];
    assert a == HourIndex(cs, i) * 60 + cs[i].minute;
  }

  // ---------------------------------------------------------------------
  // create_time_array
  // ---------------------------------------------------------------------

  /** The time range `create_time_array` of `Gem.py` interpolates over. */
  function GemRange(labels: seq<string>, positions: seq<real>): Result<TimeRange, BadLabel> {
    if |labels| < 2 || |positions| < 2 then Ok(DefaultRange)
    else
      var sorted := SortedLabels(positions, labels);
      match ParsedPrefix(sorted, |sorted|)
      case Err(e) => Err(e)
      case Ok(cs) =>
        if |cs| < 2 then Ok(DefaultRange)
        else
          var adj := Adjusted(cs);
          var start := adj[0];
          var end := adj[|adj| - 1];
          Ok(Range(start, if end - start == 0 then end + 1440 else end))
  }

  method CreateTimeArray(labels: seq<string>, positions: seq<real>) returns (r: Result<TimeRange, BadLabel>)
    ensures r == GemRange(labels, positions)
  {
    if |labels| < 2 || |positions| < 2 {
      return Ok(DefaultRange);
    }
    var sorted := SortedLabels(positions, labels);
    var parsed := ParseLabels(sorted);
    if parsed.Err? {
      return Err(parsed.error);
    }
    var cs := parsed.value;
    if |cs| < 2 {
      return Ok(DefaultRange);
    }
    var adjusted := AdjustTimes(cs);
    var start := adjusted[0];
    var end := adjusted[|adjusted| - 1];
    if end - start == 0 {
      end := end + 1440;
    }
    r := Ok(Range(start, end));
  }

  /**
    The range starts on the base day, never ends where it starts, and does
    not end at an earlier hour than it starts (minutes within the same hour
    can still go back).
   */
  lemma GemRangeOrder(labels: seq<string>, positions: seq<real>)
    requires GemRange(labels, positions).Ok? && GemRange(labels, positions).value.Range?
    ensures var r := GemRange(labels, positions).value;
            0 <= r.start < 1440 && r.end != r.start && r.start / 60 <= r.end / 60
  {
    var sorted := SortedLabels(positions, labels);
    var cs := ParsedPrefix(sorted, |sorted|).value;
    ParsedPrefixValid(sorted, |sorted|);
    var last := |cs| - 1;
    HourIndexMonotone(cs, 0, last);
    AdjustedHour(cs, 0);
    AdjustedHour(cs, last);
    assert cs[0] in cs;
    var r := GemRange(labels, positions).value;
    var end := Adjusted(cs)[last];
    if end - r.start == 0 {
      assert r.end == end + 1440;
      assert (end + 1440) / 60 == end / 60 + 24;
    }
  }

  /** Equal first and last readings (a twelve-to-twelve axis) span exactly one day. */
  lemma ZeroDurationSpansOneDay(labels: seq<string>, positions: seq<real>)
    requires |labels| >= 2 && |positions| >= 2
    requires var sorted := SortedLabels(positions, labels);
             var p := ParsedPrefix(sorted, |sorted|);
             p.Ok? && |p.value| >= 2 && Adjusted(p.value)[0] == Adjusted(p.value)[|p.value| - 1]
    ensures GemRange(labels, positions).Ok?
    ensures var r := GemRange(labels, positions).value;
            r.Range? && r.end == r.start + 1440
  {
  }
}
