/**
  The label handling of `V3.py`: `extract_axis_info` sorts the chart's text
  elements into time labels and memory labels, and `create_time_array` /
  `create_memory_array` de-duplicate them by whole-pixel position before
  using them.
 */
module V3Axis {
  import opened Wrappers
  import opened Order
  import opened TimeParse

  // ---------------------------------------------------------------------
  // Label classification (the regular expressions of extract_axis_info)
  // ---------------------------------------------------------------------

  /** A weekday abbreviation at `j`, in any case. */
  predicate DayNameAt(t: string, j: nat) {
    j + 3 <= |t|
    && [Upper(t[j]), Upper(t[j + 1]), Upper(t[j + 2])] in ["FRI", "SAT", "SUN", "MON", "TUE", "WED", "THU"]
  }

  /** `\s*` followed by a weekday abbreviation, from `j` on. */
  predicate SpacesThenDay(t: string, j: nat)
    decreases |t| - j
  {
    DayNameAt(t, j) || (j < |t| && IsSpace(t[j]) && SpacesThenDay(t, j + 1))
  }

  /** `re.search(r'\d+\s+(FRI|SAT|SUN|MON|TUE|WED|THU)', t[i..], re.IGNORECASE)`. */
  predicate DayFrom(t: string, i: nat)
    decreases |t| - i
  {
    i < |t|
    && ((IsDigit(t[i]) && i + 1 < |t| && IsSpace(t[i + 1]) && SpacesThenDay(t, i + 2)) || DayFrom(t, i + 1))
  }

  /** A day annotation starts at `k`: a digit, a space, then optional spaces and a weekday. */
  predicate DayMatchAt(t: string, k: nat) {
    k + 1 < |t| && IsDigit(t[k]) && IsSpace(t[k + 1]) && SpacesThenDay(t, k + 2)
  }

  /** `DayFrom` finds a match exactly when one starts at some position from `i` on. */
  lemma {:induction false} DayFromIff(t: string, i: nat)
    ensures DayFrom(t, i) <==> exists k: nat | i <= k < |t| :: DayMatchAt(t, k)
    decreases |t| - i
  {
    if i < |t| {
      DayFromIff(t, i + 1);
      if DayMatchAt(t, i) { assert i <= i < |t|; }
      if exists k: nat | i <= k < |t| :: DayMatchAt(t, k) {
        var k: nat :| i <= k < |t| && DayMatchAt(t, k);
        if k > i { assert i + 1 <= k < |t| && DayMatchAt(t, k); }
      }
    }
  }

  /** Some position starts a day annotation. */
  predicate HasDayMatch(t: string) {
    exists k: nat | k < |t| :: DayMatchAt(t, k)
  }

  /** A day annotation such as "11 FRI", which `extract_axis_info` skips. */
  predicate IsDayLabel(t: string) {
    DayFrom(t, 0)
  }

  /** `IsDayLabel` holds exactly when a day annotation starts somewhere in the text. */
  lemma IsDayLabelIff(t: string)
    ensures IsDayLabel(t) <==> HasDayMatch(t)
  {
    DayFromIff(t, 0);
  }

  /** `AM` or `PM` at `j`, in any case. */
  predicate MeridiemAt(t: string, j: nat) {
    j + 2 <= |t| && (Upper(t[j]) == 'A' || Upper(t[j]) == 'P') && Upper(t[j + 1]) == 'M'
  }

  /** `\s*(AM|PM)` from `j` on. */
  predicate SpacesThenMeridiem(t: string, j: nat)
    decreases |t| - j
  {
    MeridiemAt(t, j) || (j < |t| && IsSpace(t[j]) && SpacesThenMeridiem(t, j + 1))
  }

  /**
    `re.search(r'(\d+:\d+|\d+)\s*(AM|PM)', t[i..], re.IGNORECASE)`: both
    alternatives end in a digit, so a match is a digit followed by
    `\s*(AM|PM)`.
   */
  predicate MeridiemFrom(t: string, i: nat)
    decreases |t| - i
  {
    i < |t| && ((IsDigit(t[i]) && SpacesThenMeridiem(t, i + 1)) || MeridiemFrom(t, i + 1))
  }

  /** `re.search(r'\d+:\d+', t[i..])`. */
  predicate ClockFrom(t: string, i: nat)
    decreases |t| - i
  {
    i + 2 < |t| && ((IsDigit(t[i]) && t[i + 1] == ':' && IsDigit(t[i + 2])) || ClockFrom(t, i + 1))
  }

  /** `(\d+:\d+|\d+)\s*(AM|PM)` ends at a digit: a digit at `k`, then optional spaces and AM/PM. */
  predicate MeridiemMatchAt(t: string, k: nat) {
    k < |t| && IsDigit(t[k]) && SpacesThenMeridiem(t, k + 1)
  }

  /** `\d+:\d+` at `k`: a digit, a colon and a digit. */
  predicate ClockMatchAt(t: string, k: nat) {
    k + 2 < |t| && IsDigit(t[k]) && t[k + 1] == ':' && IsDigit(t[k + 2])
  }

  /** `MeridiemFrom` finds a match exactly when one starts at some position from `i` on. */
  lemma {:induction false} MeridiemFromIff(t: string, i: nat)
    ensures MeridiemFrom(t, i) <==> exists k: nat | i <= k < |t| :: MeridiemMatchAt(t, k)
    decreases |t| - i
  {
    if i < |t| {
      MeridiemFromIff(t, i + 1);
      if MeridiemMatchAt(t, i) { assert i <= i < |t|; }
      if exists k: nat | i <= k < |t| :: MeridiemMatchAt(t, k) {
        var k: nat :| i <= k < |t| && MeridiemMatchAt(t, k);
        if k > i { assert i + 1 <= k < |t| && MeridiemMatchAt(t, k); }
      }
    }
  }

  /** `ClockFrom` finds a match exactly when one starts at some position from `i` on. */
  lemma {:induction false} ClockFromIff(t: string, i: nat)
    ensures ClockFrom(t, i) <==> exists k: nat | i <= k < |t| :: ClockMatchAt(t, k)
    decreases |t| - i
  {
    if i + 2 < |t| {
      ClockFromIff(t, i + 1);
      if ClockMatchAt(t, i) { assert i <= i < |t|; }
      if exists k: nat | i <= k < |t| :: ClockMatchAt(t, k) {
        var k: nat :| i <= k < |t| && ClockMatchAt(t, k);
        if k > i { assert i + 1 <= k < |t| && ClockMatchAt(t, k); }
      }
    }
  }

  /** Some position starts one of the two time patterns. */
  predicate HasTimeMatch(t: string) {
    (exists k: nat | k < |t| :: MeridiemMatchAt(t, k)) || (exists k: nat | k < |t| :: ClockMatchAt(t, k))
  }

  /** An x-axis time label such as "8 PM" or "1:00 AM". */
  predicate IsTimeLabel(t: string) {
    MeridiemFrom(t, 0) || ClockFrom(t, 0)
  }

  /** `IsTimeLabel` holds exactly when one of the two time patterns starts somewhere in the text. */
  lemma IsTimeLabelIff(t: string)
    ensures IsTimeLabel(t) <==> HasTimeMatch(t)
  {
    MeridiemFromIff(t, 0);
    ClockFromIff(t, 0);
  }

  /** The memory units of the regular expression, in upper case. */
  const MemoryUnits: seq<string> := ["MB", "GB", "B"]

  /** `t` ends with `u`, ignoring case. */
  predicate EndsWithUnit(t: string, u: string) {
    |u| <= |t| && forall k :: 0 <= k < |u| ==> Upper(t[|t| - |u| + k]) == u[k]
  }

  /** Some unit ends `t`, or ends `t` just before a final newline. */
  predicate UnitAtEnd(t: string) {
    exists u :: u in MemoryUnits
      && (EndsWithUnit(t, u) || (|t| > 0 && t[|t| - 1] == '\n' && EndsWithUnit(t[..|t| - 1], u)))
  }

  /**
    `re.search(r'(MB|GB|B)$', t, re.IGNORECASE)`: a unit at the end, where `$`
    also matches before a final newline.
   */
  predicate IsMemoryLabel(t: string) {
    (|t| > 0 && Upper(t[|t| - 1]) == 'B')
    || (|t| > 1 && t[|t| - 1] == '\n' && Upper(t[|t| - 2]) == 'B')
  }

  /** Every unit ends in `B`, so a unit ends the text exactly when its last letter is `B` or `b`. */
  lemma IsMemoryLabelIff(t: string)
    ensures IsMemoryLabel(t) <==> UnitAtEnd(t)
  {
    if |t| > 0 && Upper(t[|t| - 1]) == 'B' {
      assert EndsWithUnit(t, MemoryUnits[2]);
    } else if |t| > 1 && t[|t| - 1] == '\n' && Upper(t[|t| - 2]) == 'B' {
      var s := t[..|t| - 1];
      assert s[|s| - 1] == t[|t| - 2];
      var u := MemoryUnits[2];
      assert u == "B" && u in MemoryUnits;
      assert EndsWithUnit(s, u);
      assert |t| > 0 && t[|t| - 1] == '\n' && EndsWithUnit(t[..|t| - 1], u);
    } else {
      forall u | u in MemoryUnits
        ensures !EndsWithUnit(t, u)
        ensures !(|t| > 0 && t[|t| - 1] == '\n' && EndsWithUnit(t[..|t| - 1], u))
      {
        assert |u| > 0 && u[|u| - 1] == 'B';
      }
    }
  }

  predicate IsNumberChar(c: char) {
    IsDigit(c) || c == '.'
  }

  /** `re.match(r'^([\d.]+)', t)`: the leading run of digits and dots, empty when there is no match. */
  function NumberPrefix(t: string): (p: string)
    ensures p <= t
    ensures forall k :: 0 <= k < |p| ==> IsNumberChar(p[k])
    ensures |p| == |t| || !IsNumberChar(t[|p|])
  {
    if t != [] && IsNumberChar(t[0]) then [t[0]] + NumberPrefix(t[1..]) else []
  }

  /** A day annotation is recognised; time labels are not mistaken for one. */
  lemma DayLabelExamples()
    ensures IsDayLabel("11 FRI") && !IsDayLabel("8 PM") && !IsDayLabel("1:00 AM")
  {
    assert DayFrom("11 FRI", 1);
  }

  /** Both time-label forms are recognised, and a memory label is not one. */
  lemma TimeLabelExamples()
    ensures IsTimeLabel("8 PM") && IsTimeLabel("1:00 AM") && IsTimeLabel("13:45") && !IsTimeLabel("286.10MB")
  {
    assert ClockFrom("1:00 AM", 0);
    assert ClockFrom("13:45", 1);
    assert MeridiemFrom("8 PM", 0);
  }

  /** Memory labels are recognised by their unit. */
  lemma MemoryLabelExamples()
    ensures IsMemoryLabel("286.10MB") && IsMemoryLabel("0B") && !IsMemoryLabel("8 PM")
  {
  }

  /** A run of digits and dots followed by a unit (or by nothing) is reduced to that run. */
  lemma {:induction false} NumberPrefixOfLabel(d: string, u: string)
    requires forall k :: 0 <= k < |d| ==> IsNumberChar(d[k])
    requires u == [] || !IsNumberChar(u[0])
    ensures NumberPrefix(d + u) == d
    decreases |d|
  {
    if d == [] {
      assert d + u == u;
    } else {
      assert (d + u)[1..] == d[1..] + u;
      NumberPrefixOfLabel(d[1..], u);
    }
  }

  // ---------------------------------------------------------------------
  // extract_axis_info
  // ---------------------------------------------------------------------

  /** A `<text>` element: its text (from its first `<tspan>` when there is one) and its `x`/`y` attributes. */
  datatype TextElem = TextElem(text: string, x: Option<string>, y: Option<string>)

  datatype AxisInfo = AxisInfo(xLabels: seq<string>, yLabels: seq<string>, xPositions: seq<real>, yPositions: seq<real>)

  /** `float()` raised on this attribute value. */
  datatype BadPosition = BadPosition(value: string)

  /** Python's `float()` on an attribute value; `None` where it raises. */
  type ToFloat = string -> Option<real>

  /** A present, non-empty attribute: `if x_pos:`. */
  predicate Given(attr: Option<string>) {
    attr.Some? && attr.value != ""
  }

  /** One iteration of the element loop. */
  function Step(toFloat: ToFloat, info: AxisInfo, e: TextElem): Result<AxisInfo, BadPosition> {
    if IsDayLabel(e.text) then Ok(info)
    else if IsTimeLabel(e.text) then
      if !Given(e.x) then Ok(info)
      else
        match toFloat(e.x.value)
        case None => Err(BadPosition(e.x.value))
        case Some(v) => Ok(info.(xLabels := info.xLabels + [e.text], xPositions := info.xPositions + [v]))
    else if IsMemoryLabel(e.text) then
      var n := NumberPrefix(e.text);
      if n == [] || !Given(e.y) then Ok(info)
      else
        match toFloat(e.y.value)
        case None => Err(BadPosition(e.y.value))
        case Some(v) => Ok(info.(yLabels := info.yLabels + [n], yPositions := info.yPositions + [v]))
    else Ok(info)
  }

  /** The `axis_info` dictionary after the first `k` elements. */
  function Collected(toFloat: ToFloat, elems: seq<TextElem>, k: nat): Result<AxisInfo, BadPosition>
    requires k <= |elems|
    decreases k
  {
    if k == 0 then Ok(AxisInfo([], [], [], []))
    else
      match Collected(toFloat, elems, k - 1)
      case Err(e) => Err(e)
      case Ok(info) => Step(toFloat, info, elems[k - 1])
  }

  method ExtractAxisInfo(toFloat: ToFloat, elems: seq<TextElem>) returns (r: Result<AxisInfo, BadPosition>)
    ensures r == Collected(toFloat, elems, |elems|)
  {
    var info := AxisInfo([], [], [], []);
    var i := 0;
    while i < |elems|
      invariant 0 <= i <= |elems|
      invariant Collected(toFloat, elems, i) == Ok(info)
    {
      var step := Step(toFloat, info, elems[i]);
      if step.Err? {
        CollectedErrStays(toFloat, elems, i + 1, |elems|);
        return step;
      }
      info := step.value;
      i := i + 1;
    }
    r := Ok(info);
  }

  lemma {:induction false} CollectedErrStays(toFloat: ToFloat, elems: seq<TextElem>, i: nat, k: nat)
    requires i <= k <= |elems| && Collected(toFloat, elems, i).Err?
    ensures Collected(toFloat, elems, k) == Collected(toFloat, elems, i)
    decreases k - i
  {
    if i < k {
      CollectedErrStays(toFloat, elems, i, k - 1);
    }
  }

  /** What every collected label satisfies. */
  ghost predicate WellFormed(info: AxisInfo) {
    |info.xLabels| == |info.xPositions| && |info.yLabels| == |info.yPositions|
    && (forall i :: 0 <= i < |info.xLabels| ==> IsTimeLabel(info.xLabels[i]) && !IsDayLabel(info.xLabels[i]))
    && (forall i :: 0 <= i < |info.yLabels| ==>
          info.yLabels[i] != [] && forall k :: 0 <= k < |info.yLabels[i]| ==> IsNumberChar(info.yLabels[i][k]))
  }

  /**
    Labels and positions stay paired one to one, x labels are time labels
    and never day annotations, and y labels are the numeric part of a
    memory label.
   */
  lemma {:induction false} CollectedWellFormed(toFloat: ToFloat, elems: seq<TextElem>, k: nat)
    requires k <= |elems| && Collected(toFloat, elems, k).Ok?
    ensures WellFormed(Collected(toFloat, elems, k).value)
    decreases k
  {
    if k > 0 {
      CollectedWellFormed(toFloat, elems, k - 1);
    }
  }

  /** A day annotation is never collected, whatever else it looks like. */
  lemma DayLabelsSkipped(toFloat: ToFloat, info: AxisInfo, e: TextElem)
    requires IsDayLabel(e.text)
    ensures Step(toFloat, info, e) == Ok(info)
  {
  }

  // ---------------------------------------------------------------------
  // De-duplication by whole-pixel position
  // ---------------------------------------------------------------------

  /** Python's `int()` on a float: truncation toward zero. */
  function Trunc(r: real): (n: int)
    ensures r >= 0.0 ==> n as real <= r < n as real + 1.0
    ensures r < 0.0 ==> n as real - 1.0 < r <= n as real
  {
    if r >= 0.0 then r.Floor else -((-r).Floor)
  }

  function MinLen(ps: seq<real>, ls: seq<string>): nat {
    if |ps| < |ls| then |ps| else |ls|
  }

  /** `unique_labels_map` after the first `k` pairs of `zip(positions, labels)`. */
  function LastByPosition(ps: seq<real>, ls: seq<string>, k: nat): map<int, string>
    requires k <= |ps| && k <= |ls|
    decreases k
  {
    if k == 0 then map[] else LastByPosition(ps, ls, k - 1)[Trunc(ps[k - 1]) := ls[k - 1]]
  }

  /** `sorted(d.items())`: the entries in increasing key order. */
  function SortedItems(m: map<int, string>): (items: seq<(int, string)>)
    ensures |items| == |m.Keys|
    ensures forall i, j :: 0 <= i < j < |items| ==> items[i].0 < items[j].0
    ensures forall i :: 0 <= i < |items| ==> items[i].0 in m && items[i].1 == m[items[i].0]
  {
    var keys := SortedInts(m.Keys);
    seq(|keys|, i requires 0 <= i < |keys| => (keys[i], m[keys[i]]))
  }

  /** Every entry of the map appears among the sorted items. */
  lemma SortedItemsComplete(m: map<int, string>, k: int)
    requires k in m
    ensures exists i :: 0 <= i < |SortedItems(m)| && SortedItems(m)[i] == (k, m[k])
  {
    var keys := SortedInts(m.Keys);
    assert k in keys;
    var i :| 0 <= i < |keys| && keys[i] == k;
    assert SortedItems(m)[i] == (k, m[k]);
  }

  /** The de-duplication loop shared by `create_time_array` and `create_memory_array`. */
  method UniqueByPosition(ps: seq<real>, ls: seq<string>) returns (items: seq<(int, string)>)
    ensures items == SortedItems(LastByPosition(ps, ls, MinLen(ps, ls)))
  {
    var n := MinLen(ps, ls);
    var unique: map<int, string> := map[];
    var i := 0;
    while i < n
      invariant 0 <= i <= n
      invariant unique == LastByPosition(ps, ls, i)
    {
      assert LastByPosition(ps, ls, i + 1) == LastByPosition(ps, ls, i)[Trunc(ps[i]) := ls[i]];
      unique := unique[Trunc(ps[i]) := ls[i]];
      i := i + 1;
    }
    items := SortedItems(unique);
  }

  /** A key is present exactly when some position truncates to it. */
  lemma {:induction false} LastByPositionKeys(ps: seq<real>, ls: seq<string>, k: nat, key: int)
    requires k <= |ps| && k <= |ls|
    ensures key in LastByPosition(ps, ls, k) <==> exists i :: 0 <= i < k && Trunc(ps[i]) == key
    decreases k
  {
    if k > 0 {
      LastByPositionKeys(ps, ls, k - 1, key);
    }
  }

  /** The label kept at a key is the one of the last pair whose position truncates to it. */
  lemma {:induction false} LastByPositionLastWins(ps: seq<real>, ls: seq<string>, k: nat, key: int)
    requires k <= |ps| && k <= |ls| && key in LastByPosition(ps, ls, k)
    ensures exists i :: 0 <= i < k && Trunc(ps[i]) == key && LastByPosition(ps, ls, k)[key] == ls[i]
                        && forall j :: i < j < k ==> Trunc(ps[j]) != key
    decreases k
  {
    if Trunc(ps[k - 1]) != key {
      LastByPositionLastWins(ps, ls, k - 1, key);
    }
  }

  // ---------------------------------------------------------------------
  // create_time_array and create_memory_array
  // ---------------------------------------------------------------------

  /**
    The range between the first and the last visible label: `replace`
    raises on a minute over 59 (the first label is parsed first), an
    unparsable label falls back to the default range, and an end at or
    before the start is moved to the next day.
   */
  function EndpointRange(first: string, last: string): Result<TimeRange, BadLabel> {
    var start := ParseTimeLabel(first);
    if start.BadMinute? then Err(BadLabel(first))
    else
      var end := ParseTimeLabel(last);
      if end.BadMinute? then Err(BadLabel(last))
      else if start.Unparsed? || end.Unparsed? then Ok(DefaultRange)
      else
        var s := Minutes(start.time);
        var e := Minutes(end.time);
        Ok(Range(s, if e <= s then e + 1440 else e))
  }

  /** The time range `create_time_array` of `V3.py` interpolates over. */
  function V3Range(labels: seq<string>, positions: seq<real>): Result<TimeRange, BadLabel> {
    if |labels| < 2 || |positions| < 2 then Ok(DefaultRange)
    else ItemsRange(SortedItems(LastByPosition(positions, labels, MinLen(positions, labels))))
  }

  /** The range of the de-duplicated, position-ordered labels; fewer than two give the default scale. */
  function ItemsRange(items: seq<(int, string)>): Result<TimeRange, BadLabel> {
    if |items| < 2 then Ok(DefaultRange) else EndpointRange(items[0].1, items[|items| - 1].1)
  }

  method CreateTimeArray(labels: seq<string>, positions: seq<real>) returns (r: Result<TimeRange, BadLabel>)
    ensures r == V3Range(labels, positions)
  {
    if |labels| < 2 || |positions| < 2 {
      return Ok(DefaultRange);
    }
    var items := UniqueByPosition(positions, labels);
    if |items| < 2 {
      return Ok(DefaultRange);
    }
    r := RangeBetween(items[0].1, items[|items| - 1].1);
  }

  /** The endpoint half of `create_time_array`: parse both labels, then wrap past midnight. */
  method RangeBetween(first: string, last: string) returns (r: Result<TimeRange, BadLabel>)
    ensures r == EndpointRange(first, last)
  {
    var startTime := ParseTimeLabel(first);
    if startTime.BadMinute? {
      return Err(BadLabel(first));
    }
    var endTime := ParseTimeLabel(last);
    if endTime.BadMinute? {
      return Err(BadLabel(last));
    }
    if startTime.Unparsed? || endTime.Unparsed? {
      return Ok(DefaultRange);
    }
    var s := Minutes(startTime.time);
    var e := Minutes(endTime.time);
    if e <= s {
      e := e + 1440;
    }
    r := Ok(Range(s, e));
  }

  /**
    The range starts on the base day and always moves forward, by at most
    one day: an end at or before the start is read as the next day.
   */
  lemma V3RangeForward(first: string, last: string)
    requires EndpointRange(first, last).Ok? && EndpointRange(first, last).value.Range?
    ensures var r := EndpointRange(first, last).value;
            0 <= r.start < 1440 && r.start < r.end <= r.start + 1440
  {
  }

  /** Two labels at distinct whole-pixel positions stay as they are, in position order. */
  lemma TwoPointItems(a: (int, string), b: (int, string))
    requires a.0 < b.0
    ensures SortedItems(LastByPosition([a.0 as real, b.0 as real], [a.1, b.1], 2)) == [a, b]
  {
    var m := LastByPosition([a.0 as real, b.0 as real], [a.1, b.1], 2);
    assert Trunc(a.0 as real) == a.0 && Trunc(b.0 as real) == b.0;
    assert m == map[a.0 := a.1, b.0 := b.1];
    assert m.Keys == {a.0, b.0};
    var items := SortedItems(m);
    assert |items| == 2;
    assert items[0].0 in m.Keys && items[1].0 in m.Keys && items[0].0 < items[1].0;
  }

  /** Only the first and last unique labels matter: the range runs from the first to the last label in position order. */
  lemma V3RangeUsesEndpoints(labels: seq<string>, positions: seq<real>)
    requires |labels| >= 2 && |positions| >= 2
    requires |SortedItems(LastByPosition(positions, labels, MinLen(positions, labels)))| >= 2
    ensures var items := SortedItems(LastByPosition(positions, labels, MinLen(positions, labels)));
            var a := items[0];
            var b := items[|items| - 1];
            V3Range(labels, positions) == EndpointRange(a.1, b.1)
  {
  }

  /** The two-label axis made of `a` and `b` ranges from `a`'s label to `b`'s. */
  lemma V3RangeOfTwo(a: (int, string), b: (int, string))
    requires a.0 < b.0
    ensures V3Range([a.1, b.1], [a.0 as real, b.0 as real]) == EndpointRange(a.1, b.1)
  {
    var ps := [a.0 as real, b.0 as real];
    var ls := [a.1, b.1];
    assert MinLen(ps, ls) == 2;
    TwoPointItems(a, b);
    assert V3Range(ls, ps) == ItemsRange([a, b]);
  }

  /** `sorted_y_labels`, or `None` for the fallback scale when fewer than two remain. */
  function MemoryLabels(positions: seq<real>, labels: seq<string>): Option<seq<string>> {
    var items := SortedItems(LastByPosition(positions, labels, MinLen(positions, labels)));
    if |items| < 2 then None else Some(seq(|items|, i requires 0 <= i < |items| => items[i].1))
  }

  /** The label half of `create_memory_array`. */
  method CreateMemoryLabels(positions: seq<real>, labels: seq<string>) returns (r: Option<seq<string>>)
    ensures r == MemoryLabels(positions, labels)
  {
    var items := UniqueByPosition(positions, labels);
    if |items| < 2 {
      return None;
    }
    r := Some(seq(|items|, i requires 0 <= i < |items| => items[i].1));
  }

  /**
    The memory labels are labels of the axis, each the last one drawn at its
    whole-pixel position, listed by strictly increasing position.
   */
  lemma MemoryLabelsInPositionOrder(positions: seq<real>, labels: seq<string>, i: nat, j: nat)
    requires MemoryLabels(positions, labels).Some? && i < j < |MemoryLabels(positions, labels).value|
    ensures var r := MemoryLabels(positions, labels).value;
            var n := MinLen(positions, labels);
            exists a, b :: 0 <= a < n && 0 <= b < n && r[i] == labels[a] && r[j] == labels[b]
                        && Trunc(positions[a]) < Trunc(positions[b])
  {
    var n := MinLen(positions, labels);
    var m := LastByPosition(positions, labels, n);
    var items := SortedItems(m);
    LastByPositionLastWins(positions, labels, n, items[i].0);
    LastByPositionLastWins(positions, labels, n, items[j].0);
  }
}
