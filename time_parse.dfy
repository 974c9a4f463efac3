/**
  `parse_time_label`, identical in `Gem.py` and `V3.py`: a tick label such
  as "8 PM", "1:00 AM" or "13:30" becomes an hour and minute of the base day.
  The regular expressions it uses are written out over ASCII text.
 */
module TimeParse {
  import opened Wrappers

  // ---------------------------------------------------------------------
  // Characters and digit runs
  // ---------------------------------------------------------------------

  /** `\d` on ASCII text. */
  predicate IsDigit(c: char) {
    '0' <= c <= '9'
  }

  /** `\s` on ASCII text. */
  predicate IsSpace(c: char) {
    c == ' ' || c == '\t' || c == '\n' || c == '\r' || c as int == 11 || c as int == 12
  }

  /** `str.upper` on one ASCII character. */
  function Upper(c: char): (u: char)
    ensures 'a' <= c <= 'z' ==> u as int == c as int - 32
    ensures !('a' <= c <= 'z') ==> u == c
  {
    if 'a' <= c <= 'z' then (c as int - 32) as char else c
  }

  predicate AllDigits(s: string) {
    forall k :: 0 <= k < |s| ==> IsDigit(s[k])
  }

  predicate HasDigit(s: string) {
    exists k :: 0 <= k < |s| && IsDigit(s[k])
  }

  /** `int(s)` of a run of decimal digits. */
  function Value(s: string): nat
    requires AllDigits(s)
    decreases |s|
  {
    if s == [] then 0 else 10 * Value(s[..|s| - 1]) + (s[|s| - 1] as int - '0' as int)
  }

  /** The end of the maximal digit run starting at `i`. */
  function RunEnd(s: string, i: nat): (j: nat)
    requires i <= |s|
    ensures i <= j <= |s| && AllDigits(s[i..j]) && (j == |s| || !IsDigit(s[j]))
    ensures i < |s| && IsDigit(s[i]) ==> i < j
    decreases |s| - i
  {
    if i < |s| && IsDigit(s[i]) then
      var j := RunEnd(s, i + 1);
      assert s[i..j] == [s[i]] + s[i + 1..j];
      j
    else i
  }

  /**
    `re.search(r'(\d+):(\d+)', s)` from position `i`: the first maximal digit
    run followed by `:` and a digit gives the hour, the run after the colon
    the minute.
   */
  function ClockMatch(s: string, i: nat): (r: Option<(nat, nat)>)
    requires i <= |s|
    decreases |s| - i
  {
    if i == |s| then None
    else if !IsDigit(s[i]) then ClockMatch(s, i + 1)
    else
      var j := RunEnd(s, i);
      if j + 1 < |s| && s[j] == ':' && IsDigit(s[j + 1]) then Some((Value(s[i..j]), Value(s[j + 1..RunEnd(s, j + 1)])))
      else ClockMatch(s, j)
  }

  /** `re.search(r'(\d+)\s*(AM|PM)?', s)`: its optional suffix always matches, so this is the first digit run. */
  function FirstNumber(s: string, i: nat): (r: Option<nat>)
    requires i <= |s|
    decreases |s| - i
  {
    if i == |s| then None
    else if !IsDigit(s[i]) then FirstNumber(s, i + 1)
    else Some(Value(s[i..RunEnd(s, i)]))
  }

  /** `a + b in s.upper()` for two letters. */
  predicate HasPair(s: string, a: char, b: char) {
    exists k :: 0 <= k < |s| - 1 && Upper(s[k]) == a && Upper(s[k + 1]) == b
  }

  // ---------------------------------------------------------------------
  // parse_time_label
  // ---------------------------------------------------------------------

  datatype Clock = Clock(hour: nat, minute: nat)

  /**
    What `parse_time_label` yields: `None` for a label with no number, a
    clock reading, or the `ValueError` `datetime.replace` raises for a
    minute outside 0..59.
   */
  datatype Parsed = Unparsed | At(time: Clock) | BadMinute(minute: nat)

  /** PM adds 12 except to 12, 12 AM is hour 0, and hours past 23 wrap modulo 24. */
  function Meridiem(hour: nat, pm: bool, am: bool): (h: nat)
    ensures h < 24
    ensures hour < 24 && !pm && !(am && hour == 12) ==> h == hour
  {
    var h := if pm && hour != 12 then hour + 12 else if am && hour == 12 then 0 else hour;
    if h > 23 then h % 24 else h
  }

  function ParseTimeLabel(s: string): (r: Parsed)
    ensures r.At? ==> r.time.hour < 24 && r.time.minute < 60
    ensures r.BadMinute? ==> r.minute >= 60
  {
    var hm :=
      match ClockMatch(s, 0)
      case Some(p) => Some(p)
      case None =>
        match FirstNumber(s, 0)
        case Some(h) => Some((h, 0))
        case None => None;
    if hm.None? then Unparsed
    else
      var hour := Meridiem(hm.value.0, HasPair(s, 'P', 'M'), HasPair(s, 'A', 'M'));
      if hm.value.1 > 59 then BadMinute(hm.value.1) else At(Clock(hour, hm.value.1))
  }

  /** The reading as minutes after midnight of the base day. */
  function Minutes(c: Clock): int {
    c.hour * 60 + c.minute
  }

  /**
    The time range a `create_time_array` interpolates over, in minutes after
    midnight of the base day; `DefaultRange` is the fallback of 18:00 plus
    two hours.
   */
  datatype TimeRange = DefaultRange | Range(start: int, end: int)

  /** `parse_time_label` raised (a minute outside 0..59) on this label. */
  datatype BadLabel = BadLabel(text: string)

  // ---------------------------------------------------------------------
  // Properties
  // ---------------------------------------------------------------------

  lemma {:induction false} ClockMatchHasDigit(s: string, i: nat)
    requires i <= |s| && ClockMatch(s, i).Some?
    ensures exists k :: i <= k < |s| && IsDigit(s[k])
    decreases |s| - i
  {
    if IsDigit(s[i]) {
    } else {
      ClockMatchHasDigit(s, i + 1);
    }
  }

  lemma {:induction false} FirstNumberIff(s: string, i: nat)
    requires i <= |s|
    ensures FirstNumber(s, i).Some? <==> exists k :: i <= k < |s| && IsDigit(s[k])
    decreases |s| - i
  {
    if i < |s| && !IsDigit(s[i]) {
      FirstNumberIff(s, i + 1);
      assert forall k :: i <= k < |s| && IsDigit(s[k]) ==> i + 1 <= k;
    }
  }

  /** A label is unparsed exactly when it holds no digit at all. */
  lemma UnparsedIffNoDigit(s: string)
    ensures ParseTimeLabel(s).Unparsed? <==> !HasDigit(s)
  {
    FirstNumberIff(s, 0);
    if ClockMatch(s, 0).Some? {
      ClockMatchHasDigit(s, 0);
    }
  }

  /** The conventional 12-hour to 24-hour conversion of an hour 1..12. */
  function To24(h: nat, pm: bool): nat {
    h % 12 + (if pm then 12 else 0)
  }

  function DigitChar(d: nat): (c: char)
    requires d < 10
    ensures IsDigit(c) && c as int - '0' as int == d
  {
    ('0' as int + d) as char
  }

  /** The decimal text of `n`, as `str(n)` writes it. */
  function Decimal(n: nat): (s: string)
    ensures |s| > 0 && AllDigits(s) && Value(s) == n
    decreases n
  {
    if n < 10 then [DigitChar(n)]
    else
      var s := Decimal(n / 10) + [DigitChar(n % 10)];
      assert s[..|s| - 1] == Decimal(n / 10);
      s
  }

  /** A minute as two digits, "05". */
  function TwoDigits(m: nat): (s: string)
    requires m < 100
    ensures |s| == 2 && AllDigits(s) && Value(s) == m
  {
    var s := [DigitChar(m / 10), DigitChar(m % 10)];
    assert s[..1] == [DigitChar(m / 10)] && [DigitChar(m / 10)][..0] == [];
    assert Value(s[..1]) == m / 10;
    assert Value(s) == 10 * (m / 10) + m % 10;
    s
  }

  lemma {:induction false} RunEndAt(s: string, i: nat, j: nat)
    requires i <= j <= |s| && AllDigits(s[i..j]) && (j == |s| || !IsDigit(s[j]))
    ensures RunEnd(s, i) == j
    decreases j - i
  {
    if i < j {
      assert s[i] == s[i..j][0];
      assert s[i + 1..j] == s[i..j][1..];
      RunEndAt(s, i + 1, j);
    }
  }

  /** No character of `s` upper-cases to `a`. */
  predicate NoLetter(s: string, a: char) {
    forall k :: 0 <= k < |s| ==> Upper(s[k]) != a
  }

  /** "h:mm" followed by text that starts with a non-digit reads as hour `h`, minute `m`. */
  lemma ClockMatchOf(h: nat, m: nat, suffix: string)
    requires m < 60
    requires suffix == [] || !IsDigit(suffix[0])
    ensures ClockMatch(Decimal(h) + ":" + TwoDigits(m) + suffix, 0) == Some((h, m))
  {
    var d := Decimal(h);
    var s := d + ":" + TwoDigits(m) + suffix;
    assert s[..|d|] == d;
    assert s[0..|d|] == d;
    RunEndAt(s, 0, |d|);
    assert s[|d|] == ':';
    assert s[|d| + 1..|d| + 3] == TwoDigits(m);
    RunEndAt(s, |d| + 1, |d| + 3);
    assert IsDigit(s[0]) by { assert s[0] == d[0]; }
  }

  /** "h:mm AM" and "h:mm PM" read as the conventional 24-hour time. */
  lemma ParseClockLabel(h: nat, m: nat, pm: bool)
    requires 1 <= h <= 12 && m < 60
    ensures ParseTimeLabel(Decimal(h) + ":" + TwoDigits(m) + (if pm then " PM" else " AM")) == At(Clock(To24(h, pm), m))
  {
    var suffix := if pm then " PM" else " AM";
    var s := Decimal(h) + ":" + TwoDigits(m) + suffix;
    ClockMatchOf(h, m, suffix);
    MeridiemOf(s, Decimal(h) + ":" + TwoDigits(m), h, pm);
  }

  /** "h:mm" without a suffix is already a 24-hour time. */
  lemma ParseClock24(h: nat, m: nat)
    requires h < 24 && m < 60
    ensures ParseTimeLabel(Decimal(h) + ":" + TwoDigits(m)) == At(Clock(h, m))
  {
    var s := Decimal(h) + ":" + TwoDigits(m);
    assert s + [] == s;
    ClockMatchOf(h, m, []);
    assert !HasPair(s, 'P', 'M') by { NoLetterDigitsColon(Decimal(h), TwoDigits(m), 'P'); }
    assert !HasPair(s, 'A', 'M') by { NoLetterDigitsColon(Decimal(h), TwoDigits(m), 'A'); }
  }

  /** "h AM" and "h PM" read as the conventional 24-hour time, minute 0. */
  lemma ParseHourLabel(h: nat, pm: bool)
    requires 1 <= h <= 12
    ensures ParseTimeLabel(Decimal(h) + (if pm then " PM" else " AM")) == At(Clock(To24(h, pm), 0))
  {
    var d := Decimal(h);
    var s := d + (if pm then " PM" else " AM");
    assert s[0..|d|] == d;
    RunEndAt(s, 0, |d|);
    assert IsDigit(s[0]) by { assert s[0] == d[0]; }
    assert ClockMatch(s, |d|) == None by { NoClockAfter(s, |d|); }
    assert ClockMatch(s, 0) == None;
    MeridiemOf(s, d, h, pm);
  }

  lemma NoLetterDigitsColon(d: string, t: string, a: char)
    requires AllDigits(d) && AllDigits(t) && 'A' <= a <= 'Z'
    ensures NoLetter(d + ":" + t, a)
  {
    var s := d + ":" + t;
    forall k | 0 <= k < |s| ensures Upper(s[k]) != a {
      if k < |d| { assert s[k] == d[k]; }
      else if k > |d| { assert s[k] == t[k - |d| - 1]; }
    }
  }

  /** From position `i` of "<digits> PM" (`i` past the digits) nothing matches `\d+:\d+`. */
  lemma {:induction false} NoClockAfter(s: string, i: nat)
    requires i <= |s| && forall k :: i <= k < |s| ==> !IsDigit(s[k])
    ensures ClockMatch(s, i) == None
    decreases |s| - i
  {
    if i < |s| {
      NoClockAfter(s, i + 1);
    }
  }

  /** The AM/PM flags of "<prefix> AM" / "<prefix> PM" when the prefix is digits and colons. */
  lemma MeridiemOf(s: string, prefix: string, h: nat, pm: bool)
    requires 1 <= h <= 12
    requires forall k :: 0 <= k < |prefix| ==> IsDigit(prefix[k]) || prefix[k] == ':'
    requires s == prefix + (if pm then " PM" else " AM")
    ensures HasPair(s, 'P', 'M') == pm && HasPair(s, 'A', 'M') == !pm
    ensures Meridiem(h, pm, !pm) == To24(h, pm)
  {
    var n := |prefix|;
    assert s[n + 1] == (if pm then 'P' else 'A') && s[n + 2] == 'M';
    var other := if pm then 'A' else 'P';
    forall k | 0 <= k < |s| ensures Upper(s[k]) != other {
      if k < n { assert s[k] == prefix[k]; }
    }
  }
}
