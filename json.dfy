/**
  Values produced by Python's `json.loads`, Python's `==` and `type()` on them,
  and the `repr()` text the comparator prints for scalars.
 */
module JsonValue {
  import opened Wrappers
  import opened Order

  /**
    A decoded JSON value. A JSON number with a fraction or exponent becomes a
    Python `float`, modelled by its exact value (so there is no `-0.0`, NaN or
    infinity); a Python `dict` becomes a map, which has no key order. Sorting,
    the difference walk and `==` ignore key order in the comparator too, but
    iterating over a dict and its `str()` follow insertion order in Python,
    where the model uses ascending key order.
   */
  datatype Json =
    | Null
    | Bool(b: bool)
    | Int(i: int)
    | Float(r: real)
    | Str(s: string)
    | Arr(items: seq<Json>)
    | Obj(fields: map<string, Json>)

  /**
    The library functions the comparator calls but does not define:
    `json.loads` (None when it raises), `json.dumps(x, sort_keys=True)`, and
    `repr()` of a float.
   */
  datatype Codec = Codec(
    loads: string -> Option<Json>,
    dumps: Json -> string,
    floatRepr: real -> string)

  /** The real `json.dumps` never gives two different values the same text. */
  ghost predicate DumpsInjective(dumps: Json -> string) {
    forall x, y :: dumps(x) == dumps(y) ==> x == y
  }

  /** Python's `type(x)`: `bool` and `int` are different types, as are `int` and `float`. */
  function Tag(j: Json): (t: nat)
    ensures t < 7
  {
    match j
    case Null => 0
    case Bool(_) => 1
    case Int(_) => 2
    case Float(_) => 3
    case Str(_) => 4
    case Arr(_) => 5
    case Obj(_) => 6
  }

  lemma TagDistinguishesConstructors(a: Json, b: Json)
    requires Tag(a) == Tag(b)
    ensures a.Null? == b.Null? && a.Bool? == b.Bool? && a.Int? == b.Int? && a.Float? == b.Float?
    ensures a.Str? == b.Str? && a.Arr? == b.Arr? && a.Obj? == b.Obj?
  {
  }

  /** `bool`, `int` and `float` compare with each other by numeric value in Python. */
  predicate IsNumber(j: Json) {
    j.Bool? || j.Int? || j.Float?
  }

  function NumValue(j: Json): real
    requires IsNumber(j)
  {
    match j
    case Bool(b) => if b then 1.0 else 0.0
    case Int(i) => i as real
    case Float(r) => r
  }

  /**
    Python's `==` on decoded JSON: `True == 1`, `1 == 1.0`; lists compare
    element by element; dicts compare by key set and by value per key.
   */
  predicate PyEq(a: Json, b: Json)
    decreases a
  {
    if a.Arr? && b.Arr? then
      |a.items| == |b.items| && forall i :: 0 <= i < |a.items| ==> PyEq(a.items[i], b.items[i])
    else if a.Obj? && b.Obj? then
      a.fields.Keys == b.fields.Keys && forall k :: k in a.fields ==> PyEq(a.fields[k], b.fields[k])
    else if IsNumber(a) && IsNumber(b) then
      NumValue(a) == NumValue(b)
    else
      a == b
  }

  lemma {:induction false} PyEqRefl(a: Json)
    ensures PyEq(a, a)
    decreases a
  {
    match a
    case Arr(xs) =>
      forall i | 0 <= i < |xs| ensures PyEq(xs[i], xs[i]) { PyEqRefl(xs[i]); }
    case Obj(m) =>
      forall k | k in m ensures PyEq(m[k], m[k]) { PyEqRefl(m[k]); }
    case _ =>
  }

  lemma {:induction false} PyEqSym(a: Json, b: Json)
    requires PyEq(a, b)
    ensures PyEq(b, a)
    decreases a
  {
    if a.Arr? && b.Arr? {
      forall i | 0 <= i < |b.items| ensures PyEq(b.items[i], a.items[i]) {
        PyEqSym(a.items[i], b.items[i]);
      }
    } else if a.Obj? && b.Obj? {
      forall k | k in b.fields ensures PyEq(b.fields[k], a.fields[k]) {
        PyEqSym(a.fields[k], b.fields[k]);
      }
    }
  }

  /** Values of one Python type are `==` exactly when they are the same value. */
  lemma {:induction false} PyEqSameTagScalar(a: Json, b: Json)
    requires Tag(a) == Tag(b) && !a.Arr? && !a.Obj?
    ensures PyEq(a, b) <==> a == b
  {
    TagDistinguishesConstructors(a, b);
    if a == b { PyEqRefl(a); }
  }

  /** `True == 1` holds in Python although the two have different types. */
  lemma BoolEqualsInt()
    ensures PyEq(Bool(true), Int(1)) && Tag(Bool(true)) != Tag(Int(1))
    ensures PyEq(Int(1), Float(1.0)) && Tag(Int(1)) != Tag(Float(1.0))
  {
  }

  // ---------------------------------------------------------------------
  // Text of numbers and scalar `repr()`
  // ---------------------------------------------------------------------

  function DigitChar(d: nat): (c: char)
    requires d < 10
    ensures '0' <= c <= '9' && (c as int) - ('0' as int) == d
  {
    (('0' as int) + d) as char
  }

  /** `str(n)` for a non-negative integer. */
  function NatStr(n: nat): (r: string)
    ensures |r| > 0
    ensures forall i :: 0 <= i < |r| ==> '0' <= r[i] <= '9'
    decreases n
  {
    if n < 10 then [DigitChar(n)] else NatStr(n / 10) + [DigitChar(n % 10)]
  }

  /** The value of a string of decimal digits. */
  function DigitsValue(s: string): nat
    requires forall i :: 0 <= i < |s| ==> '0' <= s[i] <= '9'
    decreases |s|
  {
    if s == [] then 0
    else 10 * DigitsValue(s[..|s| - 1]) + ((s[|s| - 1] as int) - ('0' as int))
  }

  /** Reading back the digits of `str(n)` gives `n`. */
  lemma {:induction false} NatStrRoundTrip(n: nat)
    ensures DigitsValue(NatStr(n)) == n
    decreases n
  {
    if n >= 10 {
      NatStrRoundTrip(n / 10);
      var r := NatStr(n);
      assert r[..|r| - 1] == NatStr(n / 10);
    }
  }

  /** `str(i)` for any integer. */
  function IntStr(i: int): (r: string)
    ensures |r| > 0
    ensures (r[0] == '-') <==> i < 0
    ensures i < 0 ==> r[1..] == NatStr(-i)
    ensures i >= 0 ==> r == NatStr(i)
  {
    if i < 0 then "-" + NatStr(-i) else NatStr(i)
  }

  function HexDigit(d: nat): (c: char)
    requires d < 16
  {
    if d < 10 then DigitChar(d) else (('a' as int) + d - 10) as char
  }

  /** One character inside Python's quoted `repr()` of a string using quote `q`. */
  function EscapeChar(c: char, q: char): (r: string)
    ensures |r| >= 1
    ensures (c != '\\' && c != q && c != '\n' && c != '\r' && c != '\t' && 32 <= c as int && c as int != 127)
            <==> r == [c]
  {
    if c == '\\' then "\\\\"
    else if c == q then ['\\', q]
    else if c == '\n' then "\\n"
    else if c == '\r' then "\\r"
    else if c == '\t' then "\\t"
    else if c as int < 32 || c as int == 127 then
      ['\\', 'x', HexDigit(c as int / 16), HexDigit(c as int % 16)]
    else [c]
  }

  function EscapeAll(s: string, q: char): (r: string)
    ensures |r| >= |s|
    decreases |s|
  {
    if s == [] then [] else EscapeChar(s[0], q) + EscapeAll(s[1..], q)
  }

  /** Python picks double quotes only for a string with a `'` and no `"`. */
  function QuoteFor(s: string): (q: char)
    ensures q == '"' <==> ('\'' in s && '"' !in s)
    ensures q == '"' || q == '\''
  {
    if '\'' in s && '"' !in s then '"' else '\''
  }

  /**
    `repr(s)` for a string, as Python writes it for ASCII text. Non-printable
    characters above 127, which Python also escapes, are kept as they are.
   */
  function StrRepr(s: string): (r: string)
    ensures |r| >= |s| + 2
    ensures r[0] == QuoteFor(s) && r[|r| - 1] == QuoteFor(s)
  {
    var q := QuoteFor(s);
    [q] + EscapeAll(s, q) + [q]
  }

  /** Strings made only of plain characters appear verbatim between the quotes. */
  lemma {:induction false} EscapePlain(s: string, q: char)
    requires forall i :: 0 <= i < |s| ==> s[i] != '\\' && s[i] != q && 32 <= s[i] as int < 127
    ensures EscapeAll(s, q) == s
    decreases |s|
  {
    if s != [] { EscapePlain(s[1..], q); }
  }

  /**
    `repr()` of a decoded value: `None`, `True`, `False`, digits, the float text,
    a quoted string, `[a, b]` for a list and `{'k': v}` for a dict, whose keys
    are written in ascending order (Python writes them in insertion order).
   */
  function Repr(floatRepr: real -> string, j: Json): (r: string)
    ensures j.Arr? ==> |r| >= 2 && r[0] == '[' && r[|r| - 1] == ']'
    ensures j.Obj? ==> |r| >= 2 && r[0] == '{' && r[|r| - 1] == '}'
    ensures j.Str? ==> |r| >= 2 && r[0] == QuoteFor(j.s)
    decreases j, 1
  {
    match j
    case Null => "None"
    case Bool(b) => if b then "True" else "False"
    case Int(i) => IntStr(i)
    case Float(x) => floatRepr(x)
    case Str(s) => StrRepr(s)
    case Arr(xs) => "[" + ReprItems(floatRepr, j, 0) + "]"
    case Obj(m) => "{" + ReprFields(floatRepr, j, SortedKeys(m.Keys)) + "}"
  }

  /** The items of a list from index `i` on, each by its `repr()`, separated by `", "`. */
  function ReprItems(floatRepr: real -> string, j: Json, i: nat): (r: string)
    requires j.Arr? && i <= |j.items|
    decreases j, 0, |j.items| - i
  {
    if i == |j.items| then ""
    else if i + 1 == |j.items| then Repr(floatRepr, j.items[i])
    else Repr(floatRepr, j.items[i]) + ", " + ReprItems(floatRepr, j, i + 1)
  }

  /** The entries `'k': v` of a dict for the keys `ks`, separated by `", "`. */
  function ReprFields(floatRepr: real -> string, j: Json, ks: seq<string>): (r: string)
    requires j.Obj? && forall k :: k in ks ==> k in j.fields
    decreases j, 0, |ks|
  {
    if ks == [] then ""
    else
      var e := StrRepr(ks[0]) + ": " + Repr(floatRepr, j.fields[ks[0]]);
      if |ks| == 1 then e else e + ", " + ReprFields(floatRepr, j, ks[1..])
  }

  /** `str()` of a decoded value: a string is itself, anything else its `repr()`. */
  function PyStr(floatRepr: real -> string, j: Json): (r: string)
    ensures j.Str? ==> r == j.s
    ensures !j.Str? ==> r == Repr(floatRepr, j)
  {
    if j.Str? then j.s else Repr(floatRepr, j)
  }

  /** `str()` forgets the difference between the number 1 and the string "1". */
  lemma PyStrConflatesIntAndDigits(floatRepr: real -> string)
    ensures PyStr(floatRepr, Int(1)) == PyStr(floatRepr, Str("1"))
    ensures Int(1) != Str("1")
  {
  }
}
