/**
  `compare_outputs` and its nested `find_diff`: two outputs match when their
  normal forms are `==`; otherwise the raw (not normalized) values are walked
  and every difference is reported with its path, and the first five
  descriptions make the comment.
 */
module Differ {
  import opened Order
  import opened Seqs
  import opened JsonValue
  import opened Normalization

  datatype Side = Api1 | Api2

  function Other(s: Side): (r: Side)
    ensures r != s
  {
    if s == Api1 then Api2 else Api1
  }

  /** One step of a path: `.key` into a dict or `[i]` into a list. */
  datatype Step = Key(k: string) | Index(i: nat)

  datatype Kind =
    | TypeMismatch
    | OnlyIn(side: Side)
    | LengthMismatch(len1: nat, len2: nat)
    | Extra(side: Side)
    | ValueMismatch(v1: Json, v2: Json)

  /** One difference, at the path below `root` where it was found. */
  datatype Diff = Diff(path: seq<Step>, kind: Kind)

  function Min(a: nat, b: nat): (m: nat)
    ensures m <= a && m <= b && (m == a || m == b)
  {
    if a <= b then a else b
  }

  /** The differences `find_diff(a, b, path)` appends, in order. */
  function DiffSpec(a: Json, b: Json, p: seq<Step>): seq<Diff>
    decreases a, 1
  {
    if Tag(a) != Tag(b) then [Diff(p, TypeMismatch)]
    else if a.Obj? then
      KeyDiffs(a, b, SortedKeys(a.fields.Keys + b.fields.Keys), p)
    else if a.Arr? then ListDiffs(a, b, p)
    else if PyEq(a, b) then []
    else [Diff(p, ValueMismatch(a, b))]
  }

  /** The list branch: a length entry, the common positions, then the extras. */
  function ListDiffs(a: Json, b: Json, p: seq<Step>): seq<Diff>
    requires a.Arr? && b.Arr?
    decreases a, 0, |a.items| + 1
  {
    var n1 := |a.items|;
    var n2 := |b.items|;
    (if n1 != n2 then [Diff(p, LengthMismatch(n1, n2))] else [])
      + ItemDiffs(a, b, p, Min(n1, n2))
      + Extras(p, n1, n2)
  }

  /** The differences for one key of the union of the two dicts' keys. */
  function KeyDiff(a: Json, b: Json, k: string, p: seq<Step>): seq<Diff>
    requires a.Obj? && b.Obj?
    decreases a, 0, 0
  {
    if k !in a.fields then [Diff(p + [Key(k)], OnlyIn(Api2))]
    else if k !in b.fields then [Diff(p + [Key(k)], OnlyIn(Api1))]
    else DiffSpec(a.fields[k], b.fields[k], p + [Key(k)])
  }

  /** The differences for the keys `ks`, visited in order. */
  function KeyDiffs(a: Json, b: Json, ks: seq<string>, p: seq<Step>): seq<Diff>
    requires a.Obj? && b.Obj?
    decreases a, 0, |ks| + 1
  {
    if ks == [] then []
    else KeyDiffs(a, b, ks[..|ks| - 1], p) + KeyDiff(a, b, ks[|ks| - 1], p)
  }

  lemma KeyDiffsSnoc(a: Json, b: Json, keys: seq<string>, i: nat, p: seq<Step>)
    requires a.Obj? && b.Obj? && i < |keys|
    ensures KeyDiffs(a, b, keys[..i + 1], p) == KeyDiffs(a, b, keys[..i], p) + KeyDiff(a, b, keys[i], p)
  {
    assert keys[..i + 1][..i] == keys[..i];
  }

  /** The differences of the first `n` positions of two lists. */
  function ItemDiffs(a: Json, b: Json, p: seq<Step>, n: nat): seq<Diff>
    requires a.Arr? && b.Arr? && n <= |a.items| && n <= |b.items|
    decreases a, 0, n
  {
    if n == 0 then []
    else ItemDiffs(a, b, p, n - 1) + DiffSpec(a.items[n - 1], b.items[n - 1], p + [Index(n - 1)])
  }

  lemma ItemDiffsSnoc(a: Json, b: Json, p: seq<Step>, i: nat)
    requires a.Arr? && b.Arr? && i < |a.items| && i < |b.items|
    ensures ItemDiffs(a, b, p, i + 1)
         == ItemDiffs(a, b, p, i) + DiffSpec(a.items[i], b.items[i], p + [Index(i)])
  {
  }

  /** One "extra" entry for each position only the longer list has. */
  function Extras(p: seq<Step>, n1: nat, n2: nat): (r: seq<Diff>)
    ensures |r| == if n1 >= n2 then n1 - n2 else n2 - n1
    ensures forall i :: 0 <= i < |r| ==>
      r[i] == Diff(p + [Index(Min(n1, n2) + i)], Extra(if n1 > n2 then Api1 else Api2))
  {
    if n1 > n2 then seq(n1 - n2, i requires 0 <= i < n1 - n2 => Diff(p + [Index(n2 + i)], Extra(Api1)))
    else seq(n2 - n1, i requires 0 <= i < n2 - n1 => Diff(p + [Index(n1 + i)], Extra(Api2)))
  }

  /** `find_diff`: walks both values and collects their differences. */
  method FindDiff(a: Json, b: Json, p: seq<Step>) returns (diffs: seq<Diff>)
    ensures diffs == DiffSpec(a, b, p)
    decreases a, 1
  {
    if Tag(a) != Tag(b) {
      diffs := [Diff(p, TypeMismatch)];
    } else if a.Obj? {
      diffs := FindKeyDiffs(a, b, p);
    } else if a.Arr? {
      diffs := FindItemDiffs(a, b, p);
    } else if PyEq(a, b) {
      diffs := [];
    } else {
      diffs := [Diff(p, ValueMismatch(a, b))];
    }
  }

  /** The dict branch of `find_diff`: keys of either side, in sorted order. */
  method FindKeyDiffs(a: Json, b: Json, p: seq<Step>) returns (diffs: seq<Diff>)
    requires a.Obj? && b.Obj?
    ensures diffs == KeyDiffs(a, b, SortedKeys(a.fields.Keys + b.fields.Keys), p)
    decreases a, 0
  {
    var keys := SortedKeys(a.fields.Keys + b.fields.Keys);
    diffs := [];
    var i := 0;
    while i < |keys|
      invariant 0 <= i <= |keys|
      invariant diffs == KeyDiffs(a, b, keys[..i], p)
    {
      var sub := FindOneKeyDiff(a, b, keys[i], p);
      KeyDiffsSnoc(a, b, keys, i, p);
      diffs := diffs + sub;
      i := i + 1;
    }
    assert keys[..|keys|] == keys;
  }

  /** One key of the dict branch: missing on one side, or compared below `.key`. */
  method FindOneKeyDiff(a: Json, b: Json, k: string, p: seq<Step>) returns (sub: seq<Diff>)
    requires a.Obj? && b.Obj?
    ensures sub == KeyDiff(a, b, k, p)
    decreases a, 0, 0
  {
    if k !in a.fields {
      sub := [Diff(p + [Key(k)], OnlyIn(Api2))];
    } else if k !in b.fields {
      sub := [Diff(p + [Key(k)], OnlyIn(Api1))];
    } else {
      sub := FindDiff(a.fields[k], b.fields[k], p + [Key(k)]);
    }
  }

  /** The list branch of `find_diff`: length, common positions, then extras. */
  method FindItemDiffs(a: Json, b: Json, p: seq<Step>) returns (diffs: seq<Diff>)
    requires a.Arr? && b.Arr?
    ensures diffs == ListDiffs(a, b, p)
    decreases a, 0, 1
  {
    var n1 := |a.items|;
    var n2 := |b.items|;
    var lengthEntry := if n1 != n2 then [Diff(p, LengthMismatch(n1, n2))] else [];
    var common := FindCommonDiffs(a, b, p);
    var extras := ExtraEntries(p, n1, n2);
    diffs := lengthEntry + common + extras;
  }

  /** The loop of `find_diff` over the positions both lists have. */
  method FindCommonDiffs(a: Json, b: Json, p: seq<Step>) returns (diffs: seq<Diff>)
    requires a.Arr? && b.Arr?
    ensures diffs == ItemDiffs(a, b, p, Min(|a.items|, |b.items|))
    decreases a, 0, 0
  {
    diffs := [];
    var i := 0;
    while i < Min(|a.items|, |b.items|)
      invariant 0 <= i <= Min(|a.items|, |b.items|)
      invariant diffs == ItemDiffs(a, b, p, i)
    {
      var sub := FindDiff(a.items[i], b.items[i], p + [Index(i)]);
      ItemDiffsSnoc(a, b, p, i);
      diffs := diffs + sub;
      i := i + 1;
    }
  }

  /** The two `extra in` loops of `find_diff`. */
  method ExtraEntries(p: seq<Step>, n1: nat, n2: nat) returns (extras: seq<Diff>)
    ensures extras == Extras(p, n1, n2)
  {
    extras := [];
    if n1 > n2 {
      var i := n2;
      while i < n1
        invariant n2 <= i <= n1
        invariant extras == Extras(p, n1, n2)[..i - n2]
      {
        assert Extras(p, n1, n2)[..i + 1 - n2] == Extras(p, n1, n2)[..i - n2] + [Extras(p, n1, n2)[i - n2]];
        extras := extras + [Diff(p + [Index(i)], Extra(Api1))];
        i := i + 1;
      }
      assert Extras(p, n1, n2)[..n1 - n2] == Extras(p, n1, n2);
    } else if n2 > n1 {
      var i := n1;
      while i < n2
        invariant n1 <= i <= n2
        invariant extras == Extras(p, n1, n2)[..i - n1]
      {
        assert Extras(p, n1, n2)[..i + 1 - n1] == Extras(p, n1, n2)[..i - n1] + [Extras(p, n1, n2)[i - n1]];
        extras := extras + [Diff(p + [Index(i)], Extra(Api2))];
        i := i + 1;
      }
      assert Extras(p, n1, n2)[..n2 - n1] == Extras(p, n1, n2);
    }
  }

  // ---------------------------------------------------------------------
  // Rendering
  // ---------------------------------------------------------------------

  function StepText(s: Step): string {
    match s
    case Key(k) => "." + k
    case Index(i) => "[" + NatStr(i) + "]"
  }

  function StepsText(p: seq<Step>): string
    decreases |p|
  {
    if p == [] then "" else StepsText(p[..|p| - 1]) + StepText(p[|p| - 1])
  }

  /** The path as `find_diff` spells it: `root`, then `.key` and `[i]` steps. */
  function PathText(p: seq<Step>): (r: string)
    ensures |r| >= 4 && r[..4] == "root"
  {
    "root" + StepsText(p)
  }

  function SideText(s: Side): string {
    if s == Api1 then "api_1" else "api_2"
  }

  function KindText(floatRepr: real -> string, k: Kind): string {
    match k
    case TypeMismatch => ": type mismatch"
    case OnlyIn(s) => ": only in " + SideText(s)
    case LengthMismatch(n1, n2) =>
      ": length mismatch (api_1=" + NatStr(n1) + ", api_2=" + NatStr(n2) + ")"
    case Extra(s) => ": extra in " + SideText(s)
    case ValueMismatch(v1, v2) =>
      ": api_1=" + Repr(floatRepr, v1) + ", api_2=" + Repr(floatRepr, v2)
  }

  /** The message `find_diff` appends for one difference. */
  function Render(floatRepr: real -> string, d: Diff): (r: string)
    ensures |r| >= 4 && r[..4] == "root"
  {
    PathText(d.path) + KindText(floatRepr, d.kind)
  }

  /** `sep.join(parts)`. */
  function Join(parts: seq<string>, sep: string): (r: string)
    ensures parts == [] ==> r == ""
    ensures |parts| == 1 ==> r == parts[0]
    ensures |parts| > 1 ==> r == parts[0] + sep + Join(parts[1..], sep)
    decreases |parts|
  {
    if parts == [] then ""
    else if |parts| == 1 then parts[0]
    else parts[0] + sep + Join(parts[1..], sep)
  }

  /** `" | ".join(comments[:5])` over the rendered differences. */
  function Comment(floatRepr: real -> string, ds: seq<Diff>): (r: string)
    ensures r == "" <==> ds == []
    ensures ds != [] ==> Render(floatRepr, ds[0]) <= r
  {
    Join(MapSeq(d => Render(floatRepr, d), ds[..Min(5, |ds|)]), " | ")
  }

  /** The `(is_match, comment)` pair `compare_outputs` returns. */
  function Verdict(codec: Codec, output1: Json, output2: Json): (bool, string) {
    if PyEq(Normalize(codec.dumps, output1), Normalize(codec.dumps, output2)) then (true, "MATCH")
    else
      var ds := DiffSpec(output1, output2, []);
      (false, if ds == [] then "Structure mismatch" else Comment(codec.floatRepr, ds))
  }

  /** `compare_outputs`. */
  method CompareOutputs(codec: Codec, output1: Json, output2: Json) returns (isMatch: bool, comment: string)
    ensures (isMatch, comment) == Verdict(codec, output1, output2)
  {
    var norm1 := Normalize(codec.dumps, output1);
    var norm2 := Normalize(codec.dumps, output2);
    if PyEq(norm1, norm2) {
      return true, "MATCH";
    }
    var comments := FindDiff(output1, output2, []);
    isMatch := false;
    comment := if comments == [] then "Structure mismatch" else Comment(codec.floatRepr, comments);
  }
}
