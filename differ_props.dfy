/** What `compare_outputs` and `find_diff` guarantee. */
module DifferProps {
  import opened Order
  import opened Seqs
  import opened JsonValue
  import opened Normalization
  import opened Differ

  // ---------------------------------------------------------------------
  // A value has no differences with itself, and only with itself
  // ---------------------------------------------------------------------

  lemma {:induction false} DiffSelf(a: Json, p: seq<Step>)
    ensures DiffSpec(a, a, p) == []
    decreases a, 1
  {
    if a.Obj? {
      var ks := SortedKeys(a.fields.Keys + a.fields.Keys);
      forall i | 0 <= i < |ks| ensures ks[i] in a.fields { assert ks[i] in ks; }
      KeyDiffsSelf(a, ks, p);
    } else if a.Arr? {
      ItemDiffsSelf(a, p, |a.items|);
    } else {
      PyEqRefl(a);
    }
  }

  lemma {:induction false} KeyDiffsSelf(a: Json, ks: seq<string>, p: seq<Step>)
    requires a.Obj?
    requires forall i :: 0 <= i < |ks| ==> ks[i] in a.fields
    ensures KeyDiffs(a, a, ks, p) == []
    decreases a, 0, |ks|
  {
    if ks != [] {
      KeyDiffsSelf(a, ks[..|ks| - 1], p);
      DiffSelf(a.fields[ks[|ks| - 1]], p + [Key(ks[|ks| - 1])]);
    }
  }

  lemma {:induction false} ItemDiffsSelf(a: Json, p: seq<Step>, n: nat)
    requires a.Arr? && n <= |a.items|
    ensures ItemDiffs(a, a, p, n) == []
    decreases a, 0, n
  {
    if n > 0 {
      ItemDiffsSelf(a, p, n - 1);
      DiffSelf(a.items[n - 1], p + [Index(n - 1)]);
    }
  }

  /** When `find_diff` reports nothing, the two values are the same value. */
  lemma {:induction false} DiffEmptyImpliesEqual(a: Json, b: Json, p: seq<Step>)
    requires DiffSpec(a, b, p) == []
    ensures a == b
    decreases a, 1
  {
    TagDistinguishesConstructors(a, b);
    if a.Obj? {
      ObjectDiffEmptyImpliesEqual(a, b, p);
    } else if a.Arr? {
      ListDiffEmptyImpliesEqual(a, b, p);
    } else {
      PyEqSameTagScalar(a, b);
    }
  }

  lemma {:induction false} ObjectDiffEmptyImpliesEqual(a: Json, b: Json, p: seq<Step>)
    requires a.Obj? && b.Obj?
    requires KeyDiffs(a, b, SortedKeys(a.fields.Keys + b.fields.Keys), p) == []
    ensures a == b
    decreases a, 0, |a.fields.Keys + b.fields.Keys| + 1
  {
    var ks := SortedKeys(a.fields.Keys + b.fields.Keys);
    KeyDiffsEmpty(a, b, ks, p);
    SameFieldsFromKeys(a.fields, b.fields, ks);
  }

  lemma SameFieldsFromKeys(m1: map<string, Json>, m2: map<string, Json>, ks: seq<string>)
    requires forall k :: k in ks <==> k in m1.Keys + m2.Keys
    requires forall i :: 0 <= i < |ks| ==> ks[i] in m1 && ks[i] in m2 && m1[ks[i]] == m2[ks[i]]
    ensures m1 == m2
  {
    forall k | k in m1.Keys + m2.Keys ensures k in m1 && k in m2 && m1[k] == m2[k] {
      var i :| 0 <= i < |ks| && ks[i] == k;
    }
    assert m1.Keys == m2.Keys;
  }

  lemma {:induction false} ListDiffEmptyImpliesEqual(a: Json, b: Json, p: seq<Step>)
    requires a.Arr? && b.Arr?
    requires ListDiffs(a, b, p) == []
    ensures a == b
    decreases a, 0, |a.items| + 1
  {
    assert |a.items| == |b.items|;
    ItemDiffsEmpty(a, b, p, |a.items|);
    assert a.items == b.items;
  }

  lemma {:induction false} KeyDiffsEmpty(a: Json, b: Json, ks: seq<string>, p: seq<Step>)
    requires a.Obj? && b.Obj?
    requires KeyDiffs(a, b, ks, p) == []
    ensures forall i :: 0 <= i < |ks| ==>
      ks[i] in a.fields && ks[i] in b.fields && a.fields[ks[i]] == b.fields[ks[i]]
    decreases a, 0, |ks|
  {
    if ks != [] {
      var k := ks[|ks| - 1];
      KeyDiffsEmpty(a, b, ks[..|ks| - 1], p);
      DiffEmptyImpliesEqual(a.fields[k], b.fields[k], p + [Key(k)]);
      forall i | 0 <= i < |ks| - 1
        ensures ks[i] in a.fields && ks[i] in b.fields && a.fields[ks[i]] == b.fields[ks[i]]
      {
        assert ks[i] == ks[..|ks| - 1][i];
      }
    }
  }

  lemma {:induction false} ItemDiffsEmpty(a: Json, b: Json, p: seq<Step>, n: nat)
    requires a.Arr? && b.Arr? && n <= |a.items| && n <= |b.items|
    requires ItemDiffs(a, b, p, n) == []
    ensures forall i :: 0 <= i < n ==> a.items[i] == b.items[i]
    decreases a, 0, n
  {
    if n > 0 {
      ItemDiffsEmpty(a, b, p, n - 1);
      DiffEmptyImpliesEqual(a.items[n - 1], b.items[n - 1], p + [Index(n - 1)]);
    }
  }

  /** `find_diff(a, b)` is empty exactly when `a` and `b` are the same value. */
  lemma DiffEmptyIff(a: Json, b: Json, p: seq<Step>)
    ensures DiffSpec(a, b, p) == [] <==> a == b
  {
    if a == b { DiffSelf(a, p); }
    if DiffSpec(a, b, p) == [] { DiffEmptyImpliesEqual(a, b, p); }
  }

  // ---------------------------------------------------------------------
  // The verdict
  // ---------------------------------------------------------------------

  lemma JoinStartsWithFirst(parts: seq<string>, sep: string)
    requires parts != [] && |parts[0]| >= 4
    ensures |Join(parts, sep)| >= 4 && Join(parts, sep)[..4] == parts[0][..4]
  {
    if |parts| > 1 {
      assert Join(parts, sep) == parts[0] + (sep + Join(parts[1..], sep));
    }
  }

  lemma CommentStartsWithRoot(floatRepr: real -> string, ds: seq<Diff>)
    requires ds != []
    ensures |Comment(floatRepr, ds)| >= 4 && Comment(floatRepr, ds)[..4] == "root"
  {
    var parts := MapSeq(d => Render(floatRepr, d), ds[..Min(5, |ds|)]);
    assert parts[0] == Render(floatRepr, ds[0]);
    JoinStartsWithFirst(parts, " | ");
  }

  /** Differences after the fifth never reach the comment. */
  lemma CommentKeepsFirstFive(floatRepr: real -> string, ds: seq<Diff>, more: seq<Diff>)
    requires |ds| >= 5
    ensures Comment(floatRepr, ds + more) == Comment(floatRepr, ds)
  {
    assert (ds + more)[..5] == ds[..5];
  }

  /** Up to five differences: each one is rendered, in order, joined by `" | "`. */
  lemma CommentOfFewDiffs(floatRepr: real -> string, ds: seq<Diff>)
    requires |ds| <= 5
    ensures |ds| == 1 ==> Comment(floatRepr, ds) == Render(floatRepr, ds[0])
    ensures |ds| > 1 ==> Comment(floatRepr, ds) == Render(floatRepr, ds[0]) + " | " + Comment(floatRepr, ds[1..])
  {
    var parts := MapSeq(d => Render(floatRepr, d), ds);
    assert ds[..Min(5, |ds|)] == ds;
    if |ds| > 1 {
      assert ds[1..][..Min(5, |ds[1..]|)] == ds[1..];
      assert parts[1..] == MapSeq(d => Render(floatRepr, d), ds[1..]);
    }
  }

  /** A value always matches itself. */
  lemma VerdictSelf(codec: Codec, a: Json)
    ensures Verdict(codec, a, a) == (true, "MATCH")
  {
    PyEqRefl(Normalize(codec.dumps, a));
  }

  /**
    The "Structure mismatch" fallback is never produced: every mismatch has at
    least one difference, and the comment then starts with its path.
   */
  lemma VerdictNeverStructureMismatch(codec: Codec, a: Json, b: Json)
    ensures !Verdict(codec, a, b).0 ==> DiffSpec(a, b, []) != []
    ensures Verdict(codec, a, b).1 != "Structure mismatch"
    ensures !Verdict(codec, a, b).0 ==> Verdict(codec, a, b).1[..4] == "root"
  {
    if !Verdict(codec, a, b).0 {
      if DiffSpec(a, b, []) == [] {
        DiffEmptyImpliesEqual(a, b, []);
        PyEqRefl(Normalize(codec.dumps, a));
        assert false;
      }
      CommentStartsWithRoot(codec.floatRepr, DiffSpec(a, b, []));
      var c := Verdict(codec, a, b).1;
      assert c[..4][0] == 'r';
      assert "Structure mismatch"[..4][0] == 'S';
    }
  }

  /** Which side is called api_1 does not change whether two outputs match. */
  lemma VerdictSymmetric(codec: Codec, a: Json, b: Json)
    ensures Verdict(codec, a, b).0 == Verdict(codec, b, a).0
  {
    var na := Normalize(codec.dumps, a);
    var nb := Normalize(codec.dumps, b);
    if PyEq(na, nb) { PyEqSym(na, nb); }
    if PyEq(nb, na) { PyEqSym(nb, na); }
  }

  /** Two lists of dicts holding the same items in another order match. */
  lemma VerdictDictListReordered(codec: Codec, xs: seq<Json>, ys: seq<Json>)
    requires DumpsInjective(codec.dumps)
    requires |xs| > 0 && xs[0].Obj? && |ys| > 0 && ys[0].Obj?
    requires multiset(xs) == multiset(ys)
    ensures Verdict(codec, Arr(xs), Arr(ys)) == (true, "MATCH")
  {
    NormalizeDictListOrderInsensitive(codec.dumps, xs, ys);
    PyEqRefl(Normalize(codec.dumps, Arr(ys)));
  }

  lemma SortedSingleKey(k: string)
    ensures SortedKeys({k}) == [k]
  {
    var r := SortedKeys({k});
    assert r[0] in {k};
  }

  /**
    `True` and `1` are `==` in Python, so `{"x": true}` matches `{"x": 1}`,
    although `find_diff` on the same pair would report a type mismatch.
   */
  lemma VerdictBoolIntQuirk(codec: Codec)
    ensures Verdict(codec, Obj(map["x" := Bool(true)]), Obj(map["x" := Int(1)])) == (true, "MATCH")
    ensures DiffSpec(Obj(map["x" := Bool(true)]), Obj(map["x" := Int(1)]), [])
         == [Diff([Key("x")], TypeMismatch)]
  {
    var a := Obj(map["x" := Bool(true)]);
    var b := Obj(map["x" := Int(1)]);
    assert a.fields.Keys + b.fields.Keys == {"x"};
    SortedSingleKey("x");
    assert KeyDiffs(a, b, ["x"], []) == KeyDiffs(a, b, [], []) + KeyDiff(a, b, "x", []);
    assert KeyDiff(a, b, "x", []) == DiffSpec(Bool(true), Int(1), [] + [Key("x")]);
    assert [] + [Key("x")] == [Key("x")];
    NormalizeObject(codec.dumps, a.fields, "x");
    NormalizeObject(codec.dumps, b.fields, "x");
    var na := Normalize(codec.dumps, a);
    var nb := Normalize(codec.dumps, b);
    assert na.fields.Keys == {"x"} == nb.fields.Keys;
    assert na.fields["x"] == Bool(true) && nb.fields["x"] == Int(1);
    assert PyEq(na.fields["x"], nb.fields["x"]);
    assert PyEq(na, nb);
  }

  // ---------------------------------------------------------------------
  // Paths
  // ---------------------------------------------------------------------

  /** `d` was found at `p` or below it. */
  predicate Under(d: Diff, p: seq<Step>) {
    |d.path| >= |p| && d.path[..|p|] == p
  }

  lemma UnderStep(d: Diff, p: seq<Step>, s: Step)
    requires Under(d, p + [s])
    ensures Under(d, p) && |d.path| > |p| && d.path[|p|] == s
  {
    assert d.path[..|p|] == d.path[..|p| + 1][..|p|];
  }

  /**
    Every difference lies at or below the path it was searched from, and
    one-sided keys and extra items are reported one step below it.
   */
  lemma {:induction false} DiffPaths(a: Json, b: Json, p: seq<Step>)
    ensures forall d :: d in DiffSpec(a, b, p) ==> Under(d, p)
    ensures forall d :: d in DiffSpec(a, b, p) && (d.kind.OnlyIn? || d.kind.Extra?) ==> |d.path| > |p|
    decreases a, 1
  {
    if Tag(a) != Tag(b) {
    } else if a.Obj? {
      KeyDiffsPaths(a, b, SortedKeys(a.fields.Keys + b.fields.Keys), p);
    } else if a.Arr? {
      ItemDiffsPaths(a, b, p, Min(|a.items|, |b.items|));
      var ex := Extras(p, |a.items|, |b.items|);
      forall d | d in ex ensures Under(d, p) && |d.path| > |p| {
        var i :| 0 <= i < |ex| && ex[i] == d;
        assert d.path == p + [Index(Min(|a.items|, |b.items|) + i)];
        assert d.path[..|p|] == p;
      }
    }
  }

  lemma {:induction false} KeyDiffsPaths(a: Json, b: Json, ks: seq<string>, p: seq<Step>)
    requires a.Obj? && b.Obj?
    ensures forall d :: d in KeyDiffs(a, b, ks, p) ==> Under(d, p) && |d.path| > |p|
    decreases a, 0, |ks|
  {
    if ks != [] {
      var k := ks[|ks| - 1];
      KeyDiffsPaths(a, b, ks[..|ks| - 1], p);
      var q := p + [Key(k)];
      assert q[..|p|] == p;
      if k in a.fields && k in b.fields {
        DiffPaths(a.fields[k], b.fields[k], q);
      }
      forall d | d in KeyDiff(a, b, k, p) ensures Under(d, p) && |d.path| > |p| {
        UnderStep(d, p, Key(k));
      }
    }
  }

  lemma {:induction false} ItemDiffsPaths(a: Json, b: Json, p: seq<Step>, n: nat)
    requires a.Arr? && b.Arr? && n <= |a.items| && n <= |b.items|
    ensures forall d :: d in ItemDiffs(a, b, p, n) ==> Under(d, p) && |d.path| > |p|
    decreases a, 0, n
  {
    if n > 0 {
      ItemDiffsPaths(a, b, p, n - 1);
      var q := p + [Index(n - 1)];
      DiffPaths(a.items[n - 1], b.items[n - 1], q);
      forall d | d in DiffSpec(a.items[n - 1], b.items[n - 1], q) ensures Under(d, p) && |d.path| > |p| {
        UnderStep(d, p, Index(n - 1));
      }
    }
  }

  lemma KeyDiffsMember(a: Json, b: Json, ks: seq<string>, p: seq<Step>, d: Diff)
    requires a.Obj? && b.Obj?
    ensures d in KeyDiffs(a, b, ks, p) <==> exists i :: 0 <= i < |ks| && d in KeyDiff(a, b, ks[i], p)
    decreases |ks|
  {
    if ks != [] {
      var init := ks[..|ks| - 1];
      KeyDiffsMember(a, b, init, p, d);
      if exists i :: 0 <= i < |init| && d in KeyDiff(a, b, init[i], p) {
        var i :| 0 <= i < |init| && d in KeyDiff(a, b, init[i], p);
        assert init[i] == ks[i];
      }
      if exists i :: 0 <= i < |ks| && d in KeyDiff(a, b, ks[i], p) {
        var i :| 0 <= i < |ks| && d in KeyDiff(a, b, ks[i], p);
        if i < |init| { assert init[i] == ks[i]; }
      }
    }
  }

  /** The one-sided key entry for `k` is found directly below the dict only for `k` itself. */
  lemma OnlyInFrom(m1: map<string, Json>, m2: map<string, Json>, p: seq<Step>, k: string, s: Side)
    requires Diff(p + [Key(k)], OnlyIn(s)) in DiffSpec(Obj(m1), Obj(m2), p)
    ensures if s == Api2 then k in m2 && k !in m1 else k in m1 && k !in m2
  {
    var a := Obj(m1);
    var b := Obj(m2);
    var ks := SortedKeys(m1.Keys + m2.Keys);
    var d := Diff(p + [Key(k)], OnlyIn(s));
    DiffSpecObj(m1, m2, p);
    KeyDiffsMember(a, b, ks, p, d);
    var i :| 0 <= i < |ks| && d in KeyDiff(a, b, ks[i], p);
    assert ks[i] in ks;
    OneKeyOnlyIn(m1, m2, p, ks[i], k, s);
  }

  /** A one-sided entry one step below the dict comes from a key on one side only. */
  lemma OneKeyOnlyIn(m1: map<string, Json>, m2: map<string, Json>, p: seq<Step>, k': string, k: string, s: Side)
    requires k' in m1 || k' in m2
    requires Diff(p + [Key(k)], OnlyIn(s)) in KeyDiff(Obj(m1), Obj(m2), k', p)
    ensures k' == k && if s == Api2 then k in m2 && k !in m1 else k in m1 && k !in m2
  {
    if k' in m1 && k' in m2 {
      DiffPaths(m1[k'], m2[k'], p + [Key(k')]);
      assert false;
    }
    assert (p + [Key(k)])[|p|] == Key(k) && (p + [Key(k')])[|p|] == Key(k');
  }

  /**
    A key is reported "only in api_2" (or "only in api_1") directly below a
    dict exactly when that key is present on that side alone.
   */
  lemma OnlyInIff(m1: map<string, Json>, m2: map<string, Json>, p: seq<Step>, k: string, s: Side)
    ensures Diff(p + [Key(k)], OnlyIn(s)) in DiffSpec(Obj(m1), Obj(m2), p)
        <==> (if s == Api2 then k in m2 && k !in m1 else k in m1 && k !in m2)
  {
    if Diff(p + [Key(k)], OnlyIn(s)) in DiffSpec(Obj(m1), Obj(m2), p) {
      OnlyInFrom(m1, m2, p, k, s);
    }
    if (if s == Api2 then k in m2 && k !in m1 else k in m1 && k !in m2) {
      OnlyInTo(m1, m2, p, k, s);
    }
  }

  lemma OnlyInTo(m1: map<string, Json>, m2: map<string, Json>, p: seq<Step>, k: string, s: Side)
    requires if s == Api2 then k in m2 && k !in m1 else k in m1 && k !in m2
    ensures Diff(p + [Key(k)], OnlyIn(s)) in DiffSpec(Obj(m1), Obj(m2), p)
  {
    var ks := SortedKeys(m1.Keys + m2.Keys);
    assert k in m1.Keys + m2.Keys;
    KeyDiffOneSided(m1, m2, p, k, s);
    KeyDiffsHasKey(Obj(m1), Obj(m2), ks, k, p, Diff(p + [Key(k)], OnlyIn(s)));
    DiffSpecObj(m1, m2, p);
  }

  lemma {:induction false} KeyDiffsHasKey(a: Json, b: Json, ks: seq<string>, k: string, p: seq<Step>, d: Diff)
    requires a.Obj? && b.Obj? && k in ks && d in KeyDiff(a, b, k, p)
    ensures d in KeyDiffs(a, b, ks, p)
    decreases |ks|
  {
    if ks[|ks| - 1] != k {
      assert k in ks[..|ks| - 1];
      KeyDiffsHasKey(a, b, ks[..|ks| - 1], k, p, d);
    }
  }

  lemma KeyDiffOneSided(m1: map<string, Json>, m2: map<string, Json>, p: seq<Step>, k: string, s: Side)
    requires if s == Api2 then k in m2 && k !in m1 else k in m1 && k !in m2
    ensures Diff(p + [Key(k)], OnlyIn(s)) in KeyDiff(Obj(m1), Obj(m2), k, p)
  {
  }

  lemma DiffSpecObj(m1: map<string, Json>, m2: map<string, Json>, p: seq<Step>)
    ensures DiffSpec(Obj(m1), Obj(m2), p) == KeyDiffs(Obj(m1), Obj(m2), SortedKeys(m1.Keys + m2.Keys), p)
  {
    assert Tag(Obj(m1)) == 6 == Tag(Obj(m2));
  }

  /** A length entry sits at the list's own path exactly when the lengths differ. */
  lemma LengthMismatchIff(xs: seq<Json>, ys: seq<Json>, p: seq<Step>, n1: nat, n2: nat)
    ensures Diff(p, LengthMismatch(n1, n2)) in DiffSpec(Arr(xs), Arr(ys), p)
        <==> (|xs| != |ys| && n1 == |xs| && n2 == |ys|)
  {
    var a := Arr(xs);
    var b := Arr(ys);
    var d := Diff(p, LengthMismatch(n1, n2));
    ItemDiffsPaths(a, b, p, Min(|xs|, |ys|));
    var ex := Extras(p, |xs|, |ys|);
    assert forall i :: 0 <= i < |ex| ==> ex[i].kind.Extra?;
  }

  // ---------------------------------------------------------------------
  // Swapping the two sides
  // ---------------------------------------------------------------------

  function SwapKind(k: Kind): Kind {
    match k
    case TypeMismatch => TypeMismatch
    case OnlyIn(s) => OnlyIn(Other(s))
    case LengthMismatch(n1, n2) => LengthMismatch(n2, n1)
    case Extra(s) => Extra(Other(s))
    case ValueMismatch(v1, v2) => ValueMismatch(v2, v1)
  }

  /** The same difference as seen with api_1 and api_2 exchanged. */
  function Swap(d: Diff): Diff {
    Diff(d.path, SwapKind(d.kind))
  }

  lemma MapSeqAppend<A, B>(f: A -> B, s: seq<A>, t: seq<A>)
    ensures MapSeq(f, s + t) == MapSeq(f, s) + MapSeq(f, t)
  {
  }

  /** Exchanging the two values reports the same differences with the sides exchanged. */
  lemma {:induction false} DiffSwap(a: Json, b: Json, p: seq<Step>)
    ensures DiffSpec(b, a, p) == MapSeq(Swap, DiffSpec(a, b, p))
    decreases a, 1
  {
    if Tag(a) != Tag(b) {
    } else if a.Obj? {
      assert b.fields.Keys + a.fields.Keys == a.fields.Keys + b.fields.Keys;
      var ks := SortedKeys(a.fields.Keys + b.fields.Keys);
      forall i | 0 <= i < |ks| ensures ks[i] in a.fields || ks[i] in b.fields { assert ks[i] in ks; }
      KeyDiffsSwap(a, b, ks, p);
    } else if a.Arr? {
      var n1 := |a.items|;
      var n2 := |b.items|;
      ItemDiffsSwap(a, b, p, Min(n1, n2));
      assert Min(n2, n1) == Min(n1, n2);
      var head := if n1 != n2 then [Diff(p, LengthMismatch(n1, n2))] else [];
      assert MapSeq(Swap, Extras(p, n1, n2)) == Extras(p, n2, n1);
      assert MapSeq(Swap, head) == if n2 != n1 then [Diff(p, LengthMismatch(n2, n1))] else [];
      MapSeqAppend(Swap, head, ItemDiffs(a, b, p, Min(n1, n2)));
      MapSeqAppend(Swap, head + ItemDiffs(a, b, p, Min(n1, n2)), Extras(p, n1, n2));
    } else {
      if PyEq(a, b) { PyEqSym(a, b); }
      if PyEq(b, a) { PyEqSym(b, a); }
    }
  }

  lemma {:induction false} KeyDiffsSwap(a: Json, b: Json, ks: seq<string>, p: seq<Step>)
    requires a.Obj? && b.Obj?
    requires forall i :: 0 <= i < |ks| ==> ks[i] in a.fields || ks[i] in b.fields
    ensures KeyDiffs(b, a, ks, p) == MapSeq(Swap, KeyDiffs(a, b, ks, p))
    decreases a, 0, |ks|
  {
    if ks != [] {
      var k := ks[|ks| - 1];
      assert forall i :: 0 <= i < |ks| - 1 ==> ks[..|ks| - 1][i] == ks[i];
      KeyDiffsSwap(a, b, ks[..|ks| - 1], p);
      if k in a.fields && k in b.fields {
        DiffSwap(a.fields[k], b.fields[k], p + [Key(k)]);
      }
      MapSeqAppend(Swap, KeyDiffs(a, b, ks[..|ks| - 1], p), KeyDiff(a, b, k, p));
    }
  }

  lemma {:induction false} ItemDiffsSwap(a: Json, b: Json, p: seq<Step>, n: nat)
    requires a.Arr? && b.Arr? && n <= |a.items| && n <= |b.items|
    ensures ItemDiffs(b, a, p, n) == MapSeq(Swap, ItemDiffs(a, b, p, n))
    decreases a, 0, n
  {
    if n > 0 {
      ItemDiffsSwap(a, b, p, n - 1);
      DiffSwap(a.items[n - 1], b.items[n - 1], p + [Index(n - 1)]);
      MapSeqAppend(Swap, ItemDiffs(a, b, p, n - 1),
        DiffSpec(a.items[n - 1], b.items[n - 1], p + [Index(n - 1)]));
    }
  }
}
