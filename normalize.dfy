/**
  `normalize_json`: dict values are normalized recursively; a list whose first
  item is a dict is normalized item by item and then sorted by the
  `json.dumps(item, sort_keys=True)` text of each item; any other list is
  normalized item by item and keeps its order; scalars are left alone.
 */
module Normalization {
  import opened Order
  import opened Seqs
  import opened JsonValue

  /** The sort key order: `a` goes no later than `b` when its dumps text is not greater. */
  function DumpsOrder(dumps: Json -> string): (Json, Json) -> bool {
    (x: Json, y: Json) => StrLe(dumps(x), dumps(y))
  }

  function Normalize(dumps: Json -> string, j: Json): (r: Json)
    ensures Tag(r) == Tag(j)
    ensures j.Obj? ==> r.fields.Keys == j.fields.Keys
    ensures j.Arr? ==> |r.items| == |j.items|
    ensures !j.Arr? && !j.Obj? ==> r == j
    decreases j
  {
    match j
    case Obj(m) => Obj(map k | k in m :: Normalize(dumps, m[k]))
    case Arr(xs) =>
      var ys := NormalizeItems(dumps, xs);
      if |xs| > 0 && xs[0].Obj? then Arr(SortBy(ys, DumpsOrder(dumps))) else Arr(ys)
    case _ => j
  }

  /** The items of a list, each normalized, in their original order. */
  function NormalizeItems(dumps: Json -> string, xs: seq<Json>): (ys: seq<Json>)
    ensures |ys| == |xs|
    ensures forall i :: 0 <= i < |xs| ==> ys[i] == Normalize(dumps, xs[i])
    decreases xs
  {
    seq(|xs|, i requires 0 <= i < |xs| => Normalize(dumps, xs[i]))
  }

  lemma DumpsOrderTotal(dumps: Json -> string)
    ensures TotalPreorder(DumpsOrder(dumps))
  {
    var le := DumpsOrder(dumps);
    forall a, b ensures le(a, b) || le(b, a) { StrLeTotal(dumps(a), dumps(b)); }
    forall a, b, c | le(a, b) && le(b, c) ensures le(a, c) {
      StrLeTrans(dumps(a), dumps(b), dumps(c));
    }
  }

  lemma DumpsOrderAntisymmetric(dumps: Json -> string)
    requires DumpsInjective(dumps)
    ensures Antisymmetric(DumpsOrder(dumps))
  {
    var le := DumpsOrder(dumps);
    forall a, b | le(a, b) && le(b, a) ensures a == b { StrLeAntisym(dumps(a), dumps(b)); }
  }

  /** A dict is normalized key by key: the keys stay and each value is normalized. */
  lemma NormalizeObject(dumps: Json -> string, m: map<string, Json>, k: string)
    requires k in m
    ensures k in Normalize(dumps, Obj(m)).fields
    ensures Normalize(dumps, Obj(m)).fields[k] == Normalize(dumps, m[k])
  {
  }

  /** A list of dicts comes out as its normalized items, sorted by their dumps text. */
  lemma NormalizeDictList(dumps: Json -> string, xs: seq<Json>)
    requires |xs| > 0 && xs[0].Obj?
    ensures Normalize(dumps, Arr(xs)).items == SortBy(NormalizeItems(dumps, xs), DumpsOrder(dumps))
    ensures SortedBy(Normalize(dumps, Arr(xs)).items, DumpsOrder(dumps))
    ensures multiset(Normalize(dumps, Arr(xs)).items) == multiset(NormalizeItems(dumps, xs))
  {
    DumpsOrderTotal(dumps);
    SortBySorted(NormalizeItems(dumps, xs), DumpsOrder(dumps));
  }

  /** Any other list keeps its order, item by item. */
  lemma NormalizeOtherList(dumps: Json -> string, xs: seq<Json>)
    requires xs == [] || !xs[0].Obj?
    ensures Normalize(dumps, Arr(xs)).items == NormalizeItems(dumps, xs)
  {
  }

  /**
    Reordering the items of a list of dicts does not change its normal form,
    so the comparator reports such lists as a match.
   */
  lemma NormalizeDictListOrderInsensitive(dumps: Json -> string, xs: seq<Json>, ys: seq<Json>)
    requires DumpsInjective(dumps)
    requires |xs| > 0 && xs[0].Obj? && |ys| > 0 && ys[0].Obj?
    requires multiset(xs) == multiset(ys)
    ensures Normalize(dumps, Arr(xs)) == Normalize(dumps, Arr(ys))
  {
    DumpsOrderTotal(dumps);
    DumpsOrderAntisymmetric(dumps);
    var f := x => Normalize(dumps, x);
    MapSeqMultiset(f, xs, ys);
    assert NormalizeItems(dumps, xs) == MapSeq(f, xs);
    assert NormalizeItems(dumps, ys) == MapSeq(f, ys);
    NormalizeDictList(dumps, xs);
    NormalizeDictList(dumps, ys);
    SortByPermutationInvariant(NormalizeItems(dumps, xs), NormalizeItems(dumps, ys), DumpsOrder(dumps));
  }

  /** A list of scalars is order-sensitive: `[1, 2]` and `[2, 1]` stay different. */
  lemma NormalizeScalarListOrderSensitive(dumps: Json -> string)
    ensures Normalize(dumps, Arr([Int(1), Int(2)])) == Arr([Int(1), Int(2)])
    ensures Normalize(dumps, Arr([Int(2), Int(1)])) == Arr([Int(2), Int(1)])
  {
    NormalizeOtherList(dumps, [Int(1), Int(2)]);
    NormalizeOtherList(dumps, [Int(2), Int(1)]);
  }

  /** Only the first item decides: a list starting with a scalar is not sorted even if dicts follow. */
  lemma NormalizeFirstItemDecides(dumps: Json -> string, m1: map<string, Json>, m2: map<string, Json>)
    ensures Normalize(dumps, Arr([Null, Obj(m1), Obj(m2)])).items
         == [Null, Normalize(dumps, Obj(m1)), Normalize(dumps, Obj(m2))]
  {
    NormalizeOtherList(dumps, [Null, Obj(m1), Obj(m2)]);
  }

  /** Items that are already normal forms stay put when their list is normalized again. */
  lemma NormalizeItemsOfNormal(dumps: Json -> string, xs: seq<Json>)
    requires forall k :: 0 <= k < |xs| ==> Normalize(dumps, xs[k]) == xs[k]
    ensures NormalizeItems(dumps, xs) == xs
  {
  }

  lemma PermutedNormalForms(dumps: Json -> string, xs: seq<Json>, n: seq<Json>)
    requires forall k :: 0 <= k < |xs| ==>
      Normalize(dumps, Normalize(dumps, xs[k])) == Normalize(dumps, xs[k])
    requires multiset(n) == multiset(NormalizeItems(dumps, xs))
    ensures forall i :: 0 <= i < |n| ==> Normalize(dumps, n[i]) == n[i]
  {
    var ys := NormalizeItems(dumps, xs);
    forall i | 0 <= i < |n| ensures Normalize(dumps, n[i]) == n[i] {
      assert n[i] in multiset(ys);
      var k :| 0 <= k < |ys| && ys[k] == n[i];
    }
  }

  /** A sorted list of normal forms whose first item is a dict is its own normal form. */
  lemma SortedNormalList(dumps: Json -> string, n: seq<Json>)
    requires DumpsInjective(dumps)
    requires forall i :: 0 <= i < |n| ==> Normalize(dumps, n[i]) == n[i]
    requires SortedBy(n, DumpsOrder(dumps))
    requires |n| > 0 && n[0].Obj?
    ensures Normalize(dumps, Arr(n)) == Arr(n)
  {
    DumpsOrderTotal(dumps);
    DumpsOrderAntisymmetric(dumps);
    NormalizeItemsOfNormal(dumps, n);
    NormalizeDictList(dumps, n);
    SortedUnique(Normalize(dumps, Arr(n)).items, n, DumpsOrder(dumps));
  }

  lemma NormalizeListIdempotent(dumps: Json -> string, xs: seq<Json>)
    requires DumpsInjective(dumps)
    requires forall k :: 0 <= k < |xs| ==>
      Normalize(dumps, Normalize(dumps, xs[k])) == Normalize(dumps, xs[k])
    ensures Normalize(dumps, Normalize(dumps, Arr(xs))) == Normalize(dumps, Arr(xs))
  {
    var n := Normalize(dumps, Arr(xs)).items;
    if |xs| > 0 && xs[0].Obj? {
      NormalizeDictList(dumps, xs);
      PermutedNormalForms(dumps, xs, n);
      if n[0].Obj? {
        SortedNormalList(dumps, n);
      } else {
        NormalizeItemsOfNormal(dumps, n);
        NormalizeOtherList(dumps, n);
      }
    } else {
      NormalizeOtherList(dumps, xs);
      PermutedNormalForms(dumps, xs, n);
      NormalizeItemsOfNormal(dumps, n);
      NormalizeOtherList(dumps, n);
    }
  }

  /** Normalizing twice is the same as normalizing once. */
  lemma {:induction false} NormalizeIdempotent(dumps: Json -> string, j: Json)
    requires DumpsInjective(dumps)
    ensures Normalize(dumps, Normalize(dumps, j)) == Normalize(dumps, j)
    decreases j
  {
    match j
    case Obj(m) =>
      var n := Normalize(dumps, j);
      forall k | k in m ensures Normalize(dumps, n.fields[k]) == n.fields[k] {
        NormalizeIdempotent(dumps, m[k]);
      }
      assert Normalize(dumps, n).fields == n.fields;
    case Arr(xs) =>
      forall k | 0 <= k < |xs|
        ensures Normalize(dumps, Normalize(dumps, xs[k])) == Normalize(dumps, xs[k])
      {
        NormalizeIdempotent(dumps, xs[k]);
      }
      NormalizeListIdempotent(dumps, xs);
    case _ =>
  }
}
