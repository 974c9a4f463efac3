/**
  Orders and sorting as Python uses them: `sorted()` on strings compares code
  points lexicographically, and `sorted()` is a stable sort.
 */
module Order {

  // ---------------------------------------------------------------------
  // Lexicographic order on integer sequences (a shorter prefix comes first)
  // ---------------------------------------------------------------------

  predicate LexLe(a: seq<int>, b: seq<int>)
    decreases |a|
  {
    if a == [] then true
    else if b == [] then false
    else if a[0] != b[0] then a[0] < b[0]
    else LexLe(a[1..], b[1..])
  }

  lemma {:induction false} LexLeRefl(a: seq<int>)
    ensures LexLe(a, a)
    decreases |a|
  {
    if a != [] { LexLeRefl(a[1..]); }
  }

  lemma {:induction false} LexLeAntisym(a: seq<int>, b: seq<int>)
    requires LexLe(a, b) && LexLe(b, a)
    ensures a == b
    decreases |a|
  {
    if a != [] && b != [] {
      LexLeAntisym(a[1..], b[1..]);
      assert a == [a[0]] + a[1..] && b == [b[0]] + b[1..];
    }
  }

  lemma {:induction false} LexLeTrans(a: seq<int>, b: seq<int>, c: seq<int>)
    requires LexLe(a, b) && LexLe(b, c)
    ensures LexLe(a, c)
    decreases |a|
  {
    if a != [] && b != [] && c != [] && a[0] == b[0] && b[0] == c[0] {
      LexLeTrans(a[1..], b[1..], c[1..]);
    }
  }

  lemma {:induction false} LexLeTotal(a: seq<int>, b: seq<int>)
    ensures LexLe(a, b) || LexLe(b, a)
    decreases |a|
  {
    if a != [] && b != [] && a[0] == b[0] { LexLeTotal(a[1..], b[1..]); }
  }

  // ---------------------------------------------------------------------
  // Python string order: lexicographic on code points
  // ---------------------------------------------------------------------

  function Codes(s: string): (r: seq<int>)
    ensures |r| == |s|
    ensures forall i :: 0 <= i < |s| ==> r[i] == s[i] as int
  {
    seq(|s|, i requires 0 <= i < |s| => s[i] as int)
  }

  lemma CodesInjective(a: string, b: string)
    requires Codes(a) == Codes(b)
    ensures a == b
  {
    assert |a| == |b|;
    forall i | 0 <= i < |a| ensures a[i] == b[i] {
      assert Codes(a)[i] == Codes(b)[i];
    }
  }

  /** `a <= b` for Python strings. */
  predicate StrLe(a: string, b: string) {
    LexLe(Codes(a), Codes(b))
  }

  lemma StrLeAntisymAll()
    ensures forall a, b :: StrLe(a, b) && StrLe(b, a) ==> a == b
  {
    forall a, b | StrLe(a, b) && StrLe(b, a) ensures a == b { StrLeAntisym(a, b); }
  }

  lemma StrLeRefl(a: string)
    ensures StrLe(a, a)
  {
    LexLeRefl(Codes(a));
  }

  lemma StrLeTotal(a: string, b: string)
    ensures StrLe(a, b) || StrLe(b, a)
  {
    LexLeTotal(Codes(a), Codes(b));
  }

  lemma StrLeTrans(a: string, b: string, c: string)
    requires StrLe(a, b) && StrLe(b, c)
    ensures StrLe(a, c)
  {
    LexLeTrans(Codes(a), Codes(b), Codes(c));
  }

  lemma StrLeAntisym(a: string, b: string)
    requires StrLe(a, b) && StrLe(b, a)
    ensures a == b
  {
    LexLeAntisym(Codes(a), Codes(b));
    CodesInjective(a, b);
  }

  /** `x` is the least of `s` in Python string order. */
  predicate IsMinString(x: string, s: set<string>) {
    x in s && forall y :: y in s ==> StrLe(x, y)
  }

  lemma {:induction false} MinStringExists(s: set<string>)
    requires s != {}
    ensures exists x :: IsMinString(x, s)
    decreases |s|
  {
    var x :| x in s;
    StrLeRefl(x);
    if s == {x} {
      assert IsMinString(x, s);
    } else {
      MinStringExists(s - {x});
      var m :| IsMinString(m, s - {x});
      StrLeTotal(x, m);
      var w := if StrLe(x, m) then x else m;
      forall y | y in s ensures StrLe(w, y) {
        if y != x {
          assert y in s - {x};
          if w == x { StrLeTrans(x, m, y); }
        }
      }
      assert IsMinString(w, s);
    }
  }

  predicate StrictlyAscending(s: seq<string>) {
    forall i, j :: 0 <= i < j < |s| ==> StrLe(s[i], s[j]) && s[i] != s[j]
  }

  /** `sorted(keys)` for a set of dictionary keys. */
  function SortedKeys(ks: set<string>): (r: seq<string>)
    ensures |r| == |ks|
    ensures forall k :: k in r <==> k in ks
    ensures StrictlyAscending(r)
    decreases ks
  {
    if ks == {} then []
    else
      MinStringExists(ks);
      StrLeAntisymAll();
      var x :| IsMinString(x, ks);
      var rest := SortedKeys(ks - {x});
      SortedKeysCons(x, ks, rest);
      [x] + rest
  }

  /** Putting the least key in front of the sorted other keys sorts all of them. */
  lemma SortedKeysCons(x: string, ks: set<string>, rest: seq<string>)
    requires IsMinString(x, ks)
    requires |rest| == |ks - {x}| && (forall k :: k in rest <==> k in ks - {x}) && StrictlyAscending(rest)
    ensures |[x] + rest| == |ks| && (forall k :: k in [x] + rest <==> k in ks) && StrictlyAscending([x] + rest)
  {
    var r := [x] + rest;
    forall i, j | 0 <= i < j < |r| ensures StrLe(r[i], r[j]) && r[i] != r[j] {
      if i == 0 {
        assert r[j] == rest[j - 1] && r[j] in ks - {x};
      } else {
        assert r[i] == rest[i - 1] && r[j] == rest[j - 1];
      }
    }
  }

  /** `x` is the least of the integers `s`. */
  predicate IsMinInt(x: int, s: set<int>) {
    x in s && forall y :: y in s ==> x <= y
  }

  lemma {:induction false} MinIntExists(s: set<int>)
    requires s != {}
    ensures exists x :: IsMinInt(x, s)
    decreases |s|
  {
    if forall y :: y !in s {
      assert false;
    }
    var x :| x in s;
    if s == {x} {
      assert IsMinInt(x, s);
    } else {
      MinIntExists(s - {x});
      var m :| IsMinInt(m, s - {x});
      var w := if x <= m then x else m;
      forall y | y in s ensures w <= y {
        if y != x {
          assert y in s - {x};
        }
      }
      assert IsMinInt(w, s);
    }
  }

  /** `sorted(keys)` for a set of integer dictionary keys. */
  function SortedInts(ks: set<int>): (r: seq<int>)
    ensures |r| == |ks|
    ensures forall k :: k in r <==> k in ks
    ensures forall i, j :: 0 <= i < j < |r| ==> r[i] < r[j]
    decreases ks
  {
    if ks == {} then []
    else
      MinIntExists(ks);
      MinIntUnique(ks);
      var x :| IsMinInt(x, ks);
      var rest := SortedInts(ks - {x});
      SortedIntsCons(x, ks, rest);
      [x] + rest
  }

  lemma MinIntUnique(ks: set<int>)
    ensures forall a, b :: IsMinInt(a, ks) && IsMinInt(b, ks) ==> a == b
  {
  }

  /** Putting the least integer in front of the sorted others sorts all of them. */
  lemma SortedIntsCons(x: int, ks: set<int>, rest: seq<int>)
    requires IsMinInt(x, ks)
    requires |rest| == |ks - {x}| && (forall k :: k in rest <==> k in ks - {x})
    requires forall i, j :: 0 <= i < j < |rest| ==> rest[i] < rest[j]
    ensures |[x] + rest| == |ks| && (forall k :: k in [x] + rest <==> k in ks)
    ensures forall i, j :: 0 <= i < j < |[x] + rest| ==> ([x] + rest)[i] < ([x] + rest)[j]
  {
    var r := [x] + rest;
    forall i, j | 0 <= i < j < |r| ensures r[i] < r[j] {
      if i == 0 {
        assert r[j] == rest[j - 1] && r[j] in ks - {x};
      } else {
        assert r[i] == rest[i - 1] && r[j] == rest[j - 1];
      }
    }
  }

  // ---------------------------------------------------------------------
  // Stable sorting with a caller-supplied `<=`
  // ---------------------------------------------------------------------

  ghost predicate TotalPreorder<T(!new)>(le: (T, T) -> bool) {
    && (forall a, b :: le(a, b) || le(b, a))
    && (forall a, b, c :: le(a, b) && le(b, c) ==> le(a, c))
  }

  ghost predicate Antisymmetric<T(!new)>(le: (T, T) -> bool) {
    forall a, b :: le(a, b) && le(b, a) ==> a == b
  }

  predicate SortedBy<T>(s: seq<T>, le: (T, T) -> bool) {
    forall i, j :: 0 <= i < j < |s| ==> le(s[i], s[j])
  }

  /** Puts `x` before the first element it is `<=` to, so earlier inputs stay first among ties. */
  function InsertBy<T>(x: T, s: seq<T>, le: (T, T) -> bool): (r: seq<T>)
    ensures multiset(r) == multiset(s) + multiset{x}
    ensures |r| == |s| + 1
  {
    if s == [] then [x]
    else if le(x, s[0]) then [x] + s
    else
      assert s == [s[0]] + s[1..];
      [s[0]] + InsertBy(x, s[1..], le)
  }

  /** Python's `sorted(s, key=...)`, stated through the order the key induces. */
  function SortBy<T>(s: seq<T>, le: (T, T) -> bool): (r: seq<T>)
    ensures multiset(r) == multiset(s)
    ensures |r| == |s|
  {
    if s == [] then []
    else
      assert s == [s[0]] + s[1..];
      InsertBy(s[0], SortBy(s[1..], le), le)
  }

  lemma {:induction false} InsertBySorted<T(!new)>(x: T, s: seq<T>, le: (T, T) -> bool)
    requires TotalPreorder(le)
    requires SortedBy(s, le)
    ensures SortedBy(InsertBy(x, s, le), le)
    decreases |s|
  {
    if s != [] && !le(x, s[0]) {
      InsertBySorted(x, s[1..], le);
      var r := InsertBy(x, s, le);
      var t := InsertBy(x, s[1..], le);
      assert r == [s[0]] + t;
      forall k | 0 <= k < |t| ensures le(s[0], t[k]) {
        assert t[k] in multiset(t);
        assert t[k] == x || t[k] in multiset(s[1..]);
        if t[k] != x {
          var m :| 0 <= m < |s[1..]| && s[1..][m] == t[k];
          assert s[m + 1] == t[k];
        }
      }
    }
  }

  lemma {:induction false} SortBySorted<T(!new)>(s: seq<T>, le: (T, T) -> bool)
    requires TotalPreorder(le)
    ensures SortedBy(SortBy(s, le), le)
    decreases |s|
  {
    if s != [] {
      SortBySorted(s[1..], le);
      InsertBySorted(s[0], SortBy(s[1..], le), le);
    }
  }

  lemma SortedHeadLeast<T(!new)>(a: seq<T>, le: (T, T) -> bool)
    requires TotalPreorder(le) && SortedBy(a, le) && a != []
    ensures forall x :: x in multiset(a) ==> le(a[0], x)
  {
    forall x | x in multiset(a) ensures le(a[0], x) {
      var i :| 0 <= i < |a| && a[i] == x;
      if i == 0 { assert le(x, x) || le(x, x); }
    }
  }

  lemma TailMultiset<T>(a: seq<T>)
    requires a != []
    ensures multiset(a[1..]) == multiset(a) - multiset{a[0]}
  {
    assert a == [a[0]] + a[1..];
  }

  lemma SortedHeadsAgree<T(!new)>(a: seq<T>, b: seq<T>, le: (T, T) -> bool)
    requires TotalPreorder(le) && Antisymmetric(le)
    requires SortedBy(a, le) && SortedBy(b, le)
    requires multiset(a) == multiset(b) && a != [] && b != []
    ensures a[0] == b[0]
    ensures multiset(a[1..]) == multiset(b[1..])
  {
    SortedHeadLeast(a, le);
    SortedHeadLeast(b, le);
    assert a[0] in multiset(b) && b[0] in multiset(a);
    assert le(a[0], b[0]) && le(b[0], a[0]);
    TailMultiset(a);
    TailMultiset(b);
  }

  lemma SortedTail<T>(a: seq<T>, le: (T, T) -> bool)
    requires SortedBy(a, le) && a != []
    ensures SortedBy(a[1..], le)
  {
    forall i, j | 0 <= i < j < |a| - 1 ensures le(a[1..][i], a[1..][j]) {
      assert a[1..][i] == a[i + 1] && a[1..][j] == a[j + 1];
    }
  }

  /** Under an antisymmetric total order there is only one sorted arrangement of a multiset. */
  lemma {:induction false} SortedUnique<T(!new)>(a: seq<T>, b: seq<T>, le: (T, T) -> bool)
    requires TotalPreorder(le) && Antisymmetric(le)
    requires SortedBy(a, le) && SortedBy(b, le)
    requires multiset(a) == multiset(b)
    ensures a == b
    decreases |a|
  {
    assert |a| == |multiset(a)| == |multiset(b)| == |b|;
    if a != [] {
      SortedHeadsAgree(a, b, le);
      SortedTail(a, le);
      SortedTail(b, le);
      SortedUnique(a[1..], b[1..], le);
      assert a == [a[0]] + a[1..] && b == [b[0]] + b[1..];
    }
  }

  /** Sorting depends only on the multiset of its input when the order is antisymmetric. */
  lemma SortByPermutationInvariant<T(!new)>(s: seq<T>, t: seq<T>, le: (T, T) -> bool)
    requires TotalPreorder(le) && Antisymmetric(le)
    requires multiset(s) == multiset(t)
    ensures SortBy(s, le) == SortBy(t, le)
  {
    SortBySorted(s, le);
    SortBySorted(t, le);
    SortedUnique(SortBy(s, le), SortBy(t, le), le);
  }
}

/** Sequence helpers: first-appearance de-duplication and element-wise mapping. */
module Seqs {
  /** The different values of `s`, in order of first appearance. */
  function Distinct(s: seq<string>): (r: seq<string>)
    ensures forall x :: x in r <==> x in s
    ensures forall i, j :: 0 <= i < j < |r| ==> r[i] != r[j]
    ensures |r| <= |s|
    decreases |s|
  {
    if s == [] then []
    else
      var init := s[..|s| - 1];
      assert s == init + [s[|s| - 1]];
      var d := Distinct(init);
      if s[|s| - 1] in d then d else d + [s[|s| - 1]]
  }

  function MapSeq<A, B>(f: A -> B, s: seq<A>): (r: seq<B>)
    ensures |r| == |s|
    ensures forall i :: 0 <= i < |s| ==> r[i] == f(s[i])
  {
    seq(|s|, i requires 0 <= i < |s| => f(s[i]))
  }

  lemma RemoveAtMultiset<T>(t: seq<T>, j: nat)
    requires j < |t|
    ensures multiset(t[..j] + t[j + 1..]) == multiset(t) - multiset{t[j]}
  {
    assert t == t[..j] + [t[j]] + t[j + 1..];
  }

  lemma MapSeqRemoveAt<A, B>(f: A -> B, t: seq<A>, j: nat)
    requires j < |t|
    ensures multiset(MapSeq(f, t)) == multiset(MapSeq(f, t[..j] + t[j + 1..])) + multiset{f(t[j])}
  {
    var u := MapSeq(f, t);
    assert u == u[..j] + [u[j]] + u[j + 1..];
    assert MapSeq(f, t[..j] + t[j + 1..]) == u[..j] + u[j + 1..];
  }

  lemma MapSeqCons<A, B>(f: A -> B, s: seq<A>)
    requires s != []
    ensures multiset(MapSeq(f, s)) == multiset(MapSeq(f, s[1..])) + multiset{f(s[0])}
  {
    assert MapSeq(f, s) == [f(s[0])] + MapSeq(f, s[1..]);
  }

  /** Mapping a permutation gives a permutation of the mapped sequence. */
  lemma {:induction false} MapSeqMultiset<A, B>(f: A -> B, s: seq<A>, t: seq<A>)
    requires multiset(s) == multiset(t)
    ensures multiset(MapSeq(f, s)) == multiset(MapSeq(f, t))
    decreases |s|
  {
    assert |s| == |multiset(s)| == |multiset(t)| == |t|;
    if s != [] {
      assert s[0] in multiset(t);
      var j :| 0 <= j < |t| && t[j] == s[0];
      RemoveAtMultiset(t, j);
      RemoveAtMultiset(s, 0);
      assert s[..0] + s[1..] == s[1..];
      MapSeqMultiset(f, s[1..], t[..j] + t[j + 1..]);
      MapSeqRemoveAt(f, t, j);
      MapSeqCons(f, s);
    }
  }
}
