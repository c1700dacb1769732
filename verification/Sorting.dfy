/** Stable sorting, as `Array.prototype.sort` does it with a comparator.

    A comparator `cmp` is represented by the relation `le(a, b)`, which holds
    when `cmp(a, b) <= 0`.  The results below need `le` to be a total preorder;
    they do not need it to be antisymmetric.  `Filtered` stands for
    `Array.prototype.filter`. */
module Sorting {

  ghost predicate TotalPreorder<T(!new)>(le: (T, T) -> bool) {
    && (forall x, y :: le(x, y) || le(y, x))
    && (forall x, y, z :: le(x, y) && le(y, z) ==> le(x, z))
  }

  ghost predicate Antisymmetric<T(!new)>(le: (T, T) -> bool) {
    forall x, y :: le(x, y) && le(y, x) ==> x == y
  }

  ghost predicate SortedBy<T>(s: seq<T>, le: (T, T) -> bool) {
    forall i, j | 0 <= i < j < |s| :: le(s[i], s[j])
  }

  function Filtered<T>(s: seq<T>, keep: T -> bool): (r: seq<T>)
    ensures |r| <= |s|
  {
    if s == [] then []
    else if keep(s[0]) then [s[0]] + Filtered(s[1..], keep)
    else Filtered(s[1..], keep)
  }

  function Insert<T>(x: T, t: seq<T>, le: (T, T) -> bool): seq<T> {
    if t == [] || le(x, t[0]) then [x] + t else [t[0]] + Insert(x, t[1..], le)
  }

  function Sort<T>(s: seq<T>, le: (T, T) -> bool): seq<T> {
    if s == [] then [] else Insert(s[0], Sort(s[1..], le), le)
  }

  // ----- the result is a permutation

  lemma {:induction false} InsertMultiset<T>(x: T, t: seq<T>, le: (T, T) -> bool)
    ensures multiset(Insert(x, t, le)) == multiset{x} + multiset(t)
  {
    if t == [] || le(x, t[0]) {
    } else {
      InsertMultiset(x, t[1..], le);
      assert t == [t[0]] + t[1..];
    }
  }

  lemma {:induction false} SortMultiset<T>(s: seq<T>, le: (T, T) -> bool)
    ensures multiset(Sort(s, le)) == multiset(s)
    ensures |Sort(s, le)| == |s|
  {
    if s == [] {
    } else {
      SortMultiset(s[1..], le);
      InsertMultiset(s[0], Sort(s[1..], le), le);
      assert s == [s[0]] + s[1..];
    }
    assert |Sort(s, le)| == |multiset(Sort(s, le))| == |multiset(s)|;
  }

  lemma SortMembers<T>(s: seq<T>, le: (T, T) -> bool)
    ensures forall x :: x in Sort(s, le) <==> x in s
  {
    SortMultiset(s, le);
    forall x
      ensures x in Sort(s, le) <==> x in s
    {
      assert x in multiset(s) <==> x in s;
      assert x in multiset(Sort(s, le)) <==> x in Sort(s, le);
    }
  }

  // ----- the result is in order

  lemma {:induction false} InsertMembers<T>(x: T, t: seq<T>, le: (T, T) -> bool)
    ensures forall y :: y in Insert(x, t, le) <==> y == x || y in t
  {
    InsertMultiset(x, t, le);
    forall y
      ensures y in Insert(x, t, le) <==> y == x || y in t
    {
      assert y in multiset(Insert(x, t, le)) <==> y in Insert(x, t, le);
      assert y in multiset(t) <==> y in t;
    }
  }

  lemma {:induction false} InsertSorted<T(!new)>(x: T, t: seq<T>, le: (T, T) -> bool)
    requires TotalPreorder(le) && SortedBy(t, le)
    ensures SortedBy(Insert(x, t, le), le)
  {
    if t == [] {
    } else if le(x, t[0]) {
      var r := [x] + t;
      forall i, j | 0 <= i < j < |r|
        ensures le(r[i], r[j])
      {
        if i == 0 && j > 1 { assert le(t[0], t[j - 1]); }
      }
    } else {
      var u := Insert(x, t[1..], le);
      InsertSorted(x, t[1..], le);
      InsertMembers(x, t[1..], le);
      forall j | 0 <= j < |u|
        ensures le(t[0], u[j])
      {
        assert u[j] in u;
        if u[j] != x {
          assert u[j] in t[1..];
          var k :| 0 <= k < |t[1..]| && t[1..][k] == u[j];
          assert le(t[0], t[k + 1]);
        }
      }
    }
  }

  lemma {:induction false} SortSorted<T(!new)>(s: seq<T>, le: (T, T) -> bool)
    requires TotalPreorder(le)
    ensures SortedBy(Sort(s, le), le)
  {
    if s == [] {
    } else {
      SortSorted(s[1..], le);
      InsertSorted(s[0], Sort(s[1..], le), le);
    }
  }

  lemma {:induction false} SortFixpoint<T(!new)>(s: seq<T>, le: (T, T) -> bool)
    requires SortedBy(s, le)
    ensures Sort(s, le) == s
  {
    if s == [] {
    } else {
      SortedTail(s, le);
      SortFixpoint(s[1..], le);
      if |s| > 1 { assert le(s[0], s[1]); }
    }
  }

  lemma SortedTail<T>(a: seq<T>, le: (T, T) -> bool)
    requires SortedBy(a, le) && a != []
    ensures SortedBy(a[1..], le)
  {
    forall i, j | 0 <= i < j < |a[1..]|
      ensures le(a[1..][i], a[1..][j])
    {
      assert le(a[i + 1], a[j + 1]);
    }
  }

  lemma MultisetTail<T>(a: seq<T>)
    requires a != []
    ensures multiset(a[1..]) == multiset(a) - multiset{a[0]}
  {
    assert a == [a[0]] + a[1..];
  }

  ghost predicate Untied<T>(s: seq<T>, le: (T, T) -> bool) {
    forall x, y | x in s && y in s && le(x, y) && le(y, x) :: x == y
  }

  /** Sorting removes every trace of the original order when no two different
      elements compare equal. */
  lemma {:induction false} SortedOnce<T(!new)>(a: seq<T>, b: seq<T>, le: (T, T) -> bool)
    requires SortedBy(a, le) && SortedBy(b, le) && multiset(a) == multiset(b) && Untied(a, le)
    ensures a == b
  {
    hide SortedBy, Untied;
    assert |a| == |multiset(a)| && |b| == |multiset(b)|;
    if a != [] {
      assert a[0] in multiset(a) && b[0] in multiset(b);
      UntiedHead(a, b, le);
      SortedTail(a, le);
      SortedTail(b, le);
      MultisetTail(a);
      MultisetTail(b);
      SortedOnce(a[1..], b[1..], le);
      assert a == [a[0]] + a[1..] && b == [b[0]] + b[1..];
    }
  }

  lemma UntiedHead<T(!new)>(a: seq<T>, b: seq<T>, le: (T, T) -> bool)
    requires SortedBy(a, le) && SortedBy(b, le) && Untied(a, le) && a != [] && b != [] && a[0] in b && b[0] in a
    ensures a[0] == b[0] && Untied(a[1..], le)
  {
    var i :| 0 <= i < |a| && a[i] == b[0];
    var j :| 0 <= j < |b| && b[j] == a[0];
    assert i == 0 || le(a[0], a[i]);
    assert j == 0 || le(b[0], b[j]);
    assert forall x | x in a[1..] :: x in a;
  }

  lemma SortForgets<T(!new)>(a: seq<T>, b: seq<T>, le: (T, T) -> bool)
    requires TotalPreorder(le) && multiset(a) == multiset(b) && Untied(a, le)
    ensures Sort(a, le) == Sort(b, le)
  {
    hide SortedBy;
    SortMultiset(a, le);
    SortMultiset(b, le);
    SortSorted(a, le);
    SortSorted(b, le);
    SortMembers(a, le);
    SortedOnce(Sort(a, le), Sort(b, le), le);
  }

  /** Sorting with an antisymmetric order forgets the order of the input: equal
      results mean equal contents, and the other way round. */
  lemma SortEqualIff<T(!new)>(a: seq<T>, b: seq<T>, le: (T, T) -> bool)
    requires TotalPreorder(le) && Antisymmetric(le)
    ensures Sort(a, le) == Sort(b, le) <==> multiset(a) == multiset(b)
  {
    SortMultiset(a, le);
    SortMultiset(b, le);
    if multiset(a) == multiset(b) { SortForgets(a, b, le); }
  }

  // ----- the result is stable, and selection commutes with sorting

  lemma FilteredCons<T>(x: T, t: seq<T>, keep: T -> bool)
    ensures Filtered([x] + t, keep) == if keep(x) then [x] + Filtered(t, keep) else Filtered(t, keep)
  {
    assert ([x] + t)[1..] == t;
  }

  lemma FilteredOne<T>(x: T, keep: T -> bool)
    ensures Filtered([x], keep) == if keep(x) then [x] else []
  {
    FilteredCons(x, [], keep);
    assert [x] + [] == [x];
  }

  lemma {:induction false} FilteredAppend<T>(a: seq<T>, b: seq<T>, keep: T -> bool)
    ensures Filtered(a + b, keep) == Filtered(a, keep) + Filtered(b, keep)
  {
    if a == [] {
      assert a + b == b;
    } else {
      assert a + b == [a[0]] + (a[1..] + b);
      FilteredCons(a[0], a[1..] + b, keep);
      FilteredAppend(a[1..], b, keep);
    }
  }

  lemma {:induction false} FilteredMembers<T>(s: seq<T>, keep: T -> bool)
    ensures forall x :: x in Filtered(s, keep) <==> x in s && keep(x)
  {
    if s != [] {
      FilteredMembers(s[1..], keep);
      assert s == [s[0]] + s[1..];
    }
  }

  lemma {:induction false} FilteredSorted<T(!new)>(s: seq<T>, keep: T -> bool, le: (T, T) -> bool)
    requires SortedBy(s, le)
    ensures SortedBy(Filtered(s, keep), le)
  {
    if s != [] {
      SortedTail(s, le);
      FilteredSorted(s[1..], keep, le);
      FilteredMembers(s[1..], keep);
      var t := Filtered(s[1..], keep);
      forall j | 0 <= j < |t|
        ensures le(s[0], t[j])
      {
        assert t[j] in s[1..];
        var k :| 0 <= k < |s[1..]| && s[1..][k] == t[j];
        assert le(s[0], s[k + 1]);
      }
    }
  }

  lemma {:induction false} FilteredAll<T>(s: seq<T>, keep: T -> bool)
    requires forall x | x in s :: keep(x)
    ensures Filtered(s, keep) == s
  {
    if s != [] { FilteredAll(s[1..], keep); }
  }

  lemma {:induction false} FilteredNone<T>(s: seq<T>, keep: T -> bool)
    requires forall x | x in s :: !keep(x)
    ensures Filtered(s, keep) == []
  {
    if s != [] { FilteredNone(s[1..], keep); }
  }

  /** Selecting twice is selecting once with the stronger test. */
  lemma {:induction false} FilteredTwice<T>(s: seq<T>, keep: T -> bool, strict: T -> bool)
    requires forall x | x in s && strict(x) :: keep(x)
    ensures Filtered(Filtered(s, keep), strict) == Filtered(s, strict)
  {
    if s != [] {
      FilteredTwice(s[1..], keep, strict);
      FilteredAppend(if keep(s[0]) then [s[0]] else [], Filtered(s[1..], keep), strict);
    }
  }

  lemma {:induction false} FilteredAgree<T>(s: seq<T>, p: T -> bool, q: T -> bool)
    requires forall x | x in s :: p(x) == q(x)
    ensures Filtered(s, p) == Filtered(s, q)
  {
    if s != [] { FilteredAgree(s[1..], p, q); }
  }

  lemma {:induction false} InsertFiltered<T(!new)>(x: T, t: seq<T>, keep: T -> bool, le: (T, T) -> bool)
    requires TotalPreorder(le) && SortedBy(t, le)
    ensures Filtered(Insert(x, t, le), keep)
         == if keep(x) then Insert(x, Filtered(t, keep), le) else Filtered(t, keep)
  {
    if t == [] {
    } else if le(x, t[0]) {
      assert ([x] + t)[1..] == t;
      var f := Filtered(t, keep);
      FilteredMembers(t, keep);
      if f != [] {
        assert f[0] in t;
        var k :| 0 <= k < |t| && t[k] == f[0];
        assert k == 0 || le(t[0], t[k]);
        assert le(x, f[0]);
      }
    } else {
      SortedTail(t, le);
      InsertFiltered(x, t[1..], keep, le);
      FilteredCons(t[0], Insert(x, t[1..], le), keep);
      var f := Filtered(t[1..], keep);
      assert ([t[0]] + f)[1..] == f;
    }
  }

  /** Selecting before or after a stable sort makes no difference. */
  lemma {:induction false} SortFiltered<T(!new)>(s: seq<T>, keep: T -> bool, le: (T, T) -> bool)
    requires TotalPreorder(le)
    ensures Filtered(Sort(s, le), keep) == Sort(Filtered(s, keep), le)
  {
    if s == [] {
    } else {
      SortFiltered(s[1..], keep, le);
      SortSorted(s[1..], le);
      InsertFiltered(s[0], Sort(s[1..], le), keep, le);
      var f := Filtered(s[1..], keep);
      assert ([s[0]] + f)[1..] == f;
    }
  }

  /** The elements that compare equal to `x`. */
  function Tied<T>(x: T, le: (T, T) -> bool): T -> bool {
    y => le(x, y) && le(y, x)
  }

  /** Stability: elements that compare equal keep their original order. */
  lemma SortStable<T(!new)>(s: seq<T>, x: T, le: (T, T) -> bool)
    requires TotalPreorder(le)
    ensures Filtered(Sort(s, le), Tied(x, le)) == Filtered(s, Tied(x, le))
  {
    var tied := Tied(x, le);
    SortFiltered(s, tied, le);
    FilteredMembers(s, tied);
    var f := Filtered(s, tied);
    forall i, j | 0 <= i < j < |f|
      ensures le(f[i], f[j])
    {
      assert f[i] in f && f[j] in f;
    }
    SortFixpoint(f, le);
  }

  lemma {:induction false} FilteredShorter<T>(s: seq<T>, x: T, keep: T -> bool)
    requires x in s && !keep(x)
    ensures |Filtered(s, keep)| < |s|
  {
    if s[0] != x { FilteredShorter(s[1..], x, keep); }
  }

  /** Where the first selected element sits. */
  lemma {:induction false} FirstKept<T>(s: seq<T>, keep: T -> bool) returns (i: nat)
    requires Filtered(s, keep) != []
    ensures i < |s| && keep(s[i]) && (forall j | 0 <= j < i :: !keep(s[j]))
    ensures Filtered(s, keep) == [s[i]] + Filtered(s[i + 1..], keep)
  {
    if keep(s[0]) {
      i := 0;
    } else {
      var k := FirstKept(s[1..], keep);
      i := k + 1;
      assert s[1..][k + 1..] == s[i + 1..];
      forall j | 0 <= j < i
        ensures !keep(s[j])
      {
        if j > 0 { assert s[j] == s[1..][j - 1]; }
      }
    }
  }

  lemma {:induction false} FilteredSwap<T>(s: seq<T>, p: T -> bool, q: T -> bool)
    ensures Filtered(Filtered(s, p), q) == Filtered(Filtered(s, q), p)
  {
    if s != [] {
      FilteredSwap(s[1..], p, q);
      FilteredCons(s[0], Filtered(s[1..], p), q);
      FilteredCons(s[0], Filtered(s[1..], q), p);
    }
  }

  // ----- conditions on unordered pairs survive sorting

  ghost predicate Symmetric<T(!new)>(rel: (T, T) -> bool) {
    forall x, y :: rel(x, y) ==> rel(y, x)
  }

  ghost predicate Pairwise<T>(s: seq<T>, rel: (T, T) -> bool) {
    forall i, j | 0 <= i < j < |s| :: rel(s[i], s[j])
  }

  lemma PairwiseCons<T(!new)>(x: T, t: seq<T>, rel: (T, T) -> bool)
    ensures Pairwise([x] + t, rel) <==> Pairwise(t, rel) && forall y | y in t :: rel(x, y)
  {
    var r := [x] + t;
    if Pairwise(r, rel) {
      forall i, j | 0 <= i < j < |t|
        ensures rel(t[i], t[j])
      {
        assert rel(r[i + 1], r[j + 1]);
      }
      forall y | y in t
        ensures rel(x, y)
      {
        var k :| 0 <= k < |t| && t[k] == y;
        assert rel(r[0], r[k + 1]);
      }
    }
    if Pairwise(t, rel) && forall y | y in t :: rel(x, y) {
      forall i, j | 0 <= i < j < |r|
        ensures rel(r[i], r[j])
      {
        if i == 0 { assert r[j] in t; } else { assert rel(t[i - 1], t[j - 1]); }
      }
    }
  }

  lemma {:induction false} InsertPairwise<T(!new)>(x: T, t: seq<T>, le: (T, T) -> bool, rel: (T, T) -> bool)
    requires Symmetric(rel)
    ensures Pairwise(Insert(x, t, le), rel) <==> Pairwise([x] + t, rel)
  {
    hide Pairwise;
    if t == [] || le(x, t[0]) {
    } else {
      var u := Insert(x, t[1..], le);
      InsertPairwise(x, t[1..], le, rel);
      InsertMembers(x, t[1..], le);
      PairwiseCons(t[0], u, rel);
      PairwiseCons(x, t[1..], rel);
      PairwiseCons(t[0], t[1..], rel);
      PairwiseCons(x, t, rel);
      assert t == [t[0]] + t[1..];
    }
  }

  lemma {:induction false} SortPairwise<T(!new)>(s: seq<T>, le: (T, T) -> bool, rel: (T, T) -> bool)
    requires Symmetric(rel)
    ensures Pairwise(Sort(s, le), rel) <==> Pairwise(s, rel)
  {
    if s == [] {
    } else {
      SortPairwise(s[1..], le, rel);
      SortMembers(s[1..], le);
      InsertPairwise(s[0], Sort(s[1..], le), le, rel);
      PairwiseCons(s[0], Sort(s[1..], le), rel);
      PairwiseCons(s[0], s[1..], rel);
      assert s == [s[0]] + s[1..];
    }
  }

  // ----- only the order of the elements present matters

  lemma {:induction false} InsertAgree<T(!new)>(x: T, t: seq<T>, le: (T, T) -> bool, le': (T, T) -> bool)
    requires forall y | y in t :: le(x, y) == le'(x, y)
    ensures Insert(x, t, le) == Insert(x, t, le')
  {
    if t != [] { InsertAgree(x, t[1..], le, le'); }
  }

  lemma {:induction false} SortAgree<T(!new)>(s: seq<T>, le: (T, T) -> bool, le': (T, T) -> bool)
    requires forall x, y | x in s && y in s :: le(x, y) == le'(x, y)
    ensures Sort(s, le) == Sort(s, le')
  {
    if s != [] {
      SortAgree(s[1..], le, le');
      SortMembers(s[1..], le);
      InsertAgree(s[0], Sort(s[1..], le), le, le');
    }
  }
}
