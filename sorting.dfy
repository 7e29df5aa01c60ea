/**
 * `Array.prototype.sort` with a comparator, as the pages use it: a stable sort, where a
 * negative comparison puts the first argument earlier and zero keeps the original order.
 */
module Sorting {
  import Js

  /** The comparator is antisymmetric and its "not after" is transitive. */
  ghost predicate Consistent<T(!new)>(cmp: (T, T) -> int)
  {
    (forall a, b :: cmp(a, b) == -cmp(b, a)) &&
    (forall a, b, c :: cmp(a, b) <= 0 && cmp(b, c) <= 0 ==> cmp(a, c) <= 0)
  }

  ghost predicate Sorted<T>(s: seq<T>, cmp: (T, T) -> int)
  {
    forall i, j :: 0 <= i < j < |s| ==> cmp(s[i], s[j]) <= 0
  }

  /** `x` placed after every row that it does not come strictly before. */
  function Insert<T>(x: T, s: seq<T>, cmp: (T, T) -> int): (r: seq<T>)
    ensures multiset(r) == multiset(s) + multiset{x}
    ensures |r| == |s| + 1
  {
    if s == [] then [x]
    else if cmp(x, s[0]) < 0 then [x] + s
    else
      assert s == [s[0]] + s[1..];
      [s[0]] + Insert(x, s[1..], cmp)
  }

  /** The rows in comparator order; rows that compare equal keep their relative order. */
  function Sort<T>(s: seq<T>, cmp: (T, T) -> int): seq<T>
  {
    if s == [] then [] else Insert(s[|s| - 1], Sort(s[..|s| - 1], cmp), cmp)
  }

  lemma {:induction false} InsertSorted<T(!new)>(x: T, s: seq<T>, cmp: (T, T) -> int)
    requires Consistent(cmp) && Sorted(s, cmp)
    ensures Sorted(Insert(x, s, cmp), cmp)
    decreases |s|
  {
    if s == [] {
    } else if cmp(x, s[0]) < 0 {
      SortedFront(x, s, cmp);
    } else {
      InsertSorted(x, s[1..], cmp);
      SortedBehind(x, s, Insert(x, s[1..], cmp), cmp);
    }
  }

  /** A row strictly before the head of a sorted sequence may go in front of it. */
  lemma SortedFront<T(!new)>(x: T, s: seq<T>, cmp: (T, T) -> int)
    requires Consistent(cmp) && Sorted(s, cmp) && s != [] && cmp(x, s[0]) < 0
    ensures Sorted([x] + s, cmp)
  {
    var r := [x] + s;
    forall i, j | 0 <= i < j < |r|
      ensures cmp(r[i], r[j]) <= 0
    {
      if i == 0 {
        if j > 1 {
          assert cmp(s[0], s[j - 1]) <= 0;
        }
      } else {
        assert r[i] == s[i - 1] && r[j] == s[j - 1];
      }
    }
  }

  /** The head of a sorted sequence stays in front of the rest with `x` inserted behind it. */
  lemma SortedBehind<T(!new)>(x: T, s: seq<T>, t: seq<T>, cmp: (T, T) -> int)
    requires Consistent(cmp) && Sorted(s, cmp) && s != [] && cmp(x, s[0]) >= 0
    requires Sorted(t, cmp) && multiset(t) == multiset(s[1..]) + multiset{x}
    ensures Sorted([s[0]] + t, cmp)
  {
    var r := [s[0]] + t;
    forall i, j | 0 <= i < j < |r|
      ensures cmp(r[i], r[j]) <= 0
    {
      if i == 0 {
        assert r[j] == t[j - 1] && t[j - 1] in multiset(t);
        if t[j - 1] != x {
          assert t[j - 1] in multiset(s[1..]);
          var k :| 0 <= k < |s[1..]| && s[1..][k] == t[j - 1];
          assert s[k + 1] == t[j - 1];
        }
      } else {
        assert r[i] == t[i - 1] && r[j] == t[j - 1];
      }
    }
  }

  /** The sort returns the same rows, each as often, in comparator order. */
  lemma {:induction false} SortCorrect<T(!new)>(s: seq<T>, cmp: (T, T) -> int)
    requires Consistent(cmp)
    ensures multiset(Sort(s, cmp)) == multiset(s)
    ensures Sorted(Sort(s, cmp), cmp)
  {
    if s != [] {
      var init := s[..|s| - 1];
      Js.LastSplit(s);
      SortCorrect(init, cmp);
      InsertSorted(s[|s| - 1], Sort(init, cmp), cmp);
    }
  }

  lemma {:induction false} InsertLast<T>(x: T, s: seq<T>, cmp: (T, T) -> int)
    requires forall i :: 0 <= i < |s| ==> cmp(x, s[i]) >= 0
    ensures Insert(x, s, cmp) == s + [x]
    decreases |s|
  {
    if s != [] {
      InsertLast(x, s[1..], cmp);
      assert s == [s[0]] + s[1..];
    }
  }

  /** A comparator that finds every pair equal keeps the original order. */
  lemma {:induction false} SortStable<T>(s: seq<T>, cmp: (T, T) -> int)
    requires forall a, b :: cmp(a, b) == 0
    ensures Sort(s, cmp) == s
  {
    if s != [] {
      var init := s[..|s| - 1];
      Js.LastSplit(s);
      SortStable(init, cmp);
      InsertLast(s[|s| - 1], init, cmp);
    }
  }
}
