/** Rearranging sequences: permutations, and sorting, where any sort by a total order gives the same sequence. */
module Sorting {

  // ----- permutations -----

  lemma SameItems<T>(a: seq<T>, b: seq<T>)
    requires multiset(a) <= multiset(b)
    ensures forall x :: x in a ==> x in b
  {
    forall x | x in a
      ensures x in b
    {
      assert x in multiset(a);
      assert x in multiset(b);
    }
  }

  lemma Front<T>(s: seq<T>)
    requires s != []
    ensures multiset(s[..|s| - 1]) == multiset(s) - multiset{s[|s| - 1]}
  {
    assert s == s[..|s| - 1] + [s[|s| - 1]];
  }

  lemma SameSize<T>(a: seq<T>, b: seq<T>)
    requires multiset(a) == multiset(b)
    ensures |a| == |b|
  {
    assert |a| == |multiset(a)| == |multiset(b)| == |b|;
  }

  ghost predicate AllDistinct<T(!new)>(s: seq<T>) {
    forall i, j :: 0 <= i < j < |s| ==> s[i] != s[j]
  }

  lemma TwiceIn<T>(s: seq<T>, i: nat, j: nat)
    requires i < j < |s| && s[i] == s[j]
    ensures multiset(s)[s[i]] >= 2
  {
    assert s == s[..j] + s[j..];
    assert s[i] == s[..j][i] && s[j] == s[j..][0];
    assert s[i] in multiset(s[..j]) && s[j] in multiset(s[j..]);
  }

  lemma {:induction false} OnceIn<T(!new)>(s: seq<T>, x: T)
    requires AllDistinct(s)
    ensures multiset(s)[x] <= 1
  {
    if s != [] {
      OnceIn(s[1..], x);
      assert s == [s[0]] + s[1..];
      if x == s[0] {
        assert x !in s[1..];
        assert x !in multiset(s[1..]);
      }
    }
  }

  /** Distinct items stay distinct in any order. */
  lemma DistinctStays<T(!new)>(a: seq<T>, b: seq<T>)
    requires AllDistinct(a) && multiset(a) == multiset(b)
    ensures AllDistinct(b)
  {
    forall i, j | 0 <= i < j < |b|
      ensures b[i] != b[j]
    {
      OnceIn(a, b[i]);
      if b[i] == b[j] {
        TwiceIn(b, i, j);
      }
    }
  }

  lemma RemoveAt<T>(s: seq<T>, j: nat, rest: seq<T>)
    requires j < |s| && rest == s[..j] + s[j + 1..]
    ensures multiset(rest) == multiset(s) - multiset{s[j]}
  {
    assert s == s[..j] + ([s[j]] + s[j + 1..]);
  }

  /** Finds the first element of a in its permutation b, and what is left of b without it. */
  lemma Extract<T>(a: seq<T>, b: seq<T>) returns (j: nat, without: seq<T>)
    requires a != [] && multiset(a) == multiset(b)
    ensures j < |b| && b[j] == a[0] && without == b[..j] + b[j + 1..]
    ensures multiset(without) == multiset(a[1..])
  {
    SameItems(a, b);
    assert a[0] in a;
    j := IndexIn(b, a[0]);
    without := b[..j] + b[j + 1..];
    RemoveAt(a, 0, a[1..]);
    RemoveAt(b, j, without);
  }

  lemma IndexIn<T>(s: seq<T>, x: T) returns (j: nat)
    requires x in s
    ensures j < |s| && s[j] == x
  {
    j :| 0 <= j < |s| && s[j] == x;
  }

  function Map<A, B>(f: A -> B, s: seq<A>): (r: seq<B>)
    ensures |r| == |s|
    ensures forall i :: 0 <= i < |s| ==> r[i] == f(s[i])
  {
    seq(|s|, i requires 0 <= i < |s| => f(s[i]))
  }

  lemma MapWithout<A, B>(f: A -> B, s: seq<A>, j: nat, rest: seq<A>)
    requires j < |s| && rest == s[..j] + s[j + 1..]
    ensures f(s[j]) in multiset(Map(f, s))
    ensures multiset(Map(f, rest)) == multiset(Map(f, s)) - multiset{f(s[j])}
  {
    assert Map(f, rest) == Map(f, s)[..j] + Map(f, s)[j + 1..];
    RemoveAt(Map(f, s), j, Map(f, rest));
    assert Map(f, s)[j] in Map(f, s);
  }

  lemma {:induction false} MapIgnoresOrder<A, B>(f: A -> B, a: seq<A>, b: seq<A>)
    requires multiset(a) == multiset(b)
    ensures multiset(Map(f, a)) == multiset(Map(f, b))
  {
    hide Map;
    if a == [] {
      SameSize(a, b);
      assert b == [];
    } else {
      var j, without := Extract(a, b);
      MapIgnoresOrder(f, a[1..], without);
      MapWithout(f, a, 0, a[1..]);
      MapWithout(f, b, j, without);
      PutBack(multiset(Map(f, a)), multiset(Map(f, b)), f(a[0]));
    }
  }

  lemma PutBack<T>(a: multiset<T>, b: multiset<T>, x: T)
    requires x in a && x in b && a - multiset{x} == b - multiset{x}
    ensures a == b
  {
    assert a == (a - multiset{x}) + multiset{x} && b == (b - multiset{x}) + multiset{x};
  }

  // ----- sorting -----

  /** le is a total order on the items of s. */
  ghost predicate Orders<T(!new)>(le: (T, T) -> bool, s: seq<T>) {
    && (forall x, y :: x in s && y in s ==> le(x, y) || le(y, x))
    && (forall x, y :: x in s && y in s && le(x, y) && le(y, x) ==> x == y)
    && (forall x, y, z :: x in s && y in s && z in s && le(x, y) && le(y, z) ==> le(x, z))
  }

  ghost predicate SortedBy<T(!new)>(le: (T, T) -> bool, s: seq<T>) {
    forall i, j :: 0 <= i < j < |s| ==> le(s[i], s[j])
  }

  function Insert<T>(le: (T, T) -> bool, x: T, s: seq<T>): (r: seq<T>)
    ensures multiset(r) == multiset(s) + multiset{x}
  {
    if s == [] then [x]
    else
      assert s == s[..|s| - 1] + [s[|s| - 1]];
      if le(s[|s| - 1], x) then s + [x] else Insert(le, x, s[..|s| - 1]) + [s[|s| - 1]]
  }

  function Sort<T>(le: (T, T) -> bool, s: seq<T>): (r: seq<T>)
    ensures multiset(r) == multiset(s)
  {
    if s == [] then []
    else
      assert s == s[..|s| - 1] + [s[|s| - 1]];
      Insert(le, s[|s| - 1], Sort(le, s[..|s| - 1]))
  }

  lemma {:induction false} InsertSorts<T(!new)>(le: (T, T) -> bool, x: T, s: seq<T>, all: seq<T>)
    requires Orders(le, all) && x in all && (forall y :: y in s ==> y in all) && SortedBy(le, s)
    ensures SortedBy(le, Insert(le, x, s))
  {
    if s != [] {
      var last := s[|s| - 1];
      var front := s[..|s| - 1];
      assert last in all;
      if le(last, x) {
        forall i | 0 <= i < |s|
          ensures le(s[i], x)
        {
          assert s[i] in all;
        }
      } else {
        InsertSorts(le, x, front, all);
        var r := Insert(le, x, front);
        forall i | 0 <= i < |r|
          ensures le(r[i], last)
        {
          assert r[i] in multiset(front) + multiset{x};
          assert r[i] in front || r[i] == x;
          assert last in all;
        }
      }
    }
  }

  lemma {:induction false} SortSorts<T(!new)>(le: (T, T) -> bool, s: seq<T>, all: seq<T>)
    requires Orders(le, all) && forall y :: y in s ==> y in all
    ensures SortedBy(le, Sort(le, s))
  {
    if s != [] {
      var front := s[..|s| - 1];
      SortSorts(le, front, all);
      SameItems(Sort(le, front), front);
      InsertSorts(le, s[|s| - 1], Sort(le, front), all);
    }
  }

  lemma SameLast<T(!new)>(le: (T, T) -> bool, a: seq<T>, b: seq<T>, all: seq<T>)
    requires Orders(le, all) && (forall x :: x in a ==> x in all)
    requires SortedBy(le, a) && SortedBy(le, b) && multiset(a) == multiset(b) && a != [] && b != []
    ensures a[|a| - 1] == b[|b| - 1]
  {
    SameItems(a, b);
    SameItems(b, a);
    LastIsGreatest(le, a, b[|b| - 1], all);
    LastIsGreatest(le, b, a[|a| - 1], all);
  }

  /** Without their last items the two are still sorted arrangements of the same items. */
  lemma SameFronts<T(!new)>(le: (T, T) -> bool, a: seq<T>, b: seq<T>, all: seq<T>)
    requires Orders(le, all) && (forall x :: x in a ==> x in all)
    requires SortedBy(le, a) && SortedBy(le, b) && multiset(a) == multiset(b) && a != [] && b != []
    ensures a[|a| - 1] == b[|b| - 1]
    ensures multiset(a[..|a| - 1]) == multiset(b[..|b| - 1])
  {
    hide Orders, SortedBy;
    SameLast(le, a, b, all);
    Front(a);
    Front(b);
  }

  lemma FrontIsSorted<T(!new)>(le: (T, T) -> bool, s: seq<T>)
    requires SortedBy(le, s) && s != []
    ensures SortedBy(le, s[..|s| - 1])
  {
  }

  lemma SameEnds<T>(a: seq<T>, b: seq<T>)
    requires a != [] && b != [] && a[..|a| - 1] == b[..|b| - 1] && a[|a| - 1] == b[|b| - 1]
    ensures a == b
  {
    assert a == a[..|a| - 1] + [a[|a| - 1]] && b == b[..|b| - 1] + [b[|b| - 1]];
  }

  /** A total order leaves only one way to arrange the same items. */
  lemma {:induction false} SortedIsUnique<T(!new)>(le: (T, T) -> bool, a: seq<T>, b: seq<T>, all: seq<T>)
    requires Orders(le, all) && (forall x :: x in a ==> x in all)
    requires SortedBy(le, a) && SortedBy(le, b) && multiset(a) == multiset(b)
    ensures a == b
  {
    hide Orders, SortedBy;
    SameSize(a, b);
    if a != [] {
      SameFronts(le, a, b, all);
      FrontIsSorted(le, a);
      FrontIsSorted(le, b);
      SortedIsUnique(le, a[..|a| - 1], b[..|b| - 1], all);
      SameEnds(a, b);
    }
  }

  lemma LastIsGreatest<T(!new)>(le: (T, T) -> bool, s: seq<T>, x: T, all: seq<T>)
    requires Orders(le, all) && x in all && x in s && SortedBy(le, s) && s[|s| - 1] in all
    ensures le(x, s[|s| - 1])
  {
    var i :| 0 <= i < |s| && s[i] == x;
  }

  /** So the order the items come in does not matter. */
  lemma SortIgnoresOrder<T(!new)>(le: (T, T) -> bool, a: seq<T>, b: seq<T>)
    requires Orders(le, a) && multiset(a) == multiset(b)
    ensures Sort(le, a) == Sort(le, b)
  {
    SameItems(b, a);
    SameItems(Sort(le, a), a);
    SortSorts(le, a, a);
    SortSorts(le, b, a);
    SortedIsUnique(le, Sort(le, a), Sort(le, b), a);
  }
}
