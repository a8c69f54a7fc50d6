/** A stable sort, standing for the built-in one, and what makes its result unique. */
module Sorting {
  import opened Sequences

  ghost predicate TotalOrder<T(!new)>(le: (T, T) -> bool) {
    && (forall x, y :: le(x, y) || le(y, x))
    && (forall x, y, z :: le(x, y) && le(y, z) ==> le(x, z))
  }

  predicate Ordered<T>(s: seq<T>, le: (T, T) -> bool) {
    forall i, j :: 0 <= i < j < |s| ==> le(s[i], s[j])
  }

  /** `x` goes after everything that is not greater. */
  function Place<T>(s: seq<T>, x: T, le: (T, T) -> bool): seq<T> {
    if s == [] then [x]
    else if le(s[|s| - 1], x) then s + [x]
    else Place(s[..|s| - 1], x, le) + [s[|s| - 1]]
  }

  function Sort<T>(s: seq<T>, le: (T, T) -> bool): seq<T> {
    if s == [] then [] else Place(Sort(s[..|s| - 1], le), s[|s| - 1], le)
  }

  lemma {:induction false} PlaceKeeps<T>(s: seq<T>, x: T, le: (T, T) -> bool)
    ensures multiset(Place(s, x, le)) == multiset(s) + multiset{x}
  {
    if s != [] {
      assert s == s[..|s| - 1] + [s[|s| - 1]];
      if !le(s[|s| - 1], x) { PlaceKeeps(s[..|s| - 1], x, le); }
    }
  }

  lemma {:induction false} SortKeeps<T>(s: seq<T>, le: (T, T) -> bool)
    ensures multiset(Sort(s, le)) == multiset(s)
  {
    if s != [] {
      assert s == s[..|s| - 1] + [s[|s| - 1]];
      SortKeeps(s[..|s| - 1], le);
      PlaceKeeps(Sort(s[..|s| - 1], le), s[|s| - 1], le);
    }
  }

  lemma SameElements<T>(a: seq<T>, b: seq<T>)
    requires multiset(a) == multiset(b)
    ensures |a| == |b| && forall x :: x in a ==> x in b
  {
    assert |multiset(a)| == |a| && |multiset(b)| == |b|;
    forall x | x in a ensures x in b { assert x in multiset(a); }
  }

  lemma TwiceCounted<T>(s: seq<T>, i: nat, j: nat)
    requires i < j < |s| && s[i] == s[j]
    ensures multiset(s)[s[i]] >= 2
  {
    assert s == s[..j] + s[j..];
    assert s[i] in s[..j] && s[j] in s[j..];
  }

  lemma {:induction false} PlaceOrdered<T(!new)>(s: seq<T>, x: T, le: (T, T) -> bool)
    requires TotalOrder(le) && Ordered(s, le)
    ensures Ordered(Place(s, x, le), le)
  {
    if s != [] && !le(s[|s| - 1], x) {
      var init, last := s[..|s| - 1], s[|s| - 1];
      PlaceOrdered(init, x, le);
      PlaceKeeps(init, x, le);
      var placed := Place(init, x, le);
      forall i | 0 <= i < |placed| ensures le(placed[i], last) {
        assert placed[i] in multiset(placed);
        assert placed[i] == x || placed[i] in init;
      }
    }
  }

  lemma {:induction false} SortOrdered<T(!new)>(s: seq<T>, le: (T, T) -> bool)
    requires TotalOrder(le)
    ensures Ordered(Sort(s, le), le)
  {
    if s != [] {
      SortOrdered(s[..|s| - 1], le);
      PlaceOrdered(Sort(s[..|s| - 1], le), s[|s| - 1], le);
    }
  }

  /** An already ordered list is left alone. */
  lemma {:induction false} SortOfOrdered<T>(s: seq<T>, le: (T, T) -> bool)
    requires Ordered(s, le)
    ensures Sort(s, le) == s
  {
    if s != [] {
      SortOfOrdered(s[..|s| - 1], le);
      assert s == s[..|s| - 1] + [s[|s| - 1]];
    }
  }

  ghost predicate Antisymmetric<T(!new)>(s: seq<T>, le: (T, T) -> bool) {
    forall x, y :: x in s && y in s && le(x, y) && le(y, x) ==> x == y
  }

  lemma SameLast<T(!new)>(a: seq<T>, b: seq<T>, le: (T, T) -> bool)
    requires multiset(a) == multiset(b) && Ordered(a, le) && Ordered(b, le) && Antisymmetric(a, le) && a != []
    ensures |b| == |a| && b[|b| - 1] == a[|a| - 1]
  {
    SameElements(a, b);
    SameElements(b, a);
    var x, y := a[|a| - 1], b[|b| - 1];
    assert x in a && x in b && y in a && y in b;
    var i :| 0 <= i < |a| && a[i] == y;
    var j :| 0 <= j < |b| && b[j] == x;
  }

  lemma DropLast<T(!new)>(a: seq<T>, le: (T, T) -> bool)
    requires a != [] && Ordered(a, le) && Antisymmetric(a, le)
    ensures var init := a[..|a| - 1];
      Ordered(init, le) && Antisymmetric(init, le) &&
      multiset(a) == multiset(init) + multiset{a[|a| - 1]}
  {
    assert a == a[..|a| - 1] + [a[|a| - 1]];
  }

  /** Ordered lists of the same elements are equal when the order tells those elements apart. */
  lemma {:induction false} OrderedUnique<T(!new)>(a: seq<T>, b: seq<T>, le: (T, T) -> bool)
    requires multiset(a) == multiset(b) && Ordered(a, le) && Ordered(b, le) && Antisymmetric(a, le)
    ensures a == b
  {
    if a == [] {
      assert |multiset(b)| == 0;
    } else {
      SameLast(a, b, le);
      AntisymmetricBoth(a, b, le);
      DropLast(a, le);
      DropLast(b, le);
      hide Antisymmetric, Ordered;
      var n := |a| - 1;
      CancelOne(multiset(a[..n]), multiset(b[..n]), a[n]);
      OrderedUnique(a[..n], b[..n], le);
      assert a == a[..n] + [a[n]] && b == b[..n] + [b[n]];
    }
  }

  lemma CancelOne<T>(p: multiset<T>, q: multiset<T>, x: T)
    requires p + multiset{x} == q + multiset{x}
    ensures p == q
  {
    assert p == (p + multiset{x}) - multiset{x};
    assert q == (q + multiset{x}) - multiset{x};
  }

  lemma AntisymmetricBoth<T(!new)>(a: seq<T>, b: seq<T>, le: (T, T) -> bool)
    requires multiset(a) == multiset(b) && Antisymmetric(a, le)
    ensures Antisymmetric(b, le)
  {
    SameElements(b, a);
  }

  /** Sorting forgets the input order when the order tells the elements apart. */
  lemma SortUnique<T(!new)>(a: seq<T>, b: seq<T>, le: (T, T) -> bool)
    requires TotalOrder(le) && multiset(a) == multiset(b) && Antisymmetric(a, le)
    ensures Sort(a, le) == Sort(b, le)
  {
    SortKeeps(a, le);
    SortKeeps(b, le);
    SortOrdered(a, le);
    SortOrdered(b, le);
    SameElements(Sort(a, le), a);
    OrderedUnique(Sort(a, le), Sort(b, le), le);
  }

  lemma {:induction false} FilterOrdered<T>(s: seq<T>, p: T -> bool, le: (T, T) -> bool)
    requires Ordered(s, le)
    ensures Ordered(Filter(s, p), le)
  {
    if s != [] {
      var n := |s| - 1;
      FilterOrdered(s[..n], p, le);
      forall x | x in Filter(s[..n], p) ensures le(x, s[n]) {
        var i :| 0 <= i < n && s[i] == x;
      }
    }
  }

  function Without<T>(s: seq<T>, i: nat): seq<T>
    requires i < |s|
  {
    s[..i] + s[i + 1..]
  }

  lemma WithoutCounts<T>(s: seq<T>, i: nat)
    requires i < |s|
    ensures multiset(s) == multiset(Without(s, i)) + multiset{s[i]}
  {
    assert s == s[..i] + [s[i]] + s[i + 1..];
  }

  lemma MapWithout<A, B>(s: seq<A>, i: nat, f: A -> B)
    requires i < |s|
    ensures Without(Map(s, f), i) == Map(Without(s, i), f)
  {
  }

  /** The same elements in another order: take the last of `a` out of both. */
  lemma TakeOut<T>(a: seq<T>, b: seq<T>) returns (i: nat)
    requires multiset(a) == multiset(b) && a != []
    ensures i < |b| && b[i] == a[|a| - 1] && multiset(a[..|a| - 1]) == multiset(Without(b, i))
  {
    SameElements(a, b);
    var n := |a| - 1;
    assert a[n] in b;
    i :| 0 <= i < |b| && b[i] == a[n];
    WithoutCounts(b, i);
    assert a == a[..n] + [a[n]];
    CancelOne(multiset(a[..n]), multiset(Without(b, i)), a[n]);
  }

  lemma {:induction false} MapPermuted<A, B>(a: seq<A>, b: seq<A>, f: A -> B)
    requires multiset(a) == multiset(b)
    ensures multiset(Map(a, f)) == multiset(Map(b, f))
  {
    if a == [] {
      SameElements(a, b);
    } else {
      var n := |a| - 1;
      var i := TakeOut(a, b);
      MapPermuted(a[..n], Without(b, i), f);
      assert Map(a, f) == Map(a[..n], f) + [f(a[n])];
      MapWithout(b, i, f);
      WithoutCounts(Map(b, f), i);
    }
  }

  lemma {:induction false} PlaceSum<T>(s: seq<T>, x: T, le: (T, T) -> bool, f: T -> int)
    ensures Sum(Place(s, x, le), f) == Sum(s, f) + f(x)
  {
    SumOne(x, f);
    if s != [] && !le(s[|s| - 1], x) {
      var placed, last := Place(s[..|s| - 1], x, le), s[|s| - 1];
      PlaceSum(s[..|s| - 1], x, le, f);
      assert (placed + [last])[..|placed|] == placed;
    } else {
      assert (s + [x])[..|s|] == s;
    }
  }

  lemma {:induction false} SortSum<T>(s: seq<T>, le: (T, T) -> bool, f: T -> int)
    ensures Sum(Sort(s, le), f) == Sum(s, f)
  {
    if s != [] {
      SortSum(s[..|s| - 1], le, f);
      PlaceSum(Sort(s[..|s| - 1], le), s[|s| - 1], le, f);
    }
  }

  lemma EachOncePermuted<T>(a: seq<T>, b: seq<T>)
    requires EachOnce(a) && multiset(a) == multiset(b)
    ensures EachOnce(b)
  {
    forall i, j | 0 <= i < j < |b| ensures b[i] != b[j] {
      EachOnceCounts(a, b[i]);
      if b[i] == b[j] { TwiceCounted(b, i, j); }
    }
  }
}
