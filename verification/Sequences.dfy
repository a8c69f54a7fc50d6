/** Sequence operations shared by the other modules, with the few laws their proofs need. */
module Sequences {

  datatype Option<+T> = None | Some(value: T)

  function Min(a: int, b: int): int { if a < b then a else b }

  function Max(a: int, b: int): int { if a < b then b else a }

  function Abs(a: int): int { if a < 0 then -a else a }

  /** The elements satisfying `p`, in their order. */
  function Filter<T>(s: seq<T>, p: T -> bool): (r: seq<T>)
    ensures forall x :: x in r ==> x in s && p(x)
    ensures forall x :: x in s && p(x) ==> x in r
  {
    if s == [] then [] else
      var init := s[..|s| - 1];
      var x := s[|s| - 1];
      assert s == init + [x];
      Filter(init, p) + (if p(x) then [x] else [])
  }

  function Map<A, B>(s: seq<A>, f: A -> B): (r: seq<B>)
    ensures |r| == |s| && forall i :: 0 <= i < |s| ==> r[i] == f(s[i])
  {
    seq(|s|, i requires 0 <= i < |s| => f(s[i]))
  }

  function Sum<T>(s: seq<T>, f: T -> int): int {
    if s == [] then 0 else Sum(s[..|s| - 1], f) + f(s[|s| - 1])
  }

  lemma {:induction false} FilterConcat<T>(a: seq<T>, b: seq<T>, p: T -> bool)
    ensures Filter(a + b, p) == Filter(a, p) + Filter(b, p)
  {
    if b == [] {
      assert a + b == a;
    } else {
      var init := b[..|b| - 1];
      assert (a + b)[..|a + b| - 1] == a + init;
      FilterConcat(a, init, p);
    }
  }

  lemma WholeTake<T>(s: seq<T>)
    ensures s[..|s|] == s
  {
  }

  lemma TakeOneMore<T>(s: seq<T>, i: nat)
    requires i < |s|
    ensures s[..i + 1] == s[..i] + [s[i]]
  {
  }

  lemma LastSplit<T>(s: seq<T>)
    requires s != []
    ensures s[..|s| - 1] + [s[|s| - 1]] == s
  {
  }

  lemma MapConcat<A, B>(a: seq<A>, b: seq<A>, f: A -> B)
    ensures Map(a + b, f) == Map(a, f) + Map(b, f)
  {
  }

  lemma {:induction false} SumConcat<T>(a: seq<T>, b: seq<T>, f: T -> int)
    ensures Sum(a + b, f) == Sum(a, f) + Sum(b, f)
  {
    if b == [] {
      assert a + b == a;
    } else {
      assert (a + b)[..|a + b| - 1] == a + b[..|b| - 1];
      SumConcat(a, b[..|b| - 1], f);
    }
  }

  /** One more element, as a loop that walks `s` from the front meets it. */
  lemma SumStep<T>(s: seq<T>, i: nat, f: T -> int)
    requires i < |s|
    ensures Sum(s[..i + 1], f) == Sum(s[..i], f) + f(s[i])
  {
    assert s[..i + 1][..i] == s[..i];
  }

  lemma FilterStep<T>(s: seq<T>, i: nat, p: T -> bool)
    requires i < |s|
    ensures p(s[i]) ==> Filter(s[..i + 1], p) == Filter(s[..i], p) + [s[i]]
    ensures !p(s[i]) ==> Filter(s[..i + 1], p) == Filter(s[..i], p)
  {
    assert s[..i + 1][..i] == s[..i];
  }

  lemma FilterOneMore<T>(s: seq<T>, x: T, p: T -> bool)
    ensures p(x) ==> Filter(s + [x], p) == Filter(s, p) + [x]
    ensures !p(x) ==> Filter(s + [x], p) == Filter(s, p)
  {
    assert (s + [x])[..|s|] == s;
  }

  lemma SumOneMore<T>(s: seq<T>, x: T, f: T -> int)
    ensures Sum(s + [x], f) == Sum(s, f) + f(x)
  {
    assert (s + [x])[..|s|] == s;
  }

  lemma FilterMember<T>(s: seq<T>, p: T -> bool, x: T)
    ensures x in Filter(s, p) <==> x in s && p(x)
  {
  }

  lemma {:induction false} FilterAll<T>(s: seq<T>, p: T -> bool)
    requires forall x :: x in s ==> p(x)
    ensures Filter(s, p) == s
  {
    if s != [] {
      assert s == s[..|s| - 1] + [s[|s| - 1]];
      FilterAll(s[..|s| - 1], p);
    }
  }

  lemma {:induction false} FilterNone<T>(s: seq<T>, p: T -> bool)
    requires forall x :: x in s ==> !p(x)
    ensures Filter(s, p) == []
  {
    if s != [] {
      assert s == s[..|s| - 1] + [s[|s| - 1]];
      FilterNone(s[..|s| - 1], p);
    }
  }

  lemma {:induction false} FilterAgrees<T>(s: seq<T>, p: T -> bool, q: T -> bool)
    requires forall x :: x in s ==> p(x) == q(x)
    ensures Filter(s, p) == Filter(s, q)
  {
    if s != [] { FilterAgrees(s[..|s| - 1], p, q); }
  }

  lemma {:induction false} FilterWithin<T>(s: seq<T>, p: T -> bool, q: T -> bool)
    requires forall x :: x in s && q(x) ==> p(x)
    ensures Filter(Filter(s, p), q) == Filter(s, q)
  {
    if s != [] {
      var n := |s| - 1;
      FilterWithin(s[..n], p, q);
      FilterConcat(Filter(s[..n], p), if p(s[n]) then [s[n]] else [], q);
    }
  }

  lemma {:induction false} FilterCommutes<T>(s: seq<T>, p: T -> bool, q: T -> bool)
    ensures Filter(Filter(s, p), q) == Filter(Filter(s, q), p)
  {
    if s != [] {
      var init := s[..|s| - 1];
      FilterCommutes(init, p, q);
      var last := [s[|s| - 1]];
      var pl := if p(last[0]) then last else [];
      var ql := if q(last[0]) then last else [];
      FilterConcat(Filter(init, p), pl, q);
      FilterConcat(Filter(init, q), ql, p);
    }
  }

  /** A filter that only looks at what `f` preserves can be applied before or after `f`. */
  lemma {:induction false} FilterMap<T>(s: seq<T>, f: T -> T, p: T -> bool)
    requires forall x :: x in s ==> p(f(x)) == p(x)
    ensures Filter(Map(s, f), p) == Map(Filter(s, p), f)
  {
    if s != [] {
      var n := |s| - 1;
      FilterMap(s[..n], f, p);
      LastSplit(s);
      assert Map(s, f) == Map(s[..n], f) + [f(s[n])];
      FilterOneMore(s[..n], s[n], p);
      FilterOneMore(Map(s[..n], f), f(s[n]), p);
      hide Filter;
      MapConcat(Filter(s[..n], p), [s[n]], f);
      assert Map([s[n]], f) == [f(s[n])];
    }
  }

  lemma {:induction false} SumEqual<T>(s: seq<T>, f: T -> int, g: T -> int)
    requires forall x :: x in s ==> f(x) == g(x)
    ensures Sum(s, f) == Sum(s, g)
  {
    if s != [] { SumEqual(s[..|s| - 1], f, g); }
  }

  /** What two disjoint conditions select adds up to what either selects. */
  lemma {:induction false} DisjointSum<T>(s: seq<T>, p: T -> bool, q: T -> bool, r: T -> bool, f: T -> int)
    requires forall x :: x in s ==> (p(x) <==> q(x) || r(x)) && !(q(x) && r(x))
    ensures Sum(Filter(s, p), f) == Sum(Filter(s, q), f) + Sum(Filter(s, r), f)
  {
    if s != [] {
      var n := |s| - 1;
      DisjointSum(s[..n], p, q, r, f);
      LastSplit(s);
      var x := s[n];
      FilterOneMore(s[..n], x, p);
      FilterOneMore(s[..n], x, q);
      FilterOneMore(s[..n], x, r);
      hide Filter;
      if p(x) { SumOneMore(Filter(s[..n], p), x, f); }
      if q(x) { SumOneMore(Filter(s[..n], q), x, f); }
      if r(x) { SumOneMore(Filter(s[..n], r), x, f); }
    }
  }

  lemma {:induction false} SumOfSums<T>(s: seq<T>, f: T -> int, g: T -> int, h: T -> int)
    requires forall x :: x in s ==> h(x) == f(x) + g(x)
    ensures Sum(s, h) == Sum(s, f) + Sum(s, g)
  {
    if s != [] { SumOfSums(s[..|s| - 1], f, g, h); }
  }

  lemma {:induction false} SumMap<A, B>(s: seq<A>, f: A -> B, g: B -> int, h: A -> int)
    requires forall x :: x in s ==> h(x) == g(f(x))
    ensures Sum(Map(s, f), g) == Sum(s, h)
  {
    if s != [] {
      SumMap(s[..|s| - 1], f, g, h);
      assert Map(s, f)[..|s| - 1] == Map(s[..|s| - 1], f);
    }
  }

  lemma NothingSummed<T>(s: seq<T>, f: T -> int)
    ensures Sum(s[..0], f) == 0
  {
  }

  lemma {:induction false} SumZero<T>(s: seq<T>, f: T -> int)
    requires forall x :: x in s ==> f(x) == 0
    ensures Sum(s, f) == 0
  {
    if s != [] { SumZero(s[..|s| - 1], f); }
  }

  lemma SumOne<T>(x: T, f: T -> int)
    ensures Sum([x], f) == f(x)
  {
    var s := [x];
    assert s[..|s| - 1] == [];
  }

  lemma SumTwo<T>(x: T, y: T, f: T -> int)
    ensures Sum([x, y], f) == f(x) + f(y)
  {
    assert [x] + [y] == [x, y];
    SumConcat([x], [y], f);
    SumOne(x, f);
    SumOne(y, f);
  }

  predicate EachOnce<T(==)>(s: seq<T>) { forall i, j :: 0 <= i < j < |s| ==> s[i] != s[j] }

  lemma {:induction false} EachOnceCounts<T>(s: seq<T>, x: T)
    requires EachOnce(s)
    ensures multiset(s)[x] == if x in s then 1 else 0
  {
    if s != [] {
      var n := |s| - 1;
      LastSplit(s);
      EachOnceCounts(s[..n], x);
      if x == s[n] { assert x !in s[..n]; }
    }
  }

  lemma {:induction false} FilterEachOnce<T>(s: seq<T>, p: T -> bool)
    requires EachOnce(s)
    ensures EachOnce(Filter(s, p))
  {
    if s != [] {
      var n := |s| - 1;
      FilterEachOnce(s[..n], p);
      assert forall x :: x in s[..n] ==> x != s[n];
    }
  }
}
