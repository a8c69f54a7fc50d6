/** Running totals per key, in the order the keys are first met. */
module KeyedTotals {
  import opened Sequences

  function FirstSeen<A, K(==)>(s: seq<A>, key: A -> K): seq<K> {
    if s == [] then [] else
      var before := FirstSeen(s[..|s| - 1], key);
      var k := key(s[|s| - 1]);
      if k in before then before else before + [k]
  }

  function WithKey<A, K(==)>(key: A -> K, k: K): A -> bool { (x: A) => key(x) == k }

  function TotalAt<A, K(==)>(s: seq<A>, key: A -> K, f: A -> int): K -> int {
    (k: K) => Sum(Filter(s, WithKey(key, k)), f)
  }

  lemma FirstSeenStep<A, K>(s: seq<A>, x: A, key: A -> K)
    ensures FirstSeen(s + [x], key) == if key(x) in FirstSeen(s, key) then FirstSeen(s, key)
      else FirstSeen(s, key) + [key(x)]
  {
    assert (s + [x])[..|s|] == s;
  }

  lemma {:induction false} FirstSeenOnce<A, K>(s: seq<A>, key: A -> K)
    ensures EachOnce(FirstSeen(s, key))
  {
    if s != [] { FirstSeenOnce(s[..|s| - 1], key); }
  }

  lemma {:induction false} SeenHasKey<A, K>(s: seq<A>, key: A -> K, x: A)
    requires x in s
    ensures key(x) in FirstSeen(s, key)
  {
    var n := |s| - 1;
    assert s == s[..n] + [s[n]];
    if x != s[n] { SeenHasKey(s[..n], key, x); }
  }

  lemma {:induction false} KeyWasSeen<A, K>(s: seq<A>, key: A -> K, k: K) returns (x: A)
    requires k in FirstSeen(s, key)
    ensures x in s && key(x) == k
  {
    var n := |s| - 1;
    if k in FirstSeen(s[..n], key) { x := KeyWasSeen(s[..n], key, k); } else { x := s[n]; }
  }

  lemma TotalStep<A, K>(s: seq<A>, x: A, key: A -> K, f: A -> int, k: K)
    ensures TotalAt(s + [x], key, f)(k) == TotalAt(s, key, f)(k) + if key(x) == k then f(x) else 0
  {
    FilterOneMore(s, x, WithKey(key, k));
    hide Filter, Sum;
    if key(x) == k { SumOneMore(Filter(s, WithKey(key, k)), x, f); }
  }

  lemma NotSeen<A, K>(s: seq<A>, key: A -> K, f: A -> int, k: K)
    requires k !in FirstSeen(s, key)
    ensures Filter(s, WithKey(key, k)) == [] && TotalAt(s, key, f)(k) == 0
  {
    forall x | x in s ensures !WithKey(key, k)(x) { SeenHasKey(s, key, x); }
    FilterNone(s, WithKey(key, k));
  }

  lemma {:induction false} SumBump<K>(keys: seq<K>, f: K -> int, g: K -> int, k: K, d: int)
    requires EachOnce(keys) && forall j :: j in keys ==> g(j) == f(j) + if j == k then d else 0
    ensures Sum(keys, g) == Sum(keys, f) + if k in keys then d else 0
  {
    if keys != [] {
      var n := |keys| - 1;
      SumBump(keys[..n], f, g, k, d);
      assert keys == keys[..n] + [keys[n]];
      if keys[n] == k { assert k !in keys[..n]; }
    }
  }

  lemma TotalSteps<A, K(!new)>(s: seq<A>, x: A, key: A -> K, f: A -> int)
    ensures forall k :: TotalAt(s + [x], key, f)(k) == TotalAt(s, key, f)(k) + if k == key(x) then f(x) else 0
  {
    hide *;
    forall k ensures TotalAt(s + [x], key, f)(k) == TotalAt(s, key, f)(k) + if k == key(x) then f(x) else 0
    { TotalStep(s, x, key, f, k); }
  }

  lemma PartitionStep<A, K(!new)>(init: seq<A>, x: A, key: A -> K, f: A -> int)
    ensures Sum(FirstSeen(init + [x], key), TotalAt(init + [x], key, f)) ==
      Sum(FirstSeen(init, key), TotalAt(init, key, f)) + f(x)
  {
    hide *;
    var keys, k := FirstSeen(init, key), key(x);
    var before, after := TotalAt(init, key, f), TotalAt(init + [x], key, f);
    FirstSeenStep(init, x, key);
    FirstSeenOnce(init, key);
    TotalSteps(init, x, key, f);
    SumBump(keys, before, after, k, f(x));
    if k !in keys {
      NotSeen(init, key, f, k);
      SumOneMore(keys, k, after);
    }
  }

  /** Cutting a list up by key loses nothing. */
  lemma {:induction false} PartitionSum<A, K(!new)>(s: seq<A>, key: A -> K, f: A -> int)
    ensures Sum(FirstSeen(s, key), TotalAt(s, key, f)) == Sum(s, f)
  {
    hide *;
    if s == [] {
      NothingToCut(key, f);
    } else {
      var n := |s| - 1;
      PartitionSum(s[..n], key, f);
      LastSplit(s);
      PartitionStep(s[..n], s[n], key, f);
      SumOneMore(s[..n], s[n], f);
    }
  }

  lemma NothingToCut<A, K>(key: A -> K, f: A -> int)
    ensures FirstSeen([], key) == [] && Sum([], f) == 0 && Sum([], TotalAt([], key, f)) == 0
  {
  }

  /** A map of running totals and the order of its keys, after walking `s`. */
  ghost predicate Tallied<A(!new), K(!new)>(s: seq<A>, key: A -> K, f: A -> int, order: seq<K>, sums: map<K, int>) {
    order == FirstSeen(s, key) && (forall k :: k in sums <==> k in order) && forall k :: k in sums ==>
      sums[k] == TotalAt(s, key, f)(k)
  }

  lemma TallyStep<A(!new), K(!new)>(s: seq<A>, x: A, key: A -> K, f: A -> int, order: seq<K>, sums: map<K, int>)
    requires Tallied(s, key, f, order, sums)
    ensures var k := key(x);
      Tallied(s + [x], key, f, if k in sums then order
        else order + [k], sums[k := (if k in sums then sums[k] else 0) + f(x)])
  {
    var k := key(x);
    FirstSeenStep(s, x, key);
    TotalSteps(s, x, key, f);
    hide TotalAt, FirstSeen;
    if k !in sums { NotSeen(s, key, f, k); }
  }

  lemma TallyNothing<A(!new), K(!new)>(key: A -> K, f: A -> int)
    ensures Tallied([], key, f, [], map[])
  {
  }

  // ---- lists of lists -----------------------------------------------------------------------------------

  function FlatMap<A, B>(s: seq<A>, g: A -> seq<B>): seq<B> {
    if s == [] then [] else FlatMap(s[..|s| - 1], g) + g(s[|s| - 1])
  }

  lemma FlatMapOneMore<A, B>(s: seq<A>, x: A, g: A -> seq<B>)
    ensures FlatMap(s + [x], g) == FlatMap(s, g) + g(x)
  {
    assert (s + [x])[..|s|] == s;
  }

  /** What the pieces of each element add up to, added up. */
  lemma {:induction false} FlatSum<A, B>(s: seq<A>, g: A -> seq<B>, f: B -> int, h: A -> int)
    requires forall x :: x in s ==> Sum(g(x), f) == h(x)
    ensures Sum(FlatMap(s, g), f) == Sum(s, h)
  {
    if s != [] {
      var n := |s| - 1;
      FlatSum(s[..n], g, f, h);
      SumConcat(FlatMap(s[..n], g), g(s[n]), f);
    }
  }

  /** The same for what a condition selects of the pieces. */
  lemma {:induction false} FlatFilterSum<A, B>(s: seq<A>, g: A -> seq<B>, p: B -> bool, f: B -> int, h: A -> int)
    requires forall x :: x in s ==> Sum(Filter(g(x), p), f) == h(x)
    ensures Sum(Filter(FlatMap(s, g), p), f) == Sum(s, h)
  {
    if s != [] {
      var n := |s| - 1;
      FlatFilterSum(s[..n], g, p, f, h);
      FilterConcat(FlatMap(s[..n], g), g(s[n]), p);
      hide Filter;
      SumConcat(Filter(FlatMap(s[..n], g), p), Filter(g(s[n]), p), f);
    }
  }

  /** Selecting first, or counting nothing for the others, gives the same sum. */
  lemma {:induction false} SumWhere<T>(s: seq<T>, p: T -> bool, f: T -> int, h: T -> int)
    requires forall x :: x in s ==> h(x) == if p(x) then f(x) else 0
    ensures Sum(Filter(s, p), f) == Sum(s, h)
  {
    if s != [] {
      var n := |s| - 1;
      SumWhere(s[..n], p, f, h);
      LastSplit(s);
      FilterOneMore(s[..n], s[n], p);
      hide Filter;
      if p(s[n]) { SumOneMore(Filter(s[..n], p), s[n], f); }
    }
  }
}
