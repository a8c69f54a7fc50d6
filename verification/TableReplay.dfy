// How one table looks while a history is replayed over a snapshot that already absorbed it.
//
// `s` is the table in the snapshot, `o` the table in the clean run at the same point of the
// history, `r` the table in the replay. The replay keeps every snapshot row at its position,
// each field holding either its snapshot value or its clean-run value, and appends exactly the
// rows the clean run holds that the snapshot does not know (they were created and will be
// deleted by the part of the history still to come).
module TableReplay {
  import opened Sequences
  import opened Tables

  function NovelRow<T, K>(key: T -> K, novel: K -> bool): T -> bool { (x: T) => novel(key(x)) }

  predicate RowRel<T(==), K(==)>(s0: T, o: seq<T>, r0: T, key: T -> K, between: (T, T, T) -> bool) {
    && key(r0) == key(s0)
    && (forall x :: x in o && key(x) == key(s0) ==> between(s0, x, r0))
    && (!HasKey(o, key, key(s0)) ==> r0 == s0)
  }

  predicate TableRel<T(==), K(==)>(
    s: seq<T>, o: seq<T>, r: seq<T>, key: T -> K, novel: K -> bool, between: (T, T, T) -> bool)
  {
    && |s| <= |r|
    && (forall j :: 0 <= j < |s| ==> RowRel(s[j], o, r[j], key, between))
    && (forall j :: 0 <= j < |s| ==> !novel(key(s[j])))
    && r[|s|..] == Filter(o, NovelRow(key, novel))
  }

  lemma HeadTail<T>(r: seq<T>, n: nat)
    requires n <= |r|
    ensures r == r[..n] + r[n..]
  {
  }

  lemma TableStart<T, K>(
    s: seq<T>, o: seq<T>, key: T -> K, novel: K -> bool, between: (T, T, T) -> bool)
    requires forall j :: 0 <= j < |s| ==> !novel(key(s[j]))
    requires forall x :: x in o ==> !novel(key(x))
    requires forall a, b :: a in s && b in o && key(a) == key(b) ==> between(a, b, a)
    ensures TableRel(s, o, s, key, novel, between)
  {
    FilterNone(o, NovelRow(key, novel));
  }

  lemma TableEnd<T, K>(
    s: seq<T>, r: seq<T>, key: T -> K, novel: K -> bool, between: (T, T, T) -> bool)
    requires TableRel(s, s, r, key, novel, between)
    requires forall a, b :: a in s && b in r && between(a, a, b) ==> b == a
    ensures r == s
  {
    forall x | x in s ensures !NovelRow(key, novel)(x) {}
    FilterNone(s, NovelRow(key, novel));
    forall j | 0 <= j < |s| ensures r[j] == s[j] {
      assert RowRel(s[j], s, r[j], key, between);
      assert s[j] in s && r[j] in r;
    }
  }

  /** The replay's rows keep distinct keys. */
  lemma RelDistinct<T(!new), K>(
    s: seq<T>, o: seq<T>, r: seq<T>, key: T -> K, novel: K -> bool, between: (T, T, T) -> bool)
    requires TableRel(s, o, r, key, novel, between)
    requires Distinct(s, key) && Distinct(o, key)
    ensures Distinct(r, key)
  {
    DistinctFilter(o, key, NovelRow(key, novel));
    var tail := r[|s|..];
    forall i, j | 0 <= i < j < |r| ensures key(r[i]) != key(r[j]) {
      if j < |s| {
        assert RowRel(s[i], o, r[i], key, between) && RowRel(s[j], o, r[j], key, between);
      } else if i < |s| {
        assert RowRel(s[i], o, r[i], key, between);
        assert r[j] == tail[j - |s|];
        assert NovelRow(key, novel)(tail[j - |s|]);
      } else {
        assert r[i] == tail[i - |s|] && r[j] == tail[j - |s|];
      }
    }
  }

  /** Where a key of the replay comes from. */
  lemma RelHasKey<T(!new), K>(
    s: seq<T>, o: seq<T>, r: seq<T>, key: T -> K, novel: K -> bool, between: (T, T, T) -> bool, k: K)
    requires TableRel(s, o, r, key, novel, between)
    ensures HasKey(r, key, k) <==> HasKey(s, key, k) || (novel(k) && HasKey(o, key, k))
  {
    var tail := r[|s|..];
    if HasKey(r, key, k) {
      var i :| 0 <= i < |r| && key(r[i]) == k;
      if i < |s| {
        assert RowRel(s[i], o, r[i], key, between);
      } else {
        assert r[i] == tail[i - |s|];
        assert tail[i - |s|] in o;
      }
    }
    if HasKey(s, key, k) {
      var i :| 0 <= i < |s| && key(s[i]) == k;
      assert RowRel(s[i], o, r[i], key, between);
    }
    if novel(k) && HasKey(o, key, k) {
      var i :| 0 <= i < |o| && key(o[i]) == k;
      assert NovelRow(key, novel)(o[i]);
      assert o[i] in tail;
      var j :| 0 <= j < |tail| && tail[j] == o[i];
      assert r[|s| + j] == tail[j];
    }
  }

  lemma RowInsert<T(!new), K>(
    s0: T, o: seq<T>, r0: T, key: T -> K, between: (T, T, T) -> bool, row: T)
    requires RowRel(s0, o, r0, key, between)
    requires !HasKey(o, key, key(row))
    requires key(s0) == key(row) ==> between(s0, row, s0)
    ensures RowRel(s0, o + [row], r0, key, between)
  {
    var o' := o + [row];
    assert o'[|o|] == row;
    if HasKey(o, key, key(s0)) {
      var i :| 0 <= i < |o| && key(o[i]) == key(s0);
      assert o'[i] == o[i];
    }
  }

  /** A create whose key the clean run has not seen. */
  lemma TableInsert<T(!new), K>(
    s: seq<T>, o: seq<T>, r: seq<T>, key: T -> K, novel: K -> bool, between: (T, T, T) -> bool, row: T)
    requires TableRel(s, o, r, key, novel, between)
    requires !HasKey(o, key, key(row))
    requires novel(key(row)) || HasKey(s, key, key(row))
    requires forall a :: a in s && key(a) == key(row) ==> between(a, row, a)
    ensures TableRel(s, Insert(o, key, row), Insert(r, key, row), key, novel, between)
  {
    var o', r' := Insert(o, key, row), Insert(r, key, row);
    assert o' == o + [row];
    RelHasKey(s, o, r, key, novel, between, key(row));
    assert r' == if HasKey(s, key, key(row)) then r else r + [row];
    FilterOneMore(o, row, NovelRow(key, novel));
    assert r'[|s|..] == r[|s|..] + if HasKey(s, key, key(row)) then [] else [row];
    forall j | 0 <= j < |s| ensures RowRel(s[j], o', r'[j], key, between) {
      assert s[j] in s && r'[j] == r[j];
      RowInsert(s[j], o, r[j], key, between, row);
    }
  }

  lemma RowMap<T(!new), K>(
    s0: T, o: seq<T>, r0: T, key: T -> K, between: (T, T, T) -> bool, f: T -> T)
    requires RowRel(s0, o, r0, key, between) && Preserves(key, f)
    requires forall b :: b in o && key(b) == key(s0) && between(s0, b, r0) ==> between(s0, f(b), f(r0))
    requires !HasKey(o, key, key(s0)) ==> f(s0) == s0
    ensures RowRel(s0, Map(o, f), f(r0), key, between)
  {
    var o' := Map(o, f);
    forall x | x in o' && key(x) == key(s0) ensures between(s0, x, f(r0)) {
      var i :| 0 <= i < |o'| && o'[i] == x;
      assert o[i] in o;
    }
    if HasKey(o, key, key(s0)) {
      var i :| 0 <= i < |o| && key(o[i]) == key(s0);
      assert key(o'[i]) == key(s0);
    }
  }

  /** An operation that rewrites rows one by one. */
  lemma TableMap<T(!new), K>(
    s: seq<T>, o: seq<T>, r: seq<T>, key: T -> K, novel: K -> bool, between: (T, T, T) -> bool, f: T -> T)
    requires TableRel(s, o, r, key, novel, between) && Preserves(key, f)
    requires forall a, b, c :: a in s && b in o && key(b) == key(a) && between(a, b, c) ==> between(a, f(b), f(c))
    requires forall a :: a in s && !HasKey(o, key, key(a)) ==> f(a) == a
    ensures TableRel(s, Map(o, f), Map(r, f), key, novel, between)
  {
    var o', r' := Map(o, f), Map(r, f);
    FilterMap(o, f, NovelRow(key, novel));
    assert r'[|s|..] == Map(r[|s|..], f);
    forall j | 0 <= j < |s| ensures RowRel(s[j], o', r'[j], key, between) {
      assert s[j] in s;
      RowMap(s[j], o, r[j], key, between, f);
    }
  }

  lemma RowFilter<T(!new), K>(
    s0: T, o: seq<T>, r0: T, key: T -> K, between: (T, T, T) -> bool, p: T -> bool)
    requires RowRel(s0, o, r0, key, between)
    requires forall x :: x in o && key(x) == key(s0) ==> p(x)
    ensures RowRel(s0, Filter(o, p), r0, key, between)
  {
    if HasKey(o, key, key(s0)) {
      var i :| 0 <= i < |o| && key(o[i]) == key(s0);
      assert o[i] in o;
      assert o[i] in Filter(o, p);
    }
  }

  /** A delete: it drops no row the snapshot still has. */
  lemma TableFilter<T(!new), K>(
    s: seq<T>, o: seq<T>, r: seq<T>, key: T -> K, novel: K -> bool, between: (T, T, T) -> bool, p: T -> bool)
    requires TableRel(s, o, r, key, novel, between)
    requires forall j :: 0 <= j < |s| ==> p(r[j])
    requires forall x :: x in o && HasKey(s, key, key(x)) ==> p(x)
    ensures TableRel(s, Filter(o, p), Filter(r, p), key, novel, between)
  {
    var o', r' := Filter(o, p), Filter(r, p);
    var head, tail := r[..|s|], r[|s|..];
    HeadTail(r, |s|);
    FilterConcat(head, tail, p);
    FilterAll(head, p);
    FilterCommutes(o, NovelRow(key, novel), p);
    assert r' == head + Filter(tail, p);
    assert r'[|s|..] == Filter(tail, p);
    forall j | 0 <= j < |s| ensures RowRel(s[j], o', r'[j], key, between) {
      assert r'[j] == r[j];
      assert forall x :: x in o && key(x) == key(s[j]) ==> HasKey(s, key, key(x));
      RowFilter(s[j], o, r[j], key, between, p);
    }
  }

  /** An operation that rewrites rows of the clean run and finds nothing to rewrite in the replay. */
  lemma TableMapLeft<T(!new), K>(
    s: seq<T>, o: seq<T>, r: seq<T>, key: T -> K, novel: K -> bool, between: (T, T, T) -> bool, f: T -> T)
    requires TableRel(s, o, r, key, novel, between) && Preserves(key, f)
    requires forall a, b, c :: a in s && b in o && c in r && key(b) == key(a) && between(a, b, c) ==>
      between(a, f(b), c)
    requires forall x :: x in r && novel(key(x)) ==> f(x) == x
    ensures TableRel(s, Map(o, f), r, key, novel, between)
  {
    var tail := r[|s|..];
    FilterMap(o, f, NovelRow(key, novel));
    forall j | 0 <= j < |tail| ensures f(tail[j]) == tail[j] {
      assert tail[j] in tail && tail[j] == r[|s| + j];
    }
    assert Map(tail, f) == tail;
    forall j | 0 <= j < |s| ensures RowRel(s[j], Map(o, f), r[j], key, between) {
      assert s[j] in s && r[j] in r;
      RowMapLeft(s[j], o, r[j], key, between, f);
    }
  }

  lemma RowMapLeft<T(!new), K>(s0: T, o: seq<T>, r0: T, key: T -> K, between: (T, T, T) -> bool, f: T -> T)
    requires RowRel(s0, o, r0, key, between) && Preserves(key, f)
    requires forall b :: b in o && key(b) == key(s0) && between(s0, b, r0) ==> between(s0, f(b), r0)
    ensures RowRel(s0, Map(o, f), r0, key, between)
  {
    var o' := Map(o, f);
    forall x | x in o' && key(x) == key(s0) ensures between(s0, x, r0) {
      var i :| 0 <= i < |o'| && o'[i] == x;
      assert o[i] in o;
    }
    if HasKey(o, key, key(s0)) {
      var i :| 0 <= i < |o| && key(o[i]) == key(s0);
      assert key(o'[i]) == key(s0);
    }
  }
}
