/** Sequences of rows identified by a key: the shape of every collection in the client ledger. */
module Tables {
  import opened Sequences

  ghost predicate Distinct<T(!new), K>(rows: seq<T>, key: T -> K) {
    forall i, j :: 0 <= i < j < |rows| ==> key(rows[i]) != key(rows[j])
  }

  predicate HasKey<T, K(==)>(rows: seq<T>, key: T -> K, k: K) {
    exists i :: 0 <= i < |rows| && key(rows[i]) == k
  }

  function Keys<T, K>(rows: seq<T>, key: T -> K): (ks: set<K>)
    ensures forall x :: x in rows ==> key(x) in ks
  {
    set i | 0 <= i < |rows| :: key(rows[i])
  }

  /** The first position holding key `k`, or -1. */
  function FindKey<T, K(==)>(rows: seq<T>, key: T -> K, k: K): (r: int)
    ensures -1 <= r < |rows|
    ensures r >= 0 ==> key(rows[r]) == k && forall i :: 0 <= i < r ==> key(rows[i]) != k
    ensures r < 0 ==> forall i :: 0 <= i < |rows| ==> key(rows[i]) != k
  {
    if rows == [] then -1
    else if key(rows[0]) == k then 0
    else
      var rest := FindKey(rows[1..], key, k);
      if rest < 0 then -1 else rest + 1
  }

  /** A create: appended unless the key is already present. */
  function Insert<T, K(==)>(rows: seq<T>, key: T -> K, row: T): seq<T> {
    if HasKey(rows, key, key(row)) then rows else rows + [row]
  }

  /** An update: the first row with key `k` is replaced in place, a missing key is a no-op. */
  function Update<T, K(==)>(rows: seq<T>, key: T -> K, k: K, f: T -> T): seq<T> {
    var i := FindKey(rows, key, k);
    if i < 0 then rows else rows[i := f(rows[i])]
  }

  function OnlyAt<T, K(==)>(key: T -> K, k: K, f: T -> T): T -> T {
    x => if key(x) == k then f(x) else x
  }

  lemma UpdateIsMap<T(!new), K>(rows: seq<T>, key: T -> K, k: K, f: T -> T)
    requires Distinct(rows, key)
    ensures Update(rows, key, k, f) == Map(rows, OnlyAt(key, k, f))
  {
    var i := FindKey(rows, key, k);
    assert forall j :: 0 <= j < |rows| && j != i ==> key(rows[j]) != k;
  }

  ghost predicate Preserves<T(!new), K>(key: T -> K, f: T -> T) {
    forall x :: key(f(x)) == key(x)
  }

  lemma {:induction false} DistinctFilter<T(!new), K>(rows: seq<T>, key: T -> K, p: T -> bool)
    requires Distinct(rows, key)
    ensures Distinct(Filter(rows, p), key)
  {
    if rows != [] {
      var init := rows[..|rows| - 1];
      DistinctFilter(init, key, p);
      var kept := Filter(init, p);
      forall i | 0 <= i < |kept| ensures key(kept[i]) != key(rows[|rows| - 1]) {
        assert kept[i] in init;
      }
    }
  }

  lemma DistinctMap<T(!new), K>(rows: seq<T>, key: T -> K, f: T -> T)
    requires Distinct(rows, key) && Preserves(key, f)
    ensures Distinct(Map(rows, f), key)
    ensures Keys(Map(rows, f), key) == Keys(rows, key)
  {
    var mapped := Map(rows, f);
    forall i | 0 <= i < |rows| ensures key(mapped[i]) == key(rows[i]) {}
  }

  lemma DistinctInsert<T(!new), K>(rows: seq<T>, key: T -> K, row: T)
    requires Distinct(rows, key)
    ensures Distinct(Insert(rows, key, row), key)
    ensures Keys(Insert(rows, key, row), key) == Keys(rows, key) + {key(row)}
  {
    var after := Insert(rows, key, row);
    assert forall i :: 0 <= i < |rows| ==> after[i] == rows[i];
    if HasKey(rows, key, key(row)) {
      assert key(row) in Keys(rows, key);
    } else {
      assert after[|rows|] == row;
      assert forall k :: k in Keys(rows, key) ==> k in Keys(after, key);
    }
  }

  lemma DistinctUpdate<T(!new), K>(rows: seq<T>, key: T -> K, k: K, f: T -> T)
    requires Distinct(rows, key)
    requires Preserves(key, f)
    ensures Distinct(Update(rows, key, k, f), key)
    ensures Keys(Update(rows, key, k, f), key) == Keys(rows, key)
  {
    UpdateIsMap(rows, key, k, f);
    assert Preserves(key, OnlyAt(key, k, f));
    DistinctMap(rows, key, OnlyAt(key, k, f));
  }
}
