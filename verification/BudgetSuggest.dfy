// Suggestions for distributing money over envelopes.
//
// Shares are computed exactly here, as quotient and remainder; the program divides floating-point numbers.
// An id is a number whose order stands for the order of id texts.
module BudgetSuggest {
  import opened Sequences
  import opened Sorting

  type Id = nat
  type Money = int

  // ---- largest remainder --------------------------------------------------------------------------------

  datatype Weighted = Weighted(id: Id, weight: nat)

  datatype Fraction = Fraction(id: Id, remainder: nat)

  function WeightOf(): Weighted -> int { (e: Weighted) => e.weight }

  function Total(entries: seq<Weighted>): int { Sum(entries, WeightOf()) }


  function Base(amount: nat, total: nat): Weighted -> int
    requires total > 0
  {
    (e: Weighted) => (amount * e.weight) / total
  }

  function Remainder(amount: nat, total: nat): Weighted -> int
    requires total > 0
  {
    (e: Weighted) => (amount * e.weight) % total
  }

  function FractionOf(amount: nat, total: nat): Weighted -> Fraction
    requires total > 0
  {
    (e: Weighted) => Fraction(e.id, (amount * e.weight) % total)
  }

  /** Largest fraction first, ties by id. */
  function ByFraction(): (Fraction, Fraction) -> bool {
    (a: Fraction, b: Fraction) => a.remainder > b.remainder || (a.remainder == b.remainder && a.id <= b.id)
  }

  function Ranking(entries: seq<Weighted>, amount: nat, total: nat): seq<Fraction>
    requires total > 0
  {
    Sort(Map(entries, FractionOf(amount, total)), ByFraction())
  }

  function Left(entries: seq<Weighted>, amount: nat, total: nat): int
    requires total > 0
  {
    amount - Sum(entries, Base(amount, total))
  }

  function IdOf(): Fraction -> Id { (f: Fraction) => f.id }

  function RemainderOf(): Fraction -> int { (f: Fraction) => f.remainder }

  predicate DistinctIds(entries: seq<Weighted>) {
    forall i, j :: 0 <= i < j < |entries| ==> entries[i].id != entries[j].id
  }

  lemma {:induction false} Quotients(entries: seq<Weighted>, amount: nat, total: nat)
    requires total > 0
    ensures Sum(entries, Base(amount, total)) * total + Sum(entries, Remainder(amount, total)) ==
      amount * Total(entries)
    ensures Sum(entries, Remainder(amount, total)) >= 0
  {
    if entries != [] {
      var n := |entries| - 1;
      Quotients(entries[..n], amount, total);
      var e := entries[n];
      var q, r := (amount * e.weight) / total, (amount * e.weight) % total;
      assert amount * e.weight == q * total + r;
      var s, w := Sum(entries[..n], Base(amount, total)), Total(entries[..n]);
      assert (s + q) * total == s * total + q * total;
      assert amount * (w + e.weight) == amount * w + amount * e.weight;
    }
  }

  lemma {:induction false} RemaindersAgree(entries: seq<Weighted>, amount: nat, total: nat)
    requires total > 0
    ensures Sum(Map(entries, FractionOf(amount, total)), RemainderOf()) == Sum(entries, Remainder(amount, total))
  {
    if entries != [] {
      var n := |entries| - 1;
      RemaindersAgree(entries[..n], amount, total);
      assert Map(entries, FractionOf(amount, total))[..n] == Map(entries[..n], FractionOf(amount, total));
    }
  }

  /** The units left over are what the remainders add up to, in whole totals. */
  lemma {:induction false} LeftIsRemainders(entries: seq<Weighted>, amount: nat, total: nat)
    requires total > 0 && total == Total(entries)
    ensures Left(entries, amount, total) * total == Sum(Ranking(entries, amount, total), RemainderOf())
    ensures Left(entries, amount, total) >= 0
  {
    Quotients(entries, amount, total);
    RemaindersAgree(entries, amount, total);
    SortSum(Map(entries, FractionOf(amount, total)), ByFraction(), RemainderOf());
    hide Sort, Sum;
    LeftArithmetic(Sum(entries, Base(amount, total)), Sum(entries, Remainder(amount, total)), amount, total);
  }

  lemma LeftArithmetic(s: int, r: int, amount: nat, total: nat)
    requires total > 0 && s * total + r == amount * total && r >= 0
    ensures (amount - s) * total == r && amount - s >= 0
  {
    assert (amount - s) * total == amount * total - s * total;
    assert amount - s < 0 ==> (amount - s) * total < 0;
  }

  ghost predicate Proper(ranking: seq<Fraction>, total: nat) { forall f :: f in ranking ==> f.remainder < total }

  lemma {:induction false} SumBelow(ranking: seq<Fraction>, total: nat)
    requires total > 0 && Proper(ranking, total)
    ensures 0 <= Sum(ranking, RemainderOf()) <= |ranking| * (total - 1)
  {
    if ranking != [] {
      var n := |ranking| - 1;
      assert ranking[n] in ranking;
      SumBelow(ranking[..n], total);
      assert (n + 1) * (total - 1) == n * (total - 1) + (total - 1);
    }
  }

  /** No entry without a fraction is rounded up, and there are enough entries with one. */
  lemma {:induction false} LeftoversFit(ranking: seq<Fraction>, total: nat, left: nat, k: nat)
    requires total > 0 && Proper(ranking, total) && Ordered(ranking, ByFraction())
    requires left * total == Sum(ranking, RemainderOf()) && k < left
    ensures k < |ranking| && ranking[k].remainder > 0
  {
    var at := Min(k, |ranking|);
    var head, tail := ranking[..at], ranking[at..];
    assert ranking == head + tail;
    SumConcat(head, tail, RemainderOf());
    assert Proper(head, total);
    SumBelow(head, total);
    FewerThanLeft(at, left, total);
    assert Sum(tail, RemainderOf()) > 0;
    if k < |ranking| { TailIsZero(ranking, k); }
  }

  lemma FewerThanLeft(at: nat, left: nat, total: nat)
    requires at < left && total > 0
    ensures at * (total - 1) < left * total
  {
    assert at * (total - 1) == at * total - at;
    assert left * total == at * total + (left - at) * total;
    assert (left - at) * total > 0;
  }

  lemma TailIsZero(ranking: seq<Fraction>, k: nat)
    requires Ordered(ranking, ByFraction()) && k < |ranking|
    ensures ranking[k].remainder == 0 ==> Sum(ranking[k..], RemainderOf()) == 0
  {
    if ranking[k].remainder == 0 {
      var tail := ranking[k..];
      forall f | f in tail ensures RemainderOf()(f) == 0 {
        var i :| 0 <= i < |tail| && tail[i] == f;
        assert tail[i] == ranking[k + i] && (i == 0 || ByFraction()(ranking[k], ranking[k + i]));
      }
      SumZero(tail, RemainderOf());
    }
  }

  function Winners(ranking: seq<Fraction>, left: nat): set<Id> { set f | f in ranking[..Min(left, |ranking|)] :: f.id }

  /** What an entry gets: its share rounded down, and one more when its fraction is among the largest. */
  function Share(entries: seq<Weighted>, amount: nat, total: nat): Weighted -> int
    requires total > 0
  {
    (e: Weighted) =>
      Base(amount, total)(e) + if e.id in Winners(Ranking(entries, amount, total), Max(0, Left(entries, amount, total)))
        then 1 else 0
  }

  // ---- what the shares promise --------------------------------------------------------------------------

  lemma {:induction false} RankingMeans(entries: seq<Weighted>, amount: nat, total: nat)
    requires total > 0 && DistinctIds(entries)
    ensures var ranking := Ranking(entries, amount, total);
      && Ordered(ranking, ByFraction()) && Proper(ranking, total) && EachOnce(Map(ranking, IdOf())) &&
        |ranking| == |entries|
      && (forall e :: e in entries ==> FractionOf(amount, total)(e) in ranking)
  {
    var fractions := Map(entries, FractionOf(amount, total));
    var ranking := Ranking(entries, amount, total);
    assert TotalOrder(ByFraction());
    SortKeeps(fractions, ByFraction());
    SortOrdered(fractions, ByFraction());
    SameElements(ranking, fractions);
    SameElements(fractions, ranking);
    MapPermuted(fractions, ranking, IdOf());
    hide Sort, TotalOrder, Ordered, Ranking;
    var ids := Map(fractions, IdOf());
    assert EachOnce(ids) by { assert forall i :: 0 <= i < |ids| ==> ids[i] == entries[i].id; }
    EachOncePermuted(ids, Map(ranking, IdOf()));
    forall e | e in entries ensures FractionOf(amount, total)(e) in ranking {
      var i :| 0 <= i < |entries| && entries[i] == e;
      assert fractions[i] in fractions;
    }
    forall f | f in ranking ensures f.remainder < total {
      var i :| 0 <= i < |fractions| && fractions[i] == f;
    }
  }

  lemma DistinctRanks(ranking: seq<Fraction>)
    requires EachOnce(Map(ranking, IdOf()))
    ensures forall i, j :: 0 <= i < j < |ranking| ==> ranking[i].id != ranking[j].id
  {
    var ids := Map(ranking, IdOf());
    assert forall i :: 0 <= i < |ranking| ==> ids[i] == ranking[i].id;
  }

  lemma WinnerRanks(ranking: seq<Fraction>, left: nat, i: nat)
    requires EachOnce(Map(ranking, IdOf())) && i < |ranking|
    ensures ranking[i].id in Winners(ranking, left) <==> i < left
  {
    DistinctRanks(ranking);
    var head := ranking[..Min(left, |ranking|)];
    if i < left {
      assert head[i] == ranking[i];
    } else {
      forall f | f in head ensures f.id != ranking[i].id {
        var j :| 0 <= j < |head| && head[j] == f;
        assert ranking[j].id != ranking[i].id;
      }
    }
  }

  function Won(winners: set<Id>): Fraction -> int { (f: Fraction) => if f.id in winners then 1 else 0 }

  function Got(winners: set<Id>): Weighted -> int { (e: Weighted) => if e.id in winners then 1 else 0 }

  lemma {:induction false} SumOfOnes<T>(s: seq<T>, f: T -> int)
    requires forall x :: x in s ==> f(x) == 1
    ensures Sum(s, f) == |s|
  {
    if s != [] { SumOfOnes(s[..|s| - 1], f); }
  }

  lemma {:induction false} WinnersInRanking(ranking: seq<Fraction>, left: nat)
    requires EachOnce(Map(ranking, IdOf())) && left <= |ranking|
    ensures Sum(ranking, Won(Winners(ranking, left))) == left
  {
    var winners := Winners(ranking, left);
    var head, tail := ranking[..left], ranking[left..];
    assert ranking == head + tail;
    hide Winners, EachOnce, Map, Sum;
    SumConcat(head, tail, Won(winners));
    forall i | 0 <= i < |ranking| ensures Won(winners)(ranking[i]) == if i < left then 1 else 0 {
      WinnerRanks(ranking, left, i);
    }
    hide Won;
    HoldAlike(head, Won(winners), 1);
    HoldAlike(tail, Won(winners), 0);
    SumOfOnes(head, Won(winners));
    SumZero(tail, Won(winners));
  }

  lemma HoldAlike<T(!new)>(s: seq<T>, f: T -> int, value: int)
    requires forall i :: 0 <= i < |s| ==> f(s[i]) == value
    ensures forall x :: x in s ==> f(x) == value
  {
  }

  lemma {:induction false} WonAgrees(entries: seq<Weighted>, amount: nat, total: nat, winners: set<Id>)
    requires total > 0
    ensures Sum(Map(entries, FractionOf(amount, total)), Won(winners)) == Sum(entries, Got(winners))
  {
    if entries != [] {
      var n := |entries| - 1;
      WonAgrees(entries[..n], amount, total, winners);
      assert Map(entries, FractionOf(amount, total))[..n] == Map(entries[..n], FractionOf(amount, total));
    }
  }

  /** Everything is handed out, no more and no less. */
  lemma {:induction false} HandsOutAll(entries: seq<Weighted>, amount: nat, total: nat)
    requires total > 0 && total == Total(entries) && DistinctIds(entries)
    ensures Sum(entries, Share(entries, amount, total)) == amount
  {
    var ranking, left := Ranking(entries, amount, total), Left(entries, amount, total);
    RankingMeans(entries, amount, total);
    LeftIsRemainders(entries, amount, total);
    if left > 0 { LeftoversFit(ranking, total, left, left - 1); }
    var winners := Winners(ranking, left);
    WinnersInRanking(ranking, left);
    SortSum(Map(entries, FractionOf(amount, total)), ByFraction(), Won(winners));
    WonAgrees(entries, amount, total, winners);
    assert Max(0, left) == left;
    hide Sort, Sum, Winners, Ordered, EachOnce;
    SumOfSums(entries, Base(amount, total), Got(winners), Share(entries, amount, total));
  }

  /** An entry that is rounded up has its fraction among the first. */
  lemma {:induction false} RoundedUp(entries: seq<Weighted>, amount: nat, total: nat, e: Weighted) returns (k: nat)
    requires total > 0 && total == Total(entries) && DistinctIds(entries) && e in entries
    requires Share(entries, amount, total)(e) != Base(amount, total)(e)
    ensures var ranking := Ranking(entries, amount, total);
      k < Left(entries, amount, total) && k < |ranking| && ranking[k] == FractionOf(amount, total)(e) &&
        ranking[k].remainder > 0
  {
    var ranking, left := Ranking(entries, amount, total), Left(entries, amount, total);
    RankingMeans(entries, amount, total);
    LeftIsRemainders(entries, amount, total);
    hide Ranking, Sum, Left, Proper, Winners;
    k :| 0 <= k < |ranking| && ranking[k] == FractionOf(amount, total)(e);
    WinnerRanks(ranking, Max(0, left), k);
    LeftoversFit(ranking, total, left, k);
  }

  lemma ShareFits(amount: nat, weight: nat, total: nat)
    requires total > 0 && amount <= total
    ensures (amount * weight) / total <= weight
    ensures (amount * weight) % total > 0 ==> (amount * weight) / total < weight
  {
    var q, r := (amount * weight) / total, (amount * weight) % total;
    assert amount * weight == q * total + r;
    assert amount * weight <= total * weight;
    assert (q > weight ==> q * total >= (weight + 1) * total) && (weight + 1) * total == weight * total + total;
    assert q == weight ==> q * total == total * weight;
  }

  /**
   * Each share is the exact one rounded down or up, only up when there is a fraction, and never more than the
   * weight.
   */
  lemma {:induction false} SharesAreFair(entries: seq<Weighted>, amount: nat, total: nat, e: Weighted)
    requires total > 0 && total == Total(entries) && DistinctIds(entries) && e in entries
    ensures var share, base := Share(entries, amount, total)(e), (amount * e.weight) / total;
      && (share == base || (share == base + 1 && (amount * e.weight) % total > 0))
      && (amount <= total ==> share <= e.weight)
  {
    if Share(entries, amount, total)(e) != Base(amount, total)(e) {
      var k := RoundedUp(entries, amount, total, e);
    }
    if amount <= total { ShareFits(amount, e.weight, total); }
    hide Winners, Ranking, Left;
  }

  /** Larger fractions are rounded up first; among equal ones the smaller id. */
  lemma {:induction false} LargerFractionsFirst(
    entries: seq<Weighted>, amount: nat, total: nat, up: Weighted, down: Weighted)
    requires total > 0 && total == Total(entries) && DistinctIds(entries) && up in entries && down in entries
    requires Share(entries, amount, total)(up) != Base(amount, total)(up) &&
      Share(entries, amount, total)(down) == Base(amount, total)(down)
    ensures var a, b := (amount * up.weight) % total, (amount * down.weight) % total;
      a > b || (a == b && up.id < down.id)
  {
    var ranking, left := Ranking(entries, amount, total), Left(entries, amount, total);
    var k := RoundedUp(entries, amount, total, up);
    RankingMeans(entries, amount, total);
    hide Ranking, Left, Winners;
    var j :| 0 <= j < |ranking| && ranking[j] == FractionOf(amount, total)(down);
    WinnerRanks(ranking, Max(0, left), j);
    DistinctRanks(ranking);
    assert ByFraction()(ranking[k], ranking[j]);
  }

  // ---- the computation ----------------------------------------------------------------------------------

  ghost predicate Holds(out: map<Id, int>, entries: seq<Weighted>, share: Weighted -> int) {
    (forall e :: e in entries ==> e.id in out && out[e.id] == share(e)) && forall id :: id in out ==>
      exists e :: e in entries && e.id == id
  }

  lemma HoldsOneMore(out: map<Id, int>, entries: seq<Weighted>, i: nat, share: Weighted -> int)
    requires DistinctIds(entries) && i < |entries| && Holds(out, entries[..i], share)
    ensures Holds(out[entries[i].id := share(entries[i])], entries[..i + 1], share)
  {
    assert entries[..i + 1] == entries[..i] + [entries[i]];
  }

  /** The shares once the first `k` ranked entries have been rounded up. */
  function Partly(ranking: seq<Fraction>, amount: nat, total: nat, k: nat): Weighted -> int
    requires total > 0
  {
    (e: Weighted) => Base(amount, total)(e) + if e.id in Winners(ranking, k) then 1 else 0
  }

  lemma RoundOneUp(out: map<Id, int>, entries: seq<Weighted>, amount: nat, total: nat, k: nat)
    requires total > 0 && DistinctIds(entries) && k < |Ranking(entries, amount, total)|
    requires Holds(out, entries, Partly(Ranking(entries, amount, total), amount, total, k))
    ensures var ranking := Ranking(entries, amount, total); var id := ranking[k].id;
      id in out && Holds(out[id := out[id] + 1], entries, Partly(ranking, amount, total, k + 1))
  {
    var ranking := Ranking(entries, amount, total);
    var id := ranking[k].id;
    RankedHasEntry(entries, amount, total, k);
    RankingMeans(entries, amount, total);
    hide Ranking, Ordered, Proper, Winners, Base, EachOnce, Map;
    forall e | e in entries ensures e.id in Winners(ranking, k + 1) <==> e.id in Winners(ranking, k) || e.id == id {
      assert FractionOf(amount, total)(e) in ranking;
      WinnersGrow(ranking, k, e.id);
    }
    WinnerRanks(ranking, k, k);
  }

  lemma WinnersGrow(ranking: seq<Fraction>, k: nat, id: Id)
    requires EachOnce(Map(ranking, IdOf())) && k < |ranking| && exists f :: f in ranking && f.id == id
    ensures id in Winners(ranking, k + 1) <==> id in Winners(ranking, k) || id == ranking[k].id
  {
    var f :| f in ranking && f.id == id;
    var j :| 0 <= j < |ranking| && ranking[j] == f;
    WinnerRanks(ranking, k, j);
    WinnerRanks(ranking, k + 1, j);
    DistinctRanks(ranking);
    hide Winners, EachOnce, Map;
  }

  lemma RankedHasEntry(entries: seq<Weighted>, amount: nat, total: nat, k: nat)
    requires total > 0 && k < |Ranking(entries, amount, total)|
    ensures exists e :: e in entries && e.id == Ranking(entries, amount, total)[k].id
  {
    var fractions := Map(entries, FractionOf(amount, total));
    SortKeeps(fractions, ByFraction());
    SameElements(Sort(fractions, ByFraction()), fractions);
    assert Ranking(entries, amount, total)[k] in fractions;
    var i :| 0 <= i < |fractions| && fractions[i] == Ranking(entries, amount, total)[k];
    assert entries[i] in entries && entries[i].id == Ranking(entries, amount, total)[k].id;
  }

  lemma NobodyUpYet(entries: seq<Weighted>, amount: nat, total: nat, out: map<Id, int>)
    requires total > 0 && Holds(out, entries, Base(amount, total))
    ensures Holds(out, entries, Partly(Ranking(entries, amount, total), amount, total, 0))
  {
    assert Winners(Ranking(entries, amount, total), 0) == {};
    hide Ranking;
  }

  lemma AllUp(entries: seq<Weighted>, amount: nat, total: nat, out: map<Id, int>, k: nat)
    requires total > 0 && total == Total(entries) && DistinctIds(entries)
    requires Holds(out, entries, Partly(Ranking(entries, amount, total), amount, total, k))
    requires k <= |Ranking(entries, amount, total)| && k <= Max(0, Left(entries, amount, total))
    requires k == |Ranking(entries, amount, total)| || k == Max(0, Left(entries, amount, total))
    ensures Holds(out, entries, Share(entries, amount, total))
  {
    var ranking, left := Ranking(entries, amount, total), Max(0, Left(entries, amount, total));
    assert Winners(ranking, k) == Winners(ranking, left);
    hide Ranking, Left, Winners, Base;
  }

  method LargestRemainderScale(entries: seq<Weighted>, amount: nat) returns (out: map<Id, int>)
    requires DistinctIds(entries) && Total(entries) > 0
    ensures Holds(out, entries, Share(entries, amount, Total(entries)))
  {
    var total := Total(entries);
    hide Total, Ranking, Winners, Sort, Holds;
    out := map[];
    assert Holds(out, entries[..0], Base(amount, total)) by { HoldsNothing(entries, Base(amount, total)); }
    var fractions: seq<Fraction> := [];
    var left: int := amount;
    NothingSummed(entries, Base(amount, total));
    for i := 0 to |entries|
      invariant Holds(out, entries[..i], Base(amount, total))
      invariant fractions == Map(entries[..i], FractionOf(amount, total))
      invariant left == amount - Sum(entries[..i], Base(amount, total))
    {
      var e := entries[i];
      HoldsOneMore(out, entries, i, Base(amount, total));
      SumStep(entries, i, Base(amount, total));
      var base := (amount * e.weight) / total;
      out := out[e.id := base];
      left := left - base;
      fractions := fractions + [Fraction(e.id, (amount * e.weight) % total)];
    }
    WholeTake(entries);
    var ranking := Sort(fractions, ByFraction());
    RankingIs(entries, amount, total);
    NobodyUpYet(entries, amount, total, out);
    var k := 0;
    while k < |ranking| && left > 0
      invariant k <= |ranking| && k <= Max(0, Left(entries, amount, total))
      invariant left == Left(entries, amount, total) - k
      invariant Holds(out, entries, Partly(ranking, amount, total, k))
    {
      hide *;
      RoundOneUp(out, entries, amount, total, k);
      out := out[ranking[k].id := out[ranking[k].id] + 1];
      left := left - 1;
      k := k + 1;
      MaxIs(Left(entries, amount, total), k);
    }
    AllUp(entries, amount, total, out, k);
  }

  lemma MaxIs(left: int, k: nat)
    ensures k <= left ==> k <= Max(0, left)
  {
  }

  lemma HoldsNothing(entries: seq<Weighted>, share: Weighted -> int)
    ensures Holds(map[], entries[..0], share)
  {
  }

  lemma RankingIs(entries: seq<Weighted>, amount: nat, total: nat)
    requires total > 0
    ensures Ranking(entries, amount, total) == Sort(Map(entries, FractionOf(amount, total)), ByFraction())
  {
    hide Sort;
  }

  // ---- suggestions --------------------------------------------------------------------------------------

  datatype SuggestEnvelope = SuggestEnvelope(id: Id, archived: bool, allocation: Money, available: Money)

  datatype SuggestItem = SuggestItem(envelopeId: Id, currentAllocated: Money, currentAvailable: Money,
    proposedDelta: Money)

  datatype BudgetSuggestion = BudgetSuggestion(
    amountToDistribute: Money, items: seq<SuggestItem>, distributed: Money, over: Money, undistributed: Money,
    skipped: nat)

  function DeltaOf(): SuggestItem -> int { (i: SuggestItem) => i.proposedDelta }

  /** The proposal accounts for the whole pool: what it hands out, what stays, less what it overdraws. */
  function Result(amount: Money, items: seq<SuggestItem>, skipped: nat): (s: BudgetSuggestion)
    ensures s.distributed + s.undistributed - s.over == amount
    ensures s.over >= 0 && s.undistributed >= 0 && (s.over == 0 || s.undistributed == 0)
    ensures s.amountToDistribute == amount && s.items == items && s.skipped == skipped &&
      s.distributed == Sum(items, DeltaOf())
  {
    var distributed := Sum(items, DeltaOf());
    BudgetSuggestion(amount, items, distributed, Max(0, distributed - amount), Max(0, amount - distributed), skipped)
  }

  function ItemFor(e: SuggestEnvelope, delta: Money): SuggestItem {
    SuggestItem(e.id, e.allocation, e.available, delta)
  }

  function IsNegative(): SuggestEnvelope -> bool { (e: SuggestEnvelope) => !e.archived && e.available < 0 }

  function Deficit(): SuggestEnvelope -> Weighted {
    (e: SuggestEnvelope) => Weighted(e.id, if e.available < 0 then -e.available else 0)
  }

  function Deficits(envelopes: seq<SuggestEnvelope>): seq<Weighted> { Map(Filter(envelopes, IsNegative()), Deficit()) }

  function ProposedFor(delta: Weighted -> int): SuggestEnvelope -> SuggestItem {
    (e: SuggestEnvelope) => ItemFor(e, delta(Deficit()(e)))
  }

  function IsPositive(): SuggestItem -> bool { (i: SuggestItem) => i.proposedDelta > 0 }

  /** What each overdrawn envelope gets: its deficit if the pool allows, else its share of the pool. */
  function TopUp(envelopes: seq<SuggestEnvelope>, pool: nat): Weighted -> int {
    var deficits := Deficits(envelopes);
    if Total(deficits) > pool then Share(deficits, pool, Total(deficits)) else WeightOf()
  }

  predicate DistinctEnvelopes(envelopes: seq<SuggestEnvelope>) {
    forall i, j :: 0 <= i < j < |envelopes| ==> envelopes[i].id != envelopes[j].id
  }

  lemma {:induction false} DeficitsAreDistinct(envelopes: seq<SuggestEnvelope>)
    requires DistinctEnvelopes(envelopes)
    ensures DistinctIds(Deficits(envelopes))
  {
    FilterOrdered(envelopes, IsNegative(), OtherId());
    var negative := Filter(envelopes, IsNegative());
    hide Filter;
    forall i, j | 0 <= i < j < |negative| ensures negative[i].id != negative[j].id
    { assert OtherId()(negative[i], negative[j]); }
  }

  function OtherId(): (SuggestEnvelope, SuggestEnvelope) -> bool {
    (a: SuggestEnvelope, b: SuggestEnvelope) => a.id != b.id
  }

  method SuggestTopUpNegatives(envelopes: seq<SuggestEnvelope>, amount: Money) returns (s: BudgetSuggestion)
    requires DistinctEnvelopes(envelopes)
    ensures var pool := Max(0, amount);
      s == Result(pool, Filter(Map(Filter(envelopes, IsNegative()), ProposedFor(TopUp(envelopes, pool))), IsPositive()),
        0)
  {
    var pool: nat := Max(0, amount);
    var negative := Filter(envelopes, IsNegative());
    var deficits := Map(negative, Deficit());
    DeficitsAreDistinct(envelopes);
    var deficit := Total(deficits);
    hide Filter, Total, Sum, Share, DistinctIds;
    var items: seq<SuggestItem>;
    if deficit > pool {
      var scaled := LargestRemainderScale(deficits, pool);
      items := Map(negative, ScaledItem(scaled));
      ScaledItems(negative, deficits, scaled, Share(deficits, pool, deficit));
    } else {
      items := Map(negative, FullItem());
      assert forall e :: e in negative ==> FullItem()(e) == ProposedFor(WeightOf())(e) by {
        forall e | e in negative ensures IsNegative()(e) { FilterMember(envelopes, IsNegative(), e); }
      }
      ItemsAgree(negative, FullItem(), ProposedFor(WeightOf()));
    }
    s := Result(pool, Filter(items, IsPositive()), 0);
  }

  function FullItem(): SuggestEnvelope -> SuggestItem { (e: SuggestEnvelope) => ItemFor(e, -e.available) }

  function ScaledItem(scaled: map<Id, int>): SuggestEnvelope -> SuggestItem {
    (e: SuggestEnvelope) => ItemFor(e, if e.id in scaled then scaled[e.id] else 0)
  }

  lemma ItemsAgree(s: seq<SuggestEnvelope>, f: SuggestEnvelope -> SuggestItem, g: SuggestEnvelope -> SuggestItem)
    requires forall e :: e in s ==> f(e) == g(e)
    ensures Map(s, f) == Map(s, g)
  {
  }

  lemma ScaledItems(
    negative: seq<SuggestEnvelope>, deficits: seq<Weighted>, scaled: map<Id, int>, share: Weighted -> int)
    requires deficits == Map(negative, Deficit()) && Holds(scaled, deficits, share)
    ensures Map(negative, ScaledItem(scaled)) == Map(negative, ProposedFor(share))
  {
    forall e | e in negative ensures ScaledItem(scaled)(e) == ProposedFor(share)(e) {
      var i :| 0 <= i < |negative| && negative[i] == e;
      assert deficits[i] in deficits && deficits[i] == Deficit()(e);
    }
    ItemsAgree(negative, ScaledItem(scaled), ProposedFor(share));
  }

  lemma {:induction false} ProposedSum(negative: seq<SuggestEnvelope>, delta: Weighted -> int)
    requires forall e :: e in negative ==> delta(Deficit()(e)) >= 0
    ensures Sum(Filter(Map(negative, ProposedFor(delta)), IsPositive()), DeltaOf()) ==
      Sum(Map(negative, Deficit()), delta)
  {
    if negative != [] {
      var n := |negative| - 1;
      ProposedSum(negative[..n], delta);
      var e := negative[n];
      assert e in negative;
      var item := ProposedFor(delta)(e);
      var items := Map(negative[..n], ProposedFor(delta));
      assert Map(negative, ProposedFor(delta)) == items + [item];
      assert Map(negative, Deficit()) == Map(negative[..n], Deficit()) + [Deficit()(e)];
      FilterOneMore(items, item, IsPositive());
      hide Filter, Sum, Map;
      SumOneMore(Map(negative[..n], Deficit()), Deficit()(e), delta);
      if IsPositive()(item) { SumOneMore(Filter(items, IsPositive()), item, DeltaOf()); }
    }
  }

  lemma ShareIsNatural(entries: seq<Weighted>, amount: nat, total: nat, e: Weighted)
    requires total > 0
    ensures Share(entries, amount, total)(e) >= 0
  {
    hide Winners, Ranking, Left;
    var p := amount * e.weight;
    ProductIsNatural(amount, e.weight);
    QuotientIsNatural(p, total);
    assert Base(amount, total)(e) == p / total;
  }

  lemma ProductIsNatural(a: nat, b: nat)
    ensures a * b >= 0
  {
  }

  lemma QuotientIsNatural(p: int, total: nat)
    requires p >= 0 && total > 0
    ensures p / total >= 0
  {
  }

  /** A pool too small for the deficits is handed out to the last unit; a sufficient one covers exactly them. */
  lemma {:induction false} TopUpSpendsPool(envelopes: seq<SuggestEnvelope>, amount: Money)
    requires DistinctEnvelopes(envelopes)
    ensures var pool := Max(0, amount); var deficits := Deficits(envelopes);
      var items := Filter(Map(Filter(envelopes, IsNegative()), ProposedFor(TopUp(envelopes, pool))), IsPositive());
      var s := Result(pool, items, 0);
      && s.over == 0
      && (Total(deficits) > pool ==> s.distributed == pool && s.undistributed == 0)
      && (Total(deficits) <= pool ==> s.distributed == Total(deficits) && s.undistributed == pool - Total(deficits))
  {
    var pool: nat := Max(0, amount);
    var deficits, negative := Deficits(envelopes), Filter(envelopes, IsNegative());
    var delta := TopUp(envelopes, pool);
    DeficitsAreDistinct(envelopes);
    if Total(deficits) > pool {
      HandsOutAll(deficits, pool, Total(deficits));
    }
    hide Filter, Sum, Winners, Ranking, Left;
    forall e | e in negative ensures delta(Deficit()(e)) >= 0 {
      var d := Deficit()(e);
      if Total(deficits) > pool { ShareIsNatural(deficits, pool, Total(deficits), d); }
    }
    ProposedSum(negative, delta);
  }

  lemma FairShare(entries: seq<Weighted>, amount: nat, total: nat, e: Weighted)
    requires total > 0 && total == Total(entries) && DistinctIds(entries) && e in entries && amount <= total
    ensures var share := Share(entries, amount, total)(e);
      share <= e.weight && (share == Base(amount, total)(e) || share == Base(amount, total)(e) + 1)
  {
    SharesAreFair(entries, amount, total, e);
    hide Share, Total;
  }

  /** Whom a top-up proposes money for, and how much: an active envelope in the red, at most up to zero, and
      of a short pool its exact share rounded down or up. */
  lemma {:induction false} TopUpIsFair(envelopes: seq<SuggestEnvelope>, pool: nat, item: SuggestItem)
    requires DistinctEnvelopes(envelopes)
    requires item in Filter(Map(Filter(envelopes, IsNegative()), ProposedFor(TopUp(envelopes, pool))), IsPositive())
    ensures exists e :: e in envelopes && IsFairFor(envelopes, pool, e, item)
  {
    var negative, deficits := Filter(envelopes, IsNegative()), Deficits(envelopes);
    var total, delta := Total(deficits), TopUp(envelopes, pool);
    var items := Map(negative, ProposedFor(delta));
    DeficitsAreDistinct(envelopes);
    FilterMember(items, IsPositive(), item);
    var i :| 0 <= i < |items| && items[i] == item;
    var e := negative[i];
    FilterMember(envelopes, IsNegative(), e);
    assert deficits[i] == Deficit()(e) && deficits[i] in deficits;
    hide Filter, Total, Share, Base;
    if total > pool { FairShare(deficits, pool, total, deficits[i]); }
    assert IsFairFor(envelopes, pool, e, item);
  }

  predicate IsFairFor(envelopes: seq<SuggestEnvelope>, pool: nat, e: SuggestEnvelope, item: SuggestItem) {
    var total, share := Total(Deficits(envelopes)), item.proposedDelta;
    && item == ItemFor(e, share) && !e.archived && 0 < share <= -e.available
    && (if total > pool then total > 0 && (share == Base(pool, total)(Deficit()(e)) ||
      share == Base(pool, total)(Deficit()(e)) + 1) else share == -e.available)
  }

  datatype PresetMode = AddToAllocation | TopUpToAmount

  datatype PresetEntry = PresetEntry(envelopeId: Id, amount: Money)

  function ById(envelopes: seq<SuggestEnvelope>): map<Id, SuggestEnvelope> {
    if envelopes == [] then map[] else ById(envelopes[..|envelopes| - 1])[envelopes[|envelopes| - 1].id :=
      envelopes[|envelopes| - 1]]
  }

  function PresetDelta(mode: PresetMode, entry: PresetEntry, e: SuggestEnvelope): Money {
    if mode == AddToAllocation then entry.amount else Max(0, entry.amount - e.allocation)
  }

  function IsMissing(byId: map<Id, SuggestEnvelope>): PresetEntry -> bool {
    (entry: PresetEntry) => entry.envelopeId !in byId || byId[entry.envelopeId].archived
  }

  function PresetItems(byId: map<Id, SuggestEnvelope>, mode: PresetMode, amounts: seq<PresetEntry>): seq<SuggestItem> {
    if amounts == [] then [] else
      var entry := amounts[|amounts| - 1];
      var before := PresetItems(byId, mode, amounts[..|amounts| - 1]);
      if IsMissing(byId)(entry) then before
      else
        var delta := PresetDelta(mode, entry, byId[entry.envelopeId]);
        if delta > 0 then before + [ItemFor(byId[entry.envelopeId], delta)] else before
  }

  /** A preset is never scaled to the pool: the proposal says by how much it is over. */
  method SuggestFromPreset(envelopes: seq<SuggestEnvelope>, mode: PresetMode, amounts: seq<PresetEntry>, amount: Money)
    returns (s: BudgetSuggestion)
    ensures var byId := ById(envelopes);
      s == Result(Max(0, amount), PresetItems(byId, mode, amounts), |Filter(amounts, IsMissing(byId))|)
  {
    hide *;
    var byId := ById(envelopes);
    var items: seq<SuggestItem> := [];
    var skipped := 0;
    NothingPreset(byId, mode, amounts);
    for i := 0 to |amounts|
      invariant items == PresetItems(byId, mode, amounts[..i])
      invariant skipped == |Filter(amounts[..i], IsMissing(byId))|
    {
      var entry := amounts[i];
      PresetStep(byId, mode, amounts, i);
      if entry.envelopeId !in byId || byId[entry.envelopeId].archived {
        skipped := skipped + 1;
      } else {
        var e := byId[entry.envelopeId];
        var delta := if mode == AddToAllocation then entry.amount else Max(0, entry.amount - e.allocation);
        if delta > 0 { items := items + [ItemFor(e, delta)]; }
      }
    }
    WholeTake(amounts);
    s := Result(Max(0, amount), items, skipped);
  }

  lemma NothingPreset(byId: map<Id, SuggestEnvelope>, mode: PresetMode, amounts: seq<PresetEntry>)
    ensures PresetItems(byId, mode, amounts[..0]) == [] && Filter(amounts[..0], IsMissing(byId)) == []
  {
  }

  lemma PresetStep(byId: map<Id, SuggestEnvelope>, mode: PresetMode, amounts: seq<PresetEntry>, i: nat)
    requires i < |amounts|
    ensures
      var entry, items, missing := amounts[i], PresetItems(byId, mode, amounts[..i]),
        Filter(amounts[..i], IsMissing(byId));
      if entry.envelopeId !in byId || byId[entry.envelopeId].archived
      then
        PresetItems(byId, mode, amounts[..i + 1]) == items &&
          |Filter(amounts[..i + 1], IsMissing(byId))| == |missing| + 1
      else
        var e := byId[entry.envelopeId];
        var delta := if mode == AddToAllocation then entry.amount else Max(0, entry.amount - e.allocation);
        PresetItems(byId, mode, amounts[..i + 1]) == (if delta > 0 then items + [ItemFor(e, delta)] else items) &&
        Filter(amounts[..i + 1], IsMissing(byId)) == missing
  {
    FilterStep(amounts, i, IsMissing(byId));
    hide Filter;
    assert amounts[..i + 1][..i] == amounts[..i];
  }

  predicate Reaches(mode: PresetMode, entry: PresetEntry, item: SuggestItem) {
    entry.envelopeId == item.envelopeId &&
    entry.amount == if mode == TopUpToAmount then item.currentAllocated + item.proposedDelta else item.proposedDelta
  }

  lemma {:induction false} PresetReachesIn(
    byId: map<Id, SuggestEnvelope>, mode: PresetMode, amounts: seq<PresetEntry>, item: SuggestItem)
    requires item in PresetItems(byId, mode, amounts) && forall id :: id in byId ==> byId[id].id == id
    ensures item.envelopeId in byId && !byId[item.envelopeId].archived && item.proposedDelta > 0
    ensures exists entry :: entry in amounts && Reaches(mode, entry, item)
  {
    var n := |amounts| - 1;
    assert amounts == amounts[..n] + [amounts[n]];
    if item in PresetItems(byId, mode, amounts[..n]) {
      PresetReachesIn(byId, mode, amounts[..n], item);
    } else {
      assert amounts[n] in amounts;
    }
  }

  lemma {:induction false} ByIdHolds(envelopes: seq<SuggestEnvelope>)
    ensures forall id :: id in ById(envelopes) ==> ById(envelopes)[id] in envelopes && ById(envelopes)[id].id == id
  {
    if envelopes != [] {
      var n := |envelopes| - 1;
      ByIdHolds(envelopes[..n]);
      assert envelopes == envelopes[..n] + [envelopes[n]];
    }
  }

  /** A preset proposes for active envelopes only, and a topping-up one brings them exactly to its amounts. */
  lemma {:induction false} PresetReaches(
    envelopes: seq<SuggestEnvelope>, mode: PresetMode, amounts: seq<PresetEntry>, item: SuggestItem)
    requires item in PresetItems(ById(envelopes), mode, amounts)
    ensures exists e :: e in envelopes && e.id == item.envelopeId && !e.archived
    ensures item.proposedDelta > 0 && exists entry :: entry in amounts && Reaches(mode, entry, item)
  {
    ByIdHolds(envelopes);
    PresetReachesIn(ById(envelopes), mode, amounts, item);
  }
}
