// The nearest change set when nothing explains the difference exactly: the remaining difference is
// weighed against a penalty for each change.
module NearestMatch {
  import opened Sequences
  import opened BalanceMatch

  const MIN_CHANGE_PENALTY := 500

  datatype Nearest = Nearest(changes: seq<Change>, residual: int)

  /** The best so far and its cost; no cost yet stands for positive infinity. */
  datatype Best = Best(nearest: Option<Nearest>, cost: Option<int>)

  function Cost(changes: seq<Change>, difference: int, penalty: int): int {
    Abs(difference - Delta(changes)) + |changes| * penalty
  }

  // ---- the visiting order ---------------------------------------------------------------------------

  /** Every non-empty pick list of at most `depth` picks from `from` on, each before its extensions. */
  function Visits(pool: Pool, from: nat, depth: nat): seq<seq<Pick>>
    decreases depth, |pool| - from, 0
  {
    if depth == 0 || from >= |pool| then []
    else VisitsFrom(pool, from, 0, depth) + Visits(pool, from + 1, depth)
  }

  function VisitsFrom(pool: Pool, from: nat, option: nat, depth: nat): seq<seq<Pick>>
    requires from < |pool| && depth > 0
    decreases depth - 1, |pool| - from, 1, |pool[from]| - option
  {
    if option >= |pool[from]| then []
    else
      [[Pick(from, option)]] + Map(Visits(pool, from + 1, depth - 1), Prepend(Pick(from, option)))
      + VisitsFrom(pool, from, option + 1, depth)
  }

  predicate Visited(pool: Pool, from: nat, depth: nat, ps: seq<Pick>) {
    ValidPicks(pool, from, ps) && 1 <= |ps| <= depth
  }

  lemma ConsVisited(pool: Pool, from: nat, depth: nat, ps: seq<Pick>)
    requires ps != [] && ValidPick(pool, ps[0])
    ensures Visited(pool, from, depth, ps) <==>
            from <= ps[0].index && depth >= 1 && (|ps| == 1 || Visited(pool, ps[0].index + 1, depth - 1, ps[1..]))
  {
    ConsValid(pool, from, ps);
  }

  lemma FirstVisited(pool: Pool, from: nat, depth: nat, ps: seq<Pick>)
    requires Visited(pool, from, depth, ps)
    ensures ps != [] && depth >= 1 && ValidPick(pool, ps[0]) && from <= ps[0].index
  {
  }

  /** Exactly the change sets of one to `depth` changes are visited. */
  lemma {:induction false} VisitsExact(pool: Pool, from: nat, depth: nat, ps: seq<Pick>)
    ensures ps in Visits(pool, from, depth) <==> Visited(pool, from, depth, ps)
    decreases depth, |pool| - from, 0
  {
    hide ValidPicks, ValidPick, VisitsFrom;
    if Visited(pool, from, depth, ps) {
      FirstVisited(pool, from, depth, ps);
      PickInPool(pool, ps[0]);
    }
    if depth > 0 && from < |pool| {
      VisitsFromExact(pool, from, 0, depth, ps);
      VisitsExact(pool, from + 1, depth, ps);
      if ps != [] && ValidPick(pool, ps[0]) {
        ConsVisited(pool, from, depth, ps);
        ConsVisited(pool, from + 1, depth, ps);
      }
      if Visited(pool, from + 1, depth, ps) { FirstVisited(pool, from + 1, depth, ps); }
    }
  }

  lemma PickInPool(pool: Pool, p: Pick)
    requires ValidPick(pool, p)
    ensures p.index < |pool|
  {
  }

  lemma {:induction false} VisitsFromExact(pool: Pool, from: nat, option: nat, depth: nat, ps: seq<Pick>)
    requires from < |pool| && depth > 0
    ensures ps in VisitsFrom(pool, from, option, depth) <==>
            Visited(pool, from, depth, ps) && ps[0].index == from && option <= ps[0].option
    decreases depth - 1, |pool| - from, 1, |pool[from]| - option
  {
    hide ValidPicks, Visits, Map, Prepend;
    if Visited(pool, from, depth, ps) { FirstVisited(pool, from, depth, ps); }
    if option < |pool[from]| {
      var pick := Pick(from, option);
      VisitsFromExact(pool, from, option + 1, depth, ps);
      InPrepended(pick, Visits(pool, from + 1, depth - 1), ps);
      assert ps in [[pick]] <==> ps == [pick];
      assert ps == [pick] <==> |ps| == 1 && ps[0] == pick;
      if ps != [] && ps[0] == pick {
        VisitsExact(pool, from + 1, depth - 1, ps[1..]);
        ConsVisited(pool, from, depth, ps);
      }
    }
  }

  /** The visiting order is lexicographic, each list before its extensions. */
  lemma {:induction false} VisitsInOrder(pool: Pool, from: nat, depth: nat)
    ensures InOrder(Visits(pool, from, depth))
    decreases depth, |pool| - from, 0
  {
    if depth > 0 && from < |pool| {
      var here, later := VisitsFrom(pool, from, 0, depth), Visits(pool, from + 1, depth);
      VisitsFromInOrder(pool, from, 0, depth);
      VisitsInOrder(pool, from + 1, depth);
      forall x, y | x in here && y in later ensures Before(x, y) {
        VisitsFromExact(pool, from, 0, depth, x);
        VisitsExact(pool, from + 1, depth, y);
        FirstVisited(pool, from + 1, depth, y);
      }
      OrderConcat(here, later);
    }
  }

  lemma {:induction false} VisitsFromInOrder(pool: Pool, from: nat, option: nat, depth: nat)
    requires from < |pool| && depth > 0
    ensures InOrder(VisitsFrom(pool, from, option, depth))
    decreases depth - 1, |pool| - from, 1, |pool[from]| - option
  {
    if option < |pool[from]| {
      var pick := Pick(from, option);
      var tails, later := Visits(pool, from + 1, depth - 1), VisitsFrom(pool, from, option + 1, depth);
      VisitsInOrder(pool, from + 1, depth - 1);
      VisitsFromInOrder(pool, from, option + 1, depth);
      OrderPrepend(pick, tails);
      hide Visits, VisitsFrom, Map, Prepend, Visited;
      forall y | y in Map(tails, Prepend(pick)) ensures y != [] && y[0] == pick && Before([pick], y) {
        InPrepended(pick, tails, y);
        VisitsExact(pool, from + 1, depth - 1, y[1..]);
        FirstVisited(pool, from + 1, depth - 1, y[1..]);
      }
      OrderConcat([[pick]], Map(tails, Prepend(pick)));
      forall x, y | x in [[pick]] + Map(tails, Prepend(pick)) && y in later ensures Before(x, y) {
        VisitsFromExact(pool, from, option + 1, depth, y);
        FirstVisited(pool, from, depth, y);
      }
      OrderConcat([[pick]] + Map(tails, Prepend(pick)), later);
      VisitsFromIs(pool, from, option, depth);
    }
  }

  lemma VisitsFromIs(pool: Pool, from: nat, option: nat, depth: nat)
    requires from < |pool| && depth > 0 && option < |pool[from]|
    ensures VisitsFrom(pool, from, option, depth) ==
      [[Pick(from, option)]] + Map(Visits(pool, from + 1, depth - 1), Prepend(Pick(from, option)))
      + VisitsFrom(pool, from, option + 1, depth)
  {
  }

  // ---- keeping the best -------------------------------------------------------------------------------

  function Consider(best: Best, changes: seq<Change>, difference: int, penalty: int): Best {
    var cost := Cost(changes, difference, penalty);
    if best.cost.None? || cost < best.cost.value
    then Best(Some(Nearest(changes, difference - Delta(changes))), Some(cost)) else best
  }

  function BestOf(best: Best, list: seq<seq<Change>>, difference: int, penalty: int): Best
    decreases |list|
  {
    if list == [] then best else BestOf(Consider(best, list[0], difference, penalty), list[1..], difference, penalty)
  }

  lemma {:induction false} BestOfConcat(
    best: Best, a: seq<seq<Change>>, b: seq<seq<Change>>, difference: int, penalty: int)
    ensures BestOf(best, a + b, difference, penalty) ==
      BestOf(BestOf(best, a, difference, penalty), b, difference, penalty)
    decreases |a|
  {
    if a == [] {
      assert a + b == b;
    } else {
      assert (a + b)[1..] == a[1..] + b;
      BestOfConcat(Consider(best, a[0], difference, penalty), a[1..], b, difference, penalty);
    }
  }

  const START := Best(None, None)

  /** The best of a list is its first element of least cost. */
  ghost predicate FirstLeast(list: seq<seq<Change>>, at: nat, difference: int, penalty: int)
    requires at < |list|
  {
    && (forall i :: 0 <= i < |list| ==> Cost(list[at], difference, penalty) <= Cost(list[i], difference, penalty))
    && (forall i :: 0 <= i < at ==> Cost(list[at], difference, penalty) < Cost(list[i], difference, penalty))
  }

  lemma {:induction false} BestIsFirstLeast(list: seq<seq<Change>>, difference: int, penalty: int) returns (at: nat)
    requires list != []
    ensures at < |list| && FirstLeast(list, at, difference, penalty)
    ensures BestOf(START, list, difference, penalty)
         == Best(Some(Nearest(list[at], difference - Delta(list[at]))), Some(Cost(list[at], difference, penalty)))
  {
    var n := |list| - 1;
    var init, last := list[..n], list[n];
    assert list == init + [last];
    BestOfConcat(START, init, [last], difference, penalty);
    BestOfOne(BestOf(START, init, difference, penalty), last, difference, penalty);
    if n == 0 {
      at := 0;
    } else {
      at := BestIsFirstLeast(init, difference, penalty);
      assert list[at] == init[at];
      if Cost(last, difference, penalty) < Cost(init[at], difference, penalty) { at := n; }
    }
  }

  lemma NothingBest(difference: int, penalty: int)
    ensures BestOf(START, [], difference, penalty) == START
  {
  }

  lemma BestOfNone(best: Best, difference: int, penalty: int)
    ensures BestOf(best, [], difference, penalty) == best
  {
  }

  lemma BestOfOne(best: Best, x: seq<Change>, difference: int, penalty: int)
    ensures BestOf(best, [x], difference, penalty) == Consider(best, x, difference, penalty)
  {
    assert [x][1..] == [];
  }

  // ---- the search over a shared stack -------------------------------------------------------------------

  function Candidates(pool: Pool, chosen: seq<Change>, from: nat, depth: nat): seq<seq<Change>> {
    VisitsValid(pool, from, depth);
    Completed(pool, chosen, Visits(pool, from, depth))
  }

  function CandidatesFrom(pool: Pool, chosen: seq<Change>, from: nat, option: nat, depth: nat): seq<seq<Change>>
    requires from < |pool| && depth > 0
  {
    VisitsFromValid(pool, from, option, depth);
    Completed(pool, chosen, VisitsFrom(pool, from, option, depth))
  }

  lemma VisitsValid(pool: Pool, from: nat, depth: nat)
    ensures forall ps :: ps in Visits(pool, from, depth) ==> AllValid(pool, ps)
  {
    forall ps | ps in Visits(pool, from, depth) ensures AllValid(pool, ps) { VisitsExact(pool, from, depth, ps); }
  }

  lemma VisitsFromValid(pool: Pool, from: nat, option: nat, depth: nat)
    requires from < |pool| && depth > 0
    ensures forall ps :: ps in VisitsFrom(pool, from, option, depth) ==> AllValid(pool, ps)
  {
    forall ps | ps in VisitsFrom(pool, from, option, depth) ensures AllValid(pool, ps)
    { VisitsFromExact(pool, from, option, depth, ps); }
  }

  lemma CandidatesStep(pool: Pool, chosen: seq<Change>, from: nat, depth: nat)
    requires from < |pool| && depth > 0
    ensures Candidates(pool, chosen, from, depth) == CandidatesFrom(pool, chosen, from, 0, depth) +
      Candidates(pool, chosen, from + 1, depth)
  {
    VisitsValid(pool, from, depth);
  }

  lemma CompletedOne(pool: Pool, chosen: seq<Change>, pick: Pick)
    requires ValidPick(pool, pick)
    ensures AllValid(pool, [pick]) && Completed(pool, chosen, [[pick]]) == [chosen + [Chosen(pool, pick)]]
  {
    assert [pick][1..] == [] && AllValid(pool, [pick]);
    assert Changes(pool, [pick]) == [Chosen(pool, pick)];
  }

  lemma CandidatesFromStep(pool: Pool, chosen: seq<Change>, from: nat, option: nat, depth: nat)
    requires from < |pool| && depth > 0 && option < |pool[from]|
    ensures CandidatesFrom(pool, chosen, from, option, depth)
         == [chosen + [pool[from][option]]] + Candidates(pool, chosen + [pool[from][option]], from + 1, depth - 1)
          + CandidatesFrom(pool, chosen, from, option + 1, depth)
  {
    var pick := Pick(from, option);
    var tails, rest := Visits(pool, from + 1, depth - 1), VisitsFrom(pool, from, option + 1, depth);
    VisitsFromValid(pool, from, option + 1, depth);
    VisitsValid(pool, from + 1, depth - 1);
    hide Visits, Completed, Map, Prepend, AllValid;
    assert VisitsFrom(pool, from, option, depth) == [[pick]] + Map(tails, Prepend(pick)) + rest;
    CompletedOne(pool, chosen, pick);
    CompletedPrepend(pool, chosen, pick, tails);
    CompletedConcat(pool, chosen, [[pick]], Map(tails, Prepend(pick)));
    CompletedConcat(pool, chosen, [[pick]] + Map(tails, Prepend(pick)), rest);
  }

  lemma CandidatesFromEnd(pool: Pool, chosen: seq<Change>, from: nat, depth: nat)
    requires from < |pool| && depth > 0
    ensures CandidatesFrom(pool, chosen, from, |pool[from]|, depth) == []
  {
  }

  lemma CandidatesEnd(pool: Pool, chosen: seq<Change>, from: nat, depth: nat)
    requires from >= |pool| || depth == 0
    ensures Candidates(pool, chosen, from, depth) == []
  {
  }

  lemma PushPop<T>(stack: seq<T>, x: T)
    ensures stack + [x] != [] && (stack + [x])[..|stack + [x]| - 1] == stack
  {
  }

  lemma NothingBefore<T>(s: seq<T>)
    ensures [] + s == s
  {
  }

  /** Taking one option means considering it and what extends it, then the options after it. */
  lemma OptionFirst(
    best: Best, pool: Pool, chosen: seq<Change>, index: nat, o: nat, depth: nat, later: seq<seq<Change>>,
    difference: int, penalty: int)
    requires index < |pool| && o < |pool[index]| && depth > 0
    ensures
      var taken := chosen + [pool[index][o]];
      var after := BestOf(best, [taken] + Candidates(pool, taken, index + 1, depth - 1), difference, penalty);
      BestOf(best, CandidatesFrom(pool, chosen, index, o, depth) + later, difference, penalty) ==
      BestOf(after, CandidatesFrom(pool, chosen, index, o + 1, depth) + later, difference, penalty)
  {
    hide Candidates, CandidatesFrom, BestOf;
    var taken := chosen + [pool[index][o]];
    var here := [taken] + Candidates(pool, taken, index + 1, depth - 1);
    var rest := CandidatesFrom(pool, chosen, index, o + 1, depth);
    CandidatesFromStep(pool, chosen, index, o, depth);
    assert here + rest + later == here + (rest + later);
    BestOfConcat(best, here, rest + later, difference, penalty);
  }

  class NearestSearch {
    const pool: Pool
    const difference: int
    const maxChanges: nat
    const penalty: int
    var chosen: seq<Change>
    var best: Best

    constructor (pool: Pool, difference: int, maxChanges: nat, penalty: int)
      ensures this.pool == pool && this.difference == difference && this.maxChanges == maxChanges &&
        this.penalty == penalty
      ensures chosen == [] && best == START
    {
      this.pool, this.difference, this.maxChanges, this.penalty := pool, difference, maxChanges, penalty;
      chosen, best := [], START;
    }

    method ConsiderChosen(sum: int)
      requires sum == Delta(chosen)
      modifies this`best
      ensures best == Consider(old(best), chosen, difference, penalty)
    {
      var residual := difference - sum;
      var cost := Abs(residual) + |chosen| * penalty;
      if best.cost.None? || cost < best.cost.value { best := Best(Some(Nearest(chosen, residual)), Some(cost)); }
    }

    /** Considers what is chosen and then everything that extends it, and leaves the stack as it was. */
    method Search(from: nat, sum: int)
      requires sum == Delta(chosen) && |chosen| <= maxChanges
      modifies this
      ensures chosen == old(chosen)
      ensures best == BestOf(old(best), (if |chosen| > 0 then [chosen] else []) +
        Candidates(pool, chosen, from, maxChanges - |chosen|),
                             difference, penalty)
      decreases maxChanges - |chosen|
    {
      hide *;
      ghost var depth := maxChanges - |chosen|;
      ghost var self := if |chosen| > 0 then [chosen] else [];
      ghost var everything := Candidates(pool, chosen, from, depth);
      BestOfConcat(best, self, everything, difference, penalty);
      BestOfNone(best, difference, penalty);
      if |chosen| > 0 {
        BestOfOne(best, chosen, difference, penalty);
        ConsiderChosen(sum);
      }
      if |chosen| >= maxChanges {
        BestOfNone(best, difference, penalty);
        CandidatesEnd(pool, chosen, from, depth);
        return;
      }
      ghost var goal := BestOf(best, everything, difference, penalty);
      var index := from;
      while index < |pool|
        invariant from <= index && chosen == old(chosen)
        invariant BestOf(best, Candidates(pool, chosen, index, depth), difference, penalty) == goal
      {
        CandidatesStep(pool, chosen, index, depth);
        ghost var later := Candidates(pool, chosen, index + 1, depth);
        for o := 0 to |pool[index]|
          invariant chosen == old(chosen)
          invariant BestOf(best, CandidatesFrom(pool, chosen, index, o, depth) + later, difference, penalty) == goal
        {
          var option := pool[index][o];
          OptionFirst(best, pool, chosen, index, o, depth, later, difference, penalty);
          DeltaSnoc(chosen, option);
          PushPop(chosen, option);
          chosen := chosen + [option];
          Search(index + 1, sum + option.delta);
          chosen := chosen[..|chosen| - 1];
        }
        CandidatesFromEnd(pool, chosen, index, depth);
        NothingBefore(later);
        index := index + 1;
      }
      BestOfNone(best, difference, penalty);
      CandidatesEnd(pool, chosen, index, depth);
    }
  }

  lemma {:induction false} DeltaSnoc(changes: seq<Change>, c: Change)
    ensures Delta(changes + [c]) == Delta(changes) + c.delta
  {
    if changes == [] {
      assert [] + [c] == [c] && [c][1..] == [];
    } else {
      assert (changes + [c])[1..] == changes[1..] + [c];
      DeltaSnoc(changes[1..], c);
    }
  }

  // ---- the result ---------------------------------------------------------------------------------------

  function NearestSpec(
    candidates: seq<Candidate>, difference: Number, penalty: int, maxChanges: nat, maxCandidates: nat): Option<Nearest>
  {
    if difference.Fractional? || difference.n == 0 then None
    else
      var pool := PoolOf(candidates, maxCandidates);
      var best := BestOf(START, Candidates(pool, [], 0, maxChanges), difference.n, penalty);
      if best.cost.Some? && best.cost.value < Abs(difference.n) then best.nearest else None
  }

  /** `penalty` is the price of one change: a share of the difference, at least `MIN_CHANGE_PENALTY`. */
  method FindNearestBalanceMatch(
    candidates: seq<Candidate>, difference: Number, penalty: int,
    maxChanges: nat := MAX_CHANGES - 1, maxCandidates: nat := MAX_CANDIDATES)
    returns (r: Option<Nearest>)
    requires penalty >= MIN_CHANGE_PENALTY
    ensures r == NearestSpec(candidates, difference, penalty, maxChanges, maxCandidates)
  {
    if difference.Fractional? || difference.n == 0 { return None; }
    var pool := PoolOf(candidates, maxCandidates);
    if |pool| == 0 { return None; }
    var search := new NearestSearch(pool, difference.n, maxChanges, penalty);
    search.Search(0, 0);
    assert [] + Candidates(pool, [], 0, maxChanges) == Candidates(pool, [], 0, maxChanges);
    r := if search.best.cost.Some? && search.best.cost.value < Abs(difference.n) then search.best.nearest else None;
  }

  /** What a set of picks would cost. */
  function PicksCost(pool: Pool, ps: seq<Pick>, difference: int, penalty: int): int
    requires AllValid(pool, ps)
  {
    Cost(Changes(pool, ps), difference, penalty)
  }

  /**
   * A result is the first change set, in lexicographic order, of least cost over all sets within the
   * limits, together with what it leaves unexplained; there is none exactly when no set costs less
   * than the difference itself.
   */
  lemma {:induction false} NearestIsOptimal(
    candidates: seq<Candidate>, difference: int, penalty: int, maxChanges: nat, maxCandidates: nat)
    requires difference != 0
    ensures var pool, r := PoolOf(candidates, maxCandidates),
      NearestSpec(candidates, Whole(difference), penalty, maxChanges, maxCandidates);
      && (r.None? <==> forall ps :: Visited(pool, 0, maxChanges, ps) ==>
        PicksCost(pool, ps, difference, penalty) >= Abs(difference))
      && (r.Some? ==>
            && r.value.residual == difference - Delta(r.value.changes)
            && exists ps ::
                 BestVisit(pool, maxChanges, ps, difference, penalty) && Changes(pool, ps) == r.value.changes)
  {
    var pool := PoolOf(candidates, maxCandidates);
    var visits, list := Visits(pool, 0, maxChanges), Candidates(pool, [], 0, maxChanges);
    CandidatesAreVisits(pool, maxChanges);
    VisitsInOrder(pool, 0, maxChanges);
    hide Visits, Changes, Cost, ValidPicks, PoolOf, BestOf, Candidates, Completed, InOrder;
    if list == [] {
      assert visits == [];
      NothingBest(difference, penalty);
    } else {
      var at := BestIsFirstLeast(list, difference, penalty);
      LeastOverVisits(pool, maxChanges, visits, list, at, difference, penalty);
    }
  }

  /** The other set costs more, or as much and comes later. */
  predicate CostsMore(pool: Pool, ps: seq<Pick>, other: seq<Pick>, difference: int, penalty: int)
    requires AllValid(pool, ps) && AllValid(pool, other)
  {
    var cost, otherCost := PicksCost(pool, ps, difference, penalty), PicksCost(pool, other, difference, penalty);
    cost < otherCost || (cost == otherCost && (ps == other || Before(ps, other)))
  }

  ghost predicate BestVisit(pool: Pool, depth: nat, ps: seq<Pick>, difference: int, penalty: int) {
    Visited(pool, 0, depth, ps) &&
    forall other :: Visited(pool, 0, depth, other) ==> CostsMore(pool, ps, other, difference, penalty)
  }

  lemma CandidatesAreVisits(pool: Pool, depth: nat)
    ensures MadeOf(pool, depth, Visits(pool, 0, depth), Candidates(pool, [], 0, depth))
  {
    var visits := Visits(pool, 0, depth);
    VisitsValid(pool, 0, depth);
    assert forall i :: 0 <= i < |visits| ==> visits[i] in visits;
    forall ps ensures ps in visits <==> Visited(pool, 0, depth, ps) { VisitsExact(pool, 0, depth, ps); }
  }

  /** The list holds the changes of the pick lists, and those are all that can be visited. */
  ghost predicate MadeOf(pool: Pool, depth: nat, visits: seq<seq<Pick>>, list: seq<seq<Change>>) {
    && |list| == |visits|
    && (forall i :: 0 <= i < |visits| ==> AllValid(pool, visits[i]) && list[i] == Changes(pool, visits[i]))
    && (forall ps :: ps in visits <==> Visited(pool, 0, depth, ps))
  }

  lemma LeastOverVisits(
    pool: Pool, depth: nat, visits: seq<seq<Pick>>, list: seq<seq<Change>>, at: nat, difference: int, penalty: int)
    requires MadeOf(pool, depth, visits, list) && at < |list| && FirstLeast(list, at, difference, penalty)
    requires InOrder(visits)
    ensures BestVisit(pool, depth, visits[at], difference, penalty) && Changes(pool, visits[at]) == list[at]
    ensures PicksCost(pool, visits[at], difference, penalty) == Cost(list[at], difference, penalty)
  {
    hide Changes, Cost, ValidPicks, Before;
    assert visits[at] in visits;
    forall ps | Visited(pool, 0, depth, ps) ensures CostsMore(pool, visits[at], ps, difference, penalty) {
      var i :| 0 <= i < |visits| && visits[i] == ps;
    }
  }

  /**
   * When the exact search, at least as deep, found nothing, the nearest match always leaves
   * something unexplained.
   */
  lemma {:induction false} NearestAfterExactIsNotExact(
    candidates: seq<Candidate>, difference: int, penalty: int, nearestDepth: nat, exactDepth: nat, maxSolutions: nat,
    maxCandidates: nat)
    requires difference != 0 && maxSolutions >= 1 && nearestDepth <= exactDepth
    requires Matches(candidates, Whole(difference), exactDepth, maxSolutions, maxCandidates) == []
    ensures var r := NearestSpec(candidates, Whole(difference), penalty, nearestDepth, maxCandidates);
            r.Some? ==> r.value.residual != 0
  {
    var pool := PoolOf(candidates, maxCandidates);
    var r := NearestSpec(candidates, Whole(difference), penalty, nearestDepth, maxCandidates);
    MatchesAreSmallest(candidates, difference, exactDepth, maxSolutions, maxCandidates);
    NearestIsOptimal(candidates, difference, penalty, nearestDepth, maxCandidates);
    if r.Some? {
      var ps :| BestVisit(pool, nearestDepth, ps, difference, penalty) && Changes(pool, ps) == r.value.changes;
      assert NoSets(pool, |ps|, difference);
      assert !IsSet(pool, 0, |ps|, difference, ps);
    }
  }
}
