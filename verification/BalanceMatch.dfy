// Balance reconciliation: the smallest changes of a selection that explain a difference, and the
// nearest ones when nothing explains it.
module BalanceMatch {
  import opened Sequences

  const MAX_CANDIDATES := 40
  const MAX_CHANGES := 5
  const MAX_SOLUTIONS := 8

  /** A number as the search receives it: only whole minor units take part. */
  datatype Number = Whole(n: int) | Fractional

  datatype Candidate = Candidate(id: string, effect: Number, included: bool, flippable: bool)

  datatype Action = Include | Exclude | Flip

  datatype Change = Change(id: string, action: Action, delta: int)

  type Pool = seq<seq<Change>>

  function BalanceMatchOptions(c: Candidate): seq<Change> {
    if c.effect.Fractional? || c.effect.n == 0 then []
    else if c.included then
      [Change(c.id, Exclude, -c.effect.n)] + if c.flippable then [Change(c.id, Flip, -2 * c.effect.n)] else []
    else
      [Change(c.id, Include, c.effect.n)] + if c.flippable then [Change(c.id, Flip, -c.effect.n)] else []
  }

  function PoolOf(candidates: seq<Candidate>, maxCandidates: nat): Pool {
    Filter(Map(Take(candidates, maxCandidates), BalanceMatchOptions), (options: seq<Change>) => |options| > 0)
  }

  function Take<T>(s: seq<T>, n: nat): seq<T> { if |s| <= n then s else s[..n] }

  // ---- what a change does -------------------------------------------------------------------------

  /** What a candidate contributes to the balance. */
  function Contribution(c: Candidate): int { if c.included && c.effect.Whole? then c.effect.n else 0 }

  /** The candidate after the user makes the change. */
  function After(c: Candidate, action: Action): Candidate
    requires c.effect.Whole?
  {
    match action
    case Include => c.(included := true)
    case Exclude => c.(included := false)
    case Flip => c.(included := true, effect := Whole(-c.effect.n))
  }

  predicate Offers(c: Candidate, action: Action) { exists o :: o in BalanceMatchOptions(c) && o.action == action }

  /** Every option changes the balance by exactly its delta, and every sensible action is offered. */
  lemma OptionsShift(c: Candidate)
    ensures forall o :: o in BalanceMatchOptions(c) ==>
      c.effect.Whole? && o.id == c.id && o.delta == Contribution(After(c, o.action)) - Contribution(c) && o.delta != 0
    ensures c.effect.Whole? && c.effect.n != 0 ==>
      (Offers(c, Include) <==> !c.included) && (Offers(c, Exclude) <==> c.included) &&
        (Offers(c, Flip) <==> c.flippable)
  {
    if c.effect.Whole? && c.effect.n != 0 {
      var options := BalanceMatchOptions(c);
      assert options[0] in options;
      assert c.flippable ==> options[1] in options;
    }
  }

  // ---- change sets --------------------------------------------------------------------------------

  /** One chosen option: its position in the pool and its position among that candidate's options. */
  datatype Pick = Pick(index: nat, option: nat)

  predicate ValidPick(pool: Pool, p: Pick) { p.index < |pool| && p.option < |pool[p.index]| }

  predicate AllValid(pool: Pool, ps: seq<Pick>) { forall i :: 0 <= i < |ps| ==> ValidPick(pool, ps[i]) }

  /** Picks from `from` on, at most one for each candidate, in pool order. */
  predicate ValidPicks(pool: Pool, from: nat, ps: seq<Pick>) {
    && AllValid(pool, ps)
    && (forall i :: 0 <= i < |ps| ==> from <= ps[i].index)
    && (forall i, j :: 0 <= i < j < |ps| ==> ps[i].index < ps[j].index)
  }

  function Chosen(pool: Pool, p: Pick): Change
    requires ValidPick(pool, p)
  {
    pool[p.index][p.option]
  }

  function Changes(pool: Pool, ps: seq<Pick>): (r: seq<Change>)
    requires AllValid(pool, ps)
    ensures |r| == |ps|
  {
    if ps == [] then [] else [Chosen(pool, ps[0])] + Changes(pool, ps[1..])
  }

  function Delta(changes: seq<Change>): int {
    if changes == [] then 0 else changes[0].delta + Delta(changes[1..])
  }

  predicate PickBefore(a: Pick, b: Pick) { a.index < b.index || (a.index == b.index && a.option < b.option) }

  /** Lexicographic order on pick lists. */
  predicate Before(a: seq<Pick>, b: seq<Pick>)
    decreases |a|
  {
    if a == [] then b != []
    else b != [] && (PickBefore(a[0], b[0]) || (a[0] == b[0] && Before(a[1..], b[1..])))
  }

  predicate InOrder(list: seq<seq<Pick>>) {
    forall i, j :: 0 <= i < j < |list| ==> Before(list[i], list[j])
  }

  // ---- the exact search as an enumeration ---------------------------------------------------------

  function Prepend(p: Pick): seq<Pick> -> seq<Pick> { (ps: seq<Pick>) => [p] + ps }

  /** The change sets of exactly `size` picks adding up to `need`, in search order. */
  function Sets(pool: Pool, from: nat, size: nat, need: int): seq<seq<Pick>>
    decreases size, |pool| - from, 0
  {
    if size == 0 then (if need == 0 then [[]] else [])
    else if from >= |pool| then []
    else SetsFrom(pool, from, 0, size, need) + Sets(pool, from + 1, size, need)
  }

  /** Those whose first pick is option `option` or a later one of candidate `from`. */
  function SetsFrom(pool: Pool, from: nat, option: nat, size: nat, need: int): seq<seq<Pick>>
    requires from < |pool| && size > 0
    decreases size - 1, |pool| - from, 1, |pool[from]| - option
  {
    if option >= |pool[from]| then []
    else
      Map(Sets(pool, from + 1, size - 1, need - pool[from][option].delta), Prepend(Pick(from, option)))
      + SetsFrom(pool, from, option + 1, size, need)
  }

  /** The picks form a change set of the given size and total. */
  predicate IsSet(pool: Pool, from: nat, size: nat, need: int, ps: seq<Pick>) {
    ValidPicks(pool, from, ps) && |ps| == size && Delta(Changes(pool, ps)) == need
  }

  lemma ConsValid(pool: Pool, from: nat, ps: seq<Pick>)
    requires ps != [] && ValidPick(pool, ps[0])
    ensures ValidPicks(pool, from, ps) <==> from <= ps[0].index && ValidPicks(pool, ps[0].index + 1, ps[1..])
  {
    var rest := ps[1..];
    assert forall i :: 0 <= i < |rest| ==> rest[i] == ps[i + 1];
    assert forall i :: 0 < i < |ps| ==> ps[i] == rest[i - 1];
  }

  lemma ConsSet(pool: Pool, from: nat, size: nat, need: int, ps: seq<Pick>)
    requires ps != [] && ValidPick(pool, ps[0])
    ensures IsSet(pool, from, size, need, ps) <==>
            from <= ps[0].index && size > 0 &&
            IsSet(pool, ps[0].index + 1, size - 1, need - Chosen(pool, ps[0]).delta, ps[1..])
  {
    ConsValid(pool, from, ps);
    if ValidPicks(pool, from, ps) {
      assert Changes(pool, ps)[1..] == Changes(pool, ps[1..]);
    }
  }

  lemma InPrepended(p: Pick, tails: seq<seq<Pick>>, ps: seq<Pick>)
    ensures ps in Map(tails, Prepend(p)) <==> ps != [] && ps[0] == p && ps[1..] in tails
  {
    var mapped := Map(tails, Prepend(p));
    if ps in mapped {
      var i :| 0 <= i < |tails| && mapped[i] == ps;
      assert ps == [p] + tails[i] && ps[1..] == tails[i];
    }
    if ps != [] && ps[0] == p && ps[1..] in tails {
      var i :| 0 <= i < |tails| && tails[i] == ps[1..];
      assert mapped[i] == [p] + ps[1..] == ps;
    }
  }

  lemma FirstPick(pool: Pool, from: nat, size: nat, need: int, ps: seq<Pick>)
    requires IsSet(pool, from, size, need, ps) && size > 0
    ensures ps != [] && ValidPick(pool, ps[0]) && from <= ps[0].index
  {
  }

  /** The enumeration lists exactly the change sets of the given size and total. */
  lemma {:induction false} SetsExact(pool: Pool, from: nat, size: nat, need: int, ps: seq<Pick>)
    ensures ps in Sets(pool, from, size, need) <==> IsSet(pool, from, size, need, ps)
    decreases size, |pool| - from, 0
  {
    if size == 0 {
    } else {
      hide ValidPicks, ValidPick, Changes, Delta, SetsFrom;
      if IsSet(pool, from, size, need, ps) { FirstPick(pool, from, size, need, ps); }
      if from < |pool| {
        SetsFromExact(pool, from, 0, size, need, ps);
        SetsExact(pool, from + 1, size, need, ps);
        if ps != [] && ValidPick(pool, ps[0]) {
          ConsSet(pool, from, size, need, ps);
          ConsSet(pool, from + 1, size, need, ps);
        }
        if IsSet(pool, from + 1, size, need, ps) { FirstPick(pool, from + 1, size, need, ps); }
      }
    }
  }

  lemma {:induction false} SetsFromExact(pool: Pool, from: nat, option: nat, size: nat, need: int, ps: seq<Pick>)
    requires from < |pool| && size > 0
    ensures ps in SetsFrom(pool, from, option, size, need) <==>
            IsSet(pool, from, size, need, ps) && ps[0].index == from && option <= ps[0].option
    decreases size - 1, |pool| - from, 1, |pool[from]| - option
  {
    hide ValidPicks, ValidPick, Changes, Delta, Sets, Map, Prepend;
    if IsSet(pool, from, size, need, ps) { FirstPick(pool, from, size, need, ps); }
    if option < |pool[from]| {
      var pick := Pick(from, option);
      SetsFromExact(pool, from, option + 1, size, need, ps);
      InPrepended(pick, Sets(pool, from + 1, size - 1, need - pool[from][option].delta), ps);
      if ps != [] && ps[0] == pick {
        SetsExact(pool, from + 1, size - 1, need - pool[from][option].delta, ps[1..]);
        ConsSet(pool, from, size, need, ps);
      }
    }
  }

  lemma OrderConcat(a: seq<seq<Pick>>, b: seq<seq<Pick>>)
    requires InOrder(a) && InOrder(b)
    requires forall x, y :: x in a && y in b ==> Before(x, y)
    ensures InOrder(a + b)
  {
  }

  lemma OrderPrepend(p: Pick, list: seq<seq<Pick>>)
    requires InOrder(list)
    ensures InOrder(Map(list, Prepend(p)))
  {
    forall i, j | 0 <= i < j < |list| ensures Before([p] + list[i], [p] + list[j]) {
      assert ([p] + list[i])[1..] == list[i] && ([p] + list[j])[1..] == list[j];
    }
  }

  /** The enumeration is in lexicographic order, so nothing is listed twice. */
  lemma {:induction false} SetsInOrder(pool: Pool, from: nat, size: nat, need: int)
    ensures InOrder(Sets(pool, from, size, need))
    decreases size, |pool| - from, 0
  {
    if size > 0 && from < |pool| {
      var here, later := SetsFrom(pool, from, 0, size, need), Sets(pool, from + 1, size, need);
      SetsFromInOrder(pool, from, 0, size, need);
      SetsInOrder(pool, from + 1, size, need);
      forall x, y | x in here && y in later ensures Before(x, y) {
        SetsFromExact(pool, from, 0, size, need, x);
        SetsExact(pool, from + 1, size, need, y);
      }
      OrderConcat(here, later);
    }
  }

  lemma {:induction false} SetsFromInOrder(pool: Pool, from: nat, option: nat, size: nat, need: int)
    requires from < |pool| && size > 0
    ensures InOrder(SetsFrom(pool, from, option, size, need))
    decreases size - 1, |pool| - from, 1, |pool[from]| - option
  {
    if option < |pool[from]| {
      var pick := Pick(from, option);
      var tails := Sets(pool, from + 1, size - 1, need - pool[from][option].delta);
      var here, later := Map(tails, Prepend(pick)), SetsFrom(pool, from, option + 1, size, need);
      SetsInOrder(pool, from + 1, size - 1, need - pool[from][option].delta);
      OrderPrepend(pick, tails);
      SetsFromInOrder(pool, from, option + 1, size, need);
      forall x, y | x in here && y in later ensures Before(x, y) {
        SetsFromExact(pool, from, option + 1, size, need, y);
      }
      OrderConcat(here, later);
    }
  }

  /** No set of `size` fits in fewer candidates: the bound that cuts the search off. */
  lemma {:induction false} TooFewLeft(pool: Pool, from: nat, size: nat, need: int)
    requires from > |pool| - size && size > 0
    ensures Sets(pool, from, size, need) == []
  {
    if Sets(pool, from, size, need) != [] {
      var ps := Sets(pool, from, size, need)[0];
      SetsExact(pool, from, size, need, ps);
      Spread(pool, from, ps, |ps| - 1);
      assert false;
    }
  }

  lemma {:induction false} Spread(pool: Pool, from: nat, ps: seq<Pick>, i: nat)
    requires ValidPicks(pool, from, ps) && i < |ps|
    ensures from + i <= ps[i].index < |pool|
  {
    if i > 0 { Spread(pool, from, ps, i - 1); }
    assert ValidPick(pool, ps[i]);
  }

  // ---- the search over a shared stack -------------------------------------------------------------

  /** The complete solutions: the changes chosen so far, then those of each enumerated set. */
  function Completed(pool: Pool, chosen: seq<Change>, sets: seq<seq<Pick>>): (r: seq<seq<Change>>)
    requires forall ps :: ps in sets ==> AllValid(pool, ps)
    ensures |r| == |sets|
  {
    seq(|sets|, i requires 0 <= i < |sets| => assert sets[i] in sets; chosen + Changes(pool, sets[i]))
  }

  function Solutions(pool: Pool, chosen: seq<Change>, from: nat, size: nat, need: int): (r: seq<seq<Change>>)
    ensures |r| == |Sets(pool, from, size, need)|
  {
    SetsValid(pool, from, size, need);
    Completed(pool, chosen, Sets(pool, from, size, need))
  }

  function SolutionsFrom(
    pool: Pool, chosen: seq<Change>, from: nat, option: nat, size: nat, need: int): (r: seq<seq<Change>>)
    requires from < |pool| && size > 0
    ensures |r| == |SetsFrom(pool, from, option, size, need)|
  {
    SetsFromValid(pool, from, option, size, need);
    Completed(pool, chosen, SetsFrom(pool, from, option, size, need))
  }

  lemma SetsValid(pool: Pool, from: nat, size: nat, need: int)
    ensures forall ps :: ps in Sets(pool, from, size, need) ==> AllValid(pool, ps)
  {
    forall ps | ps in Sets(pool, from, size, need) ensures AllValid(pool, ps) { SetsExact(pool, from, size, need, ps); }
  }

  lemma SetsFromValid(pool: Pool, from: nat, option: nat, size: nat, need: int)
    requires from < |pool| && size > 0
    ensures forall ps :: ps in SetsFrom(pool, from, option, size, need) ==> AllValid(pool, ps)
  {
    forall ps | ps in SetsFrom(pool, from, option, size, need) ensures AllValid(pool, ps) {
      SetsFromExact(pool, from, option, size, need, ps);
    }
  }

  lemma SolutionsStep(pool: Pool, chosen: seq<Change>, from: nat, size: nat, need: int)
    requires from < |pool| && size > 0
    ensures Solutions(pool, chosen, from, size, need)
         == SolutionsFrom(pool, chosen, from, 0, size, need) + Solutions(pool, chosen, from + 1, size, need)
  {
    SetsValid(pool, from, size, need);
  }

  lemma SolutionsBase(pool: Pool, chosen: seq<Change>, from: nat, need: int)
    ensures Solutions(pool, chosen, from, 0, need) == if need == 0 then [chosen] else []
  {
    assert chosen + [] == chosen;
  }

  lemma SolutionsFromEnd(pool: Pool, chosen: seq<Change>, from: nat, size: nat, need: int)
    requires from < |pool| && size > 0
    ensures SolutionsFrom(pool, chosen, from, |pool[from]|, size, need) == []
  {
  }

  lemma PrependedChanges(pool: Pool, p: Pick, ps: seq<Pick>)
    requires ValidPick(pool, p) && AllValid(pool, ps)
    ensures AllValid(pool, [p] + ps) && Changes(pool, [p] + ps) == [Chosen(pool, p)] + Changes(pool, ps)
  {
    assert ([p] + ps)[1..] == ps;
  }

  lemma CompletedConcat(pool: Pool, chosen: seq<Change>, a: seq<seq<Pick>>, b: seq<seq<Pick>>)
    requires forall ps :: ps in a || ps in b ==> AllValid(pool, ps)
    ensures Completed(pool, chosen, a + b) == Completed(pool, chosen, a) + Completed(pool, chosen, b)
  {
  }

  /** Choosing an option and then completing is completing the longer choice. */
  lemma CompletedPrepend(pool: Pool, chosen: seq<Change>, pick: Pick, tails: seq<seq<Pick>>)
    requires ValidPick(pool, pick) && forall ps :: ps in tails ==> AllValid(pool, ps)
    ensures forall ps :: ps in Map(tails, Prepend(pick)) ==> AllValid(pool, ps)
    ensures Completed(pool, chosen, Map(tails, Prepend(pick))) == Completed(pool, chosen + [Chosen(pool, pick)], tails)
  {
    var mapped := Map(tails, Prepend(pick));
    forall i | 0 <= i < |tails|
      ensures AllValid(pool, mapped[i]) && chosen + Changes(pool, mapped[i]) == chosen + [Chosen(pool, pick)] +
        Changes(pool, tails[i])
    {
      assert tails[i] in tails;
      PrependedChanges(pool, pick, tails[i]);
    }
  }

  lemma SolutionsFromStep(pool: Pool, chosen: seq<Change>, from: nat, option: nat, size: nat, need: int)
    requires from < |pool| && size > 0 && option < |pool[from]|
    ensures SolutionsFrom(pool, chosen, from, option, size, need)
         == Solutions(pool, chosen + [pool[from][option]], from + 1, size - 1, need - pool[from][option].delta)
          + SolutionsFrom(pool, chosen, from, option + 1, size, need)
  {
    var pick := Pick(from, option);
    var need' := need - pool[from][option].delta;
    var tails, rest := Sets(pool, from + 1, size - 1, need'), SetsFrom(pool, from, option + 1, size, need);
    SetsFromValid(pool, from, option + 1, size, need);
    SetsValid(pool, from + 1, size - 1, need');
    hide Sets, Completed, Map, Prepend, AllValid;
    assert SetsFrom(pool, from, option, size, need) == Map(tails, Prepend(pick)) + rest;
    CompletedPrepend(pool, chosen, pick, tails);
    CompletedConcat(pool, chosen, Map(tails, Prepend(pick)), rest);
  }

  /** What is still to be listed, after what was found, gives the whole list up to the limit. */
  predicate Towards<T(==)>(found: seq<T>, rest: seq<T>, all: seq<T>, n: nat) {
    |found| <= n && Take(found + rest, n) == Take(all, n)
  }

  lemma TowardsStep<T>(found: seq<T>, here: seq<T>, rest: seq<T>, later: seq<T>, all: seq<T>, n: nat)
    requires Towards(found, (here + rest) + later, all, n)
    ensures Towards(Take(found + here, n), rest + later, all, n)
  {
    assert found + ((here + rest) + later) == found + here + (rest + later);
    if |found + here| > n {
      assert Take(found + here + (rest + later), n) == Take(found + here, n);
      assert Take(Take(found + here, n) + (rest + later), n) == Take(found + here, n);
    }
  }

  lemma TowardsFull<T>(found: seq<T>, rest: seq<T>, all: seq<T>, n: nat)
    requires Towards(found, rest, all, n) && |found| >= n
    ensures found == Take(all, n)
  {
    assert Take(found + rest, n) == found;
  }

  lemma TowardsDone<T>(found: seq<T>, all: seq<T>, n: nat)
    requires Towards(found, [], all, n)
    ensures found == Take(all, n)
  {
    assert found + [] == found;
  }

  lemma TowardsStart<T>(found: seq<T>, rest: seq<T>, n: nat)
    requires |found| <= n
    ensures Towards(found, rest, found + rest, n)
  {
  }

  lemma TakeAll<T>(s: seq<T>, n: nat)
    requires |s| <= n
    ensures Take(s, n) == s && Take(s + [], n) == s
  {
  }

  lemma NoSolutionsLeft(pool: Pool, chosen: seq<Change>, from: nat, size: nat, need: int)
    requires from > |pool| - size && size > 0
    ensures Solutions(pool, chosen, from, size, need) == []
  {
    TooFewLeft(pool, from, size, need);
  }

  class ExactSearch {
    const pool: Pool
    const difference: int
    const maxSolutions: nat
    var chosen: seq<Change>
    var solutions: seq<seq<Change>>

    constructor (pool: Pool, difference: int, maxSolutions: nat)
      ensures this.pool == pool && this.difference == difference && this.maxSolutions == maxSolutions
      ensures chosen == [] && solutions == []
    {
      this.pool, this.difference, this.maxSolutions := pool, difference, maxSolutions;
      chosen, solutions := [], [];
    }

    /** Appends, up to the limit, the solutions that extend what is chosen, and leaves the stack as it was. */
    method Search(from: nat, remaining: nat, sum: int)
      requires |solutions| <= maxSolutions
      modifies this
      ensures chosen == old(chosen)
      ensures solutions == Take(old(solutions) + Solutions(pool, chosen, from, remaining, difference - sum),
        maxSolutions)
      decreases remaining
    {
      hide Sets, SetsFrom, Solutions, SolutionsFrom, Take;
      TowardsStart(solutions, Solutions(pool, chosen, from, remaining, difference - sum), maxSolutions);
      if |solutions| >= maxSolutions {
        TowardsFull(solutions, Solutions(pool, chosen, from, remaining, difference - sum),
                    solutions + Solutions(pool, chosen, from, remaining, difference - sum), maxSolutions);
        return;
      }
      if remaining == 0 {
        SolutionsBase(pool, chosen, from, difference - sum);
        if sum == difference { solutions := solutions + [chosen]; }
        TakeAll(solutions, maxSolutions);
        return;
      }
      ghost var need := difference - sum;
      ghost var all := solutions + Solutions(pool, chosen, from, remaining, need);
      var index := from;
      while index <= |pool| - remaining
        invariant from <= index && chosen == old(chosen)
        invariant Towards(solutions, Solutions(pool, chosen, index, remaining, need), all, maxSolutions)
        decreases |pool| - index
      {
        SolutionsStep(pool, chosen, index, remaining, need);
        ghost var later := Solutions(pool, chosen, index + 1, remaining, need);
        for o := 0 to |pool[index]|
          invariant chosen == old(chosen)
          invariant Towards(solutions, SolutionsFrom(pool, chosen, index, o, remaining, need) + later, all,
            maxSolutions)
        {
          var option := pool[index][o];
          ghost var here := Solutions(pool, chosen + [option], index + 1, remaining - 1, need - option.delta);
          ghost var rest := SolutionsFrom(pool, chosen, index, o + 1, remaining, need);
          SolutionsFromStep(pool, chosen, index, o, remaining, need);
          TowardsStep(solutions, here, rest, later, all, maxSolutions);
          chosen := chosen + [option];
          Search(index + 1, remaining - 1, sum + option.delta);
          chosen := chosen[..|chosen| - 1];
          if |solutions| >= maxSolutions {
            TowardsFull(solutions, rest + later, all, maxSolutions);
            return;
          }
        }
        SolutionsFromEnd(pool, chosen, index, remaining, need);
        assert [] + later == later;
        index := index + 1;
      }
      NoSolutionsLeft(pool, chosen, index, remaining, need);
      TowardsDone(solutions, all, maxSolutions);
    }
  }

  // ---- the smallest explanations --------------------------------------------------------------------

  /** The solutions of the first size, from `size` on, that has any. */
  function FirstSolutions(pool: Pool, difference: int, size: nat, maxChanges: nat, maxSolutions: nat): seq<seq<Change>>
    decreases maxChanges + 1 - size
  {
    if size > maxChanges || size > |pool| then []
    else
      var solutions := Take(Solutions(pool, [], 0, size, difference), maxSolutions);
      if |solutions| > 0 then solutions else FirstSolutions(pool, difference, size + 1, maxChanges, maxSolutions)
  }

  function Matches(
    candidates: seq<Candidate>, difference: Number, maxChanges: nat, maxSolutions: nat, maxCandidates: nat)
    : seq<seq<Change>>
  {
    if difference.Fractional? || difference.n == 0 then []
    else FirstSolutions(PoolOf(candidates, maxCandidates), difference.n, 1, maxChanges, maxSolutions)
  }

  method FindBalanceMatches(
    candidates: seq<Candidate>, difference: Number, maxChanges: nat := MAX_CHANGES,
    maxSolutions: nat := MAX_SOLUTIONS, maxCandidates: nat := MAX_CANDIDATES)
    returns (matches: seq<seq<Change>>)
    ensures matches == Matches(candidates, difference, maxChanges, maxSolutions, maxCandidates)
  {
    hide Solutions, Sets, Take, PoolOf;
    if difference.Fractional? || difference.n == 0 { return []; }
    var pool := PoolOf(candidates, maxCandidates);
    if |pool| == 0 { return []; }
    var size := 1;
    while size <= Min(maxChanges, |pool|)
      invariant 1 <= size
      invariant FirstSolutions(pool, difference.n, size, maxChanges, maxSolutions)
             == FirstSolutions(pool, difference.n, 1, maxChanges, maxSolutions)
    {
      var search := new ExactSearch(pool, difference.n, maxSolutions);
      search.Search(0, size, 0);
      assert [] + Solutions(pool, [], 0, size, difference.n) == Solutions(pool, [], 0, size, difference.n);
      if |search.solutions| > 0 { return search.solutions; }
      size := size + 1;
    }
    return [];
  }

  ghost predicate NoSets(pool: Pool, size: nat, difference: int) { forall ps :: !IsSet(pool, 0, size, difference, ps) }

  lemma NoSetsMeans(pool: Pool, size: nat, difference: int)
    ensures NoSets(pool, size, difference) <==> Sets(pool, 0, size, difference) == []
  {
    forall ps ensures ps in Sets(pool, 0, size, difference) <==> IsSet(pool, 0, size, difference, ps) {
      SetsExact(pool, 0, size, difference, ps);
    }
    if Sets(pool, 0, size, difference) != [] {
      assert Sets(pool, 0, size, difference)[0] in Sets(pool, 0, size, difference);
    }
  }

  /** `r` lists, up to the limit and in lexicographic order, exactly the change sets of this size. */
  ghost predicate ListsSets(pool: Pool, size: nat, difference: int, limit: nat, r: seq<seq<Change>>) {
    exists sets: seq<seq<Pick>> ::
      && InOrder(sets)
      && (forall ps :: ps in sets <==> IsSet(pool, 0, size, difference, ps))
      && r == Take(Completed(pool, [], sets), limit)
  }

  lemma SetsAreListed(pool: Pool, size: nat, difference: int, limit: nat)
    ensures ListsSets(pool, size, difference, limit, Take(Solutions(pool, [], 0, size, difference), limit))
  {
    var sets := Sets(pool, 0, size, difference);
    SetsInOrder(pool, 0, size, difference);
    forall ps ensures ps in sets <==> IsSet(pool, 0, size, difference, ps) { SetsExact(pool, 0, size, difference, ps); }
  }

  /** No change set is smaller, and `r` lists those of this size. */
  ghost predicate SmallestSize(pool: Pool, size: nat, difference: int, limit: nat, r: seq<seq<Change>>) {
    && ListsSets(pool, size, difference, limit, r)
    && !NoSets(pool, size, difference)
    && forall k :: 1 <= k < size ==> NoSets(pool, k, difference)
  }

  lemma {:induction false} FirstSolutionsSmallest(
    pool: Pool, difference: int, size: nat, maxChanges: nat, maxSolutions: nat)
    requires maxSolutions >= 1 && 1 <= size <= maxChanges + 1
    requires forall k :: 1 <= k < size ==> NoSets(pool, k, difference)
    ensures var r := FirstSolutions(pool, difference, size, maxChanges, maxSolutions);
      if r == [] then forall k :: 1 <= k <= maxChanges ==> NoSets(pool, k, difference)
      else exists k :: 1 <= k <= maxChanges && SmallestSize(pool, k, difference, maxSolutions, r)
    decreases maxChanges + 1 - size
  {
    if size > maxChanges {
    } else if size > |pool| {
      forall k | size <= k <= maxChanges ensures NoSets(pool, k, difference) {
        TooFewLeft(pool, 0, k, difference);
        NoSetsMeans(pool, k, difference);
      }
    } else {
      NoSetsMeans(pool, size, difference);
      SetsAreListed(pool, size, difference, maxSolutions);
      if Sets(pool, 0, size, difference) == [] {
        FirstSolutionsSmallest(pool, difference, size + 1, maxChanges, maxSolutions);
      } else {
        hide NoSets, ListsSets, Solutions, Sets;
        assert SmallestSize(pool, size, difference, maxSolutions,
          FirstSolutions(pool, difference, size, maxChanges, maxSolutions));
      }
    }
  }

  /**
   * The matches are the first `maxSolutions`, in lexicographic order, of all smallest change sets
   * that add up to the difference; there are none exactly when no set within the limits does.
   */
  lemma {:induction false} MatchesAreSmallest(
    candidates: seq<Candidate>, difference: int, maxChanges: nat, maxSolutions: nat, maxCandidates: nat)
    requires difference != 0 && maxSolutions >= 1
    ensures var pool, r := PoolOf(candidates, maxCandidates),
      Matches(candidates, Whole(difference), maxChanges, maxSolutions, maxCandidates);
      && (r == [] <==> forall k :: 1 <= k <= maxChanges ==> NoSets(pool, k, difference))
      && (r != [] ==> exists size :: 1 <= size <= maxChanges && SmallestSize(pool, size, difference, maxSolutions, r))
  {
    FirstSolutionsSmallest(PoolOf(candidates, maxCandidates), difference, 1, maxChanges, maxSolutions);
    hide NoSets, ListsSets, FirstSolutions;
  }
}
