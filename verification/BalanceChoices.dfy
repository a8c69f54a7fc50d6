// What the balance searches find, stated over the candidates themselves: the user's possible choices
// of changes, what they do to the balance, and which of them the searches return.
module BalanceChoices {
  import opened Sequences
  import opened BalanceMatch
  import opened NearestMatch

  /** A change the user could make to the candidate at a position. */
  datatype Choice = Choice(position: nat, action: Action)

  /** Only a whole, nonzero effect is worth changing: left out it can be taken in, taken in it can be left out. */
  predicate Sensible(c: Candidate, action: Action) {
    c.effect.Whole? && c.effect.n != 0 &&
    match action
    case Include => !c.included
    case Exclude => c.included
    case Flip => c.flippable
  }

  /** Sensible changes of some of the first `limit` candidates, each candidate at most once, in order. */
  predicate IsChoice(cs: seq<Candidate>, limit: nat, choices: seq<Choice>) {
    && (forall i :: 0 <= i < |choices| ==> Possible(cs, limit, choices[i]))
    && (forall i, j :: 0 <= i < j < |choices| ==> choices[i].position < choices[j].position)
  }

  predicate Possible(cs: seq<Candidate>, limit: nat, choice: Choice) {
    choice.position < |cs| && choice.position < limit && Sensible(cs[choice.position], choice.action)
  }

  /** What a choice adds to the balance. */
  function ShiftOf(cs: seq<Candidate>, choice: Choice): int
    requires choice.position < |cs| && cs[choice.position].effect.Whole?
  {
    var c := cs[choice.position];
    Contribution(After(c, choice.action)) - Contribution(c)
  }

  function Shift(cs: seq<Candidate>, limit: nat, choices: seq<Choice>): int
    requires IsChoice(cs, limit, choices)
  {
    if choices == [] then 0 else ShiftOf(cs, choices[0]) + Shift(cs, limit, choices[1..])
  }

  /** The changes tell the choices: the candidate's id, the action and what it adds to the balance. */
  predicate Tells(cs: seq<Candidate>, limit: nat, choices: seq<Choice>, changes: seq<Change>) {
    IsChoice(cs, limit, choices) && |changes| == |choices| && forall i :: 0 <= i < |choices| ==>
      changes[i] == Change(cs[choices[i].position].id, choices[i].action, ShiftOf(cs, choices[i]))
  }

  /** Earlier candidates first; of the two actions on one candidate the flip comes last. */
  predicate ChoiceBefore(a: Choice, b: Choice) {
    a.position < b.position || (a.position == b.position && a.action != Flip && b.action == Flip)
  }

  /** Lexicographic order: a list comes before its extensions. */
  predicate ListedBefore(a: seq<Choice>, b: seq<Choice>) {
    exists k: nat ::
      && k <= |a| && k < |b| && a[..k] == b[..k]
      && (k == |a| || ChoiceBefore(a[k], b[k]))
  }

  // ---- what choices do to the balance -------------------------------------------------------------

  function ContributionOf(): Candidate -> int { (c: Candidate) => Contribution(c) }

  /** The balance the candidates make up. */
  function Balance(cs: seq<Candidate>): int { Sum(cs, ContributionOf()) }

  function Applied(cs: seq<Candidate>, limit: nat, choices: seq<Choice>): (r: seq<Candidate>)
    requires IsChoice(cs, limit, choices)
    ensures |r| == |cs|
    ensures forall i :: 0 <= i < |cs| && (choices == [] || i < choices[0].position) ==> r[i] == cs[i]
  {
    if choices == [] then cs
    else
      var p := choices[0].position;
      assert forall i :: 0 <= i < |choices| - 1 ==> choices[1..][i] == choices[i + 1];
      Applied(cs, limit, choices[1..])[p := After(cs[p], choices[0].action)]
  }

  lemma {:induction false} SumReplaced<T>(s: seq<T>, i: nat, x: T, f: T -> int)
    requires i < |s|
    ensures Sum(s[i := x], f) == Sum(s, f) - f(s[i]) + f(x)
  {
    var n := |s| - 1;
    if i < n {
      SumReplaced(s[..n], i, x, f);
      assert s[i := x][..n] == s[..n][i := x];
    } else {
      assert s[i := x][..n] == s[..n];
    }
  }

  /** The shift of the choices is the change of the balance once the user has made them all. */
  lemma {:induction false} ShiftIsBalanceChange(cs: seq<Candidate>, limit: nat, choices: seq<Choice>)
    requires IsChoice(cs, limit, choices)
    ensures Balance(Applied(cs, limit, choices)) - Balance(cs) == Shift(cs, limit, choices)
  {
    if choices != [] {
      var p := choices[0].position;
      assert forall i :: 0 <= i < |choices| - 1 ==> choices[1..][i] == choices[i + 1];
      ShiftIsBalanceChange(cs, limit, choices[1..]);
      SumReplaced(Applied(cs, limit, choices[1..]), p, After(cs[p], choices[0].action), ContributionOf());
    }
  }

  // ---- the pool, position by position -------------------------------------------------------------

  /** The positions below `n` that have an option, in order. */
  function Positions(cs: seq<Candidate>, n: nat): (r: seq<nat>)
    requires n <= |cs|
    ensures forall k :: 0 <= k < |r| ==> r[k] < n
    ensures forall k, m :: 0 <= k < m < |r| ==> r[k] < r[m]
    ensures forall i: nat :: i in r <==> i < n && BalanceMatchOptions(cs[i]) != []
  {
    if n == 0 then []
    else Positions(cs, n - 1) + if BalanceMatchOptions(cs[n - 1]) != [] then [n - 1] else []
  }

  function Considered(cs: seq<Candidate>, limit: nat): (n: nat)
    ensures n <= |cs| && n <= limit && (n == |cs| || n == limit)
  {
    if |cs| <= limit then |cs| else limit
  }

  function AnyOption(): seq<Change> -> bool { (options: seq<Change>) => |options| > 0 }

  function OptionsAt(cs: seq<Candidate>): nat -> seq<Change> {
    (i: nat) => if i < |cs| then BalanceMatchOptions(cs[i]) else []
  }

  lemma {:induction false} PoolUpTo(cs: seq<Candidate>, n: nat)
    requires n <= |cs|
    ensures Filter(Map(cs[..n], BalanceMatchOptions), AnyOption()) == Map(Positions(cs, n), OptionsAt(cs))
  {
    hide BalanceMatchOptions, Filter;
    if n == 0 {
      FilterNone([], AnyOption());
    } else {
      var options := BalanceMatchOptions(cs[n - 1]);
      var mapped := Map(cs[..n - 1], BalanceMatchOptions);
      PoolUpTo(cs, n - 1);
      assert Map(cs[..n], BalanceMatchOptions) == mapped + [options];
      FilterOneMore(mapped, options, AnyOption());
      assert AnyOption()(options) <==> options != [];
      assert OptionsAt(cs)(n - 1) == options;
    }
  }

  /** The pool holds the options of exactly those candidates, in their order. */
  lemma PoolIs(cs: seq<Candidate>, limit: nat)
    ensures |PoolOf(cs, limit)| == |Positions(cs, Considered(cs, limit))|
    ensures var pos := Positions(cs, Considered(cs, limit));
      forall k :: 0 <= k < |pos| ==> PoolOf(cs, limit)[k] == BalanceMatchOptions(cs[pos[k]])
  {
    var n := Considered(cs, limit);
    assert Take(cs, limit) == cs[..n];
    FilterAgrees(Map(cs[..n], BalanceMatchOptions), AnyOption(), (options: seq<Change>) => |options| > 0);
    PoolUpTo(cs, n);
    hide BalanceMatchOptions, Filter;
  }

  function IndexIn(pos: seq<nat>, i: nat): (k: nat)
    requires i in pos
    ensures k < |pos| && pos[k] == i
  {
    if pos[0] == i then 0 else 1 + IndexIn(pos[1..], i)
  }

  // ---- choices and picks --------------------------------------------------------------------------

  lemma OptionsAre(c: Candidate, option: nat)
    requires option < |BalanceMatchOptions(c)|
    ensures var o := BalanceMatchOptions(c)[option];
      && option <= 1 && (option == 1 <==> o.action == Flip) && Sensible(c, o.action)
      && o == Change(c.id, o.action, Contribution(After(c, o.action)) - Contribution(c))
  {
  }

  lemma SensibleIsOption(c: Candidate, action: Action)
    requires Sensible(c, action)
    ensures var option := if action == Flip then 1 else 0;
      option < |BalanceMatchOptions(c)| && BalanceMatchOptions(c)[option].action == action
  {
  }

  /** One choice and the pick that stands for it. */
  predicate Same(cs: seq<Candidate>, pos: seq<nat>, choice: Choice, p: Pick) {
    && p.index < |pos| && pos[p.index] == choice.position && choice.position < |cs|
    && p.option < |BalanceMatchOptions(cs[choice.position])|
    && BalanceMatchOptions(cs[choice.position])[p.option].action == choice.action
  }

  predicate AllSame(cs: seq<Candidate>, pos: seq<nat>, choices: seq<Choice>, ps: seq<Pick>) {
    |ps| == |choices| && forall i :: 0 <= i < |choices| ==> Same(cs, pos, choices[i], ps[i])
  }

  function ChoicesOf(cs: seq<Candidate>, limit: nat, ps: seq<Pick>): (r: seq<Choice>)
    requires AllValid(PoolOf(cs, limit), ps)
    ensures AllSame(cs, Positions(cs, Considered(cs, limit)), r, ps)
  {
    PoolIs(cs, limit);
    seq(|ps|, i requires 0 <= i < |ps| =>
      assert ValidPick(PoolOf(cs, limit), ps[i]);
      var at := Positions(cs, Considered(cs, limit))[ps[i].index];
      Choice(at, BalanceMatchOptions(cs[at])[ps[i].option].action))
  }

  function PickOf(cs: seq<Candidate>, limit: nat, choice: Choice): (p: Pick)
    requires Possible(cs, limit, choice)
    ensures Same(cs, Positions(cs, Considered(cs, limit)), choice, p)
  {
    SensibleIsOption(cs[choice.position], choice.action);
    Pick(IndexIn(Positions(cs, Considered(cs, limit)), choice.position), if choice.action == Flip then 1 else 0)
  }

  function PicksOf(cs: seq<Candidate>, limit: nat, choices: seq<Choice>): (r: seq<Pick>)
    requires IsChoice(cs, limit, choices)
    ensures AllSame(cs, Positions(cs, Considered(cs, limit)), choices, r)
  {
    hide Same, Possible, Positions;
    seq(|choices|, i requires 0 <= i < |choices| => PickOf(cs, limit, choices[i]))
  }

  lemma SamePossible(cs: seq<Candidate>, limit: nat, choice: Choice, p: Pick)
    requires Same(cs, Positions(cs, Considered(cs, limit)), choice, p)
    ensures Possible(cs, limit, choice) && ValidPick(PoolOf(cs, limit), p)
    ensures Chosen(PoolOf(cs, limit), p) ==
      Change(cs[choice.position].id, choice.action, ShiftOf(cs, choice))
  {
    PoolIs(cs, limit);
    OptionsAre(cs[choice.position], p.option);
    hide BalanceMatchOptions, PoolOf, Positions, Contribution, After;
  }

  /** Picks and the choices they stand for are valid together, in the same order, and tell the same changes. */
  lemma {:induction false} SameMeans(cs: seq<Candidate>, limit: nat, choices: seq<Choice>, ps: seq<Pick>)
    requires AllSame(cs, Positions(cs, Considered(cs, limit)), choices, ps)
    ensures IsChoice(cs, limit, choices) <==> ValidPicks(PoolOf(cs, limit), 0, ps)
    ensures IsChoice(cs, limit, choices) ==>
      Tells(cs, limit, choices, Changes(PoolOf(cs, limit), ps)) &&
      Shift(cs, limit, choices) == Delta(Changes(PoolOf(cs, limit), ps))
  {
    hide PoolOf, Same, Possible, ShiftOf, ValidPick;
    var pos := Positions(cs, Considered(cs, limit));
    forall i | 0 <= i < |ps| ensures Possible(cs, limit, choices[i]) && ValidPick(PoolOf(cs, limit), ps[i]) {
      SamePossible(cs, limit, choices[i], ps[i]);
    }
    SameOrder(cs, limit, choices, ps);
    if IsChoice(cs, limit, choices) { ToldChanges(cs, limit, choices, ps); }
  }

  lemma SameOrder(cs: seq<Candidate>, limit: nat, choices: seq<Choice>, ps: seq<Pick>)
    requires AllSame(cs, Positions(cs, Considered(cs, limit)), choices, ps)
    ensures forall i, j :: 0 <= i < |ps| && 0 <= j < |ps| ==>
      (choices[i].position < choices[j].position <==> ps[i].index < ps[j].index)
  {
    var pos := Positions(cs, Considered(cs, limit));
    forall i, j | 0 <= i < |ps| && 0 <= j < |ps|
      ensures choices[i].position < choices[j].position <==> ps[i].index < ps[j].index
    {
      assert Same(cs, pos, choices[i], ps[i]) && Same(cs, pos, choices[j], ps[j]);
    }
  }

  lemma {:induction false} ToldChanges(cs: seq<Candidate>, limit: nat, choices: seq<Choice>, ps: seq<Pick>)
    requires AllSame(cs, Positions(cs, Considered(cs, limit)), choices, ps)
    requires IsChoice(cs, limit, choices) && AllValid(PoolOf(cs, limit), ps)
    ensures Tells(cs, limit, choices, Changes(PoolOf(cs, limit), ps))
    ensures Shift(cs, limit, choices) == Delta(Changes(PoolOf(cs, limit), ps))
  {
    hide PoolOf, Same, Possible, ShiftOf, ValidPick;
    if choices != [] {
      SamePossible(cs, limit, choices[0], ps[0]);
      assert Possible(cs, limit, choices[0]);
      assert IsChoice(cs, limit, choices[1..]) && AllValid(PoolOf(cs, limit), ps[1..]);
      ToldChanges(cs, limit, choices[1..], ps[1..]);
      var rest := Changes(PoolOf(cs, limit), ps[1..]);
      assert Changes(PoolOf(cs, limit), ps) == [Chosen(PoolOf(cs, limit), ps[0])] + rest;
    }
  }

  // ---- the order of the search --------------------------------------------------------------------

  lemma SameOnce(cs: seq<Candidate>, pos: seq<nat>, a: Choice, p: Pick, b: Choice, q: Pick)
    requires forall k, m :: 0 <= k < m < |pos| ==> pos[k] < pos[m]
    requires Same(cs, pos, a, p) && Same(cs, pos, b, q)
    ensures a == b <==> p == q
    ensures PickBefore(p, q) ==> ChoiceBefore(a, b)
  {
    OptionsAre(cs[a.position], p.option);
    OptionsAre(cs[b.position], q.option);
    hide BalanceMatchOptions;
  }

  lemma {:induction false} OrderKept(
    cs: seq<Candidate>, limit: nat, a: seq<Choice>, ps: seq<Pick>, b: seq<Choice>, qs: seq<Pick>)
    requires var pos := Positions(cs, Considered(cs, limit)); AllSame(cs, pos, a, ps) && AllSame(cs, pos, b, qs)
    requires Before(ps, qs)
    ensures ListedBefore(a, b)
  {
    hide Same, Positions, Considered, ChoiceBefore, PickBefore;
    var pos := Positions(cs, Considered(cs, limit));
    if ps == [] {
      assert a[..0] == b[..0];
    } else {
      SameOnce(cs, pos, a[0], ps[0], b[0], qs[0]);
      if PickBefore(ps[0], qs[0]) {
        assert a[..0] == b[..0];
      } else {
        OrderKept(cs, limit, a[1..], ps[1..], b[1..], qs[1..]);
        var k: nat :| k <= |a[1..]| && k < |b[1..]| && a[1..][..k] == b[1..][..k] &&
          (k == |a[1..]| || ChoiceBefore(a[1..][k], b[1..][k]));
        assert a[..k + 1] == [a[0]] + a[1..][..k] && b[..k + 1] == [b[0]] + b[1..][..k];
      }
    }
  }

  // ---- the exact search ---------------------------------------------------------------------------

  /** Choices of the given number that move the balance by the difference. */
  predicate Explains(cs: seq<Candidate>, limit: nat, size: nat, difference: int, choices: seq<Choice>) {
    IsChoice(cs, limit, choices) && |choices| == size && Shift(cs, limit, choices) == difference
  }

  ghost predicate Unexplained(cs: seq<Candidate>, limit: nat, size: nat, difference: int) {
    forall choices :: !Explains(cs, limit, size, difference, choices)
  }

  lemma SetExplains(cs: seq<Candidate>, limit: nat, size: nat, difference: int, ps: seq<Pick>)
    requires IsSet(PoolOf(cs, limit), 0, size, difference, ps)
    ensures Explains(cs, limit, size, difference, ChoicesOf(cs, limit, ps))
    ensures Tells(cs, limit, ChoicesOf(cs, limit, ps), Changes(PoolOf(cs, limit), ps))
  {
    hide PoolOf, ChoicesOf, Positions, Same, IsChoice, Changes, Delta, Shift, Tells;
    SameMeans(cs, limit, ChoicesOf(cs, limit, ps), ps);
  }

  lemma ExplanationIsSet(cs: seq<Candidate>, limit: nat, size: nat, difference: int, choices: seq<Choice>)
    requires Explains(cs, limit, size, difference, choices)
    ensures IsSet(PoolOf(cs, limit), 0, size, difference, PicksOf(cs, limit, choices))
    ensures ChoicesOf(cs, limit, PicksOf(cs, limit, choices)) == choices
  {
    var ps := PicksOf(cs, limit, choices);
    SameMeans(cs, limit, choices, ps);
    var again := ChoicesOf(cs, limit, ps);
    hide PoolOf, ChoicesOf, PicksOf, Positions, IsChoice, Changes, Delta, Shift, Tells, Same;
    forall i | 0 <= i < |choices| ensures again[i] == choices[i] {
      SameOnce(cs, Positions(cs, Considered(cs, limit)), again[i], ps[i], choices[i], ps[i]);
    }
  }

  lemma UnexplainedMeans(cs: seq<Candidate>, limit: nat, size: nat, difference: int)
    ensures Unexplained(cs, limit, size, difference) <==> NoSets(PoolOf(cs, limit), size, difference)
  {
    hide PoolOf, Explains, IsSet, ChoicesOf, PicksOf, Tells;
    if choices :| Explains(cs, limit, size, difference, choices) {
      ExplanationIsSet(cs, limit, size, difference, choices);
    }
    if ps :| IsSet(PoolOf(cs, limit), 0, size, difference, ps) { SetExplains(cs, limit, size, difference, ps); }
  }

  /** Every explanation of this size is in the list, in lexicographic order, and the result tells the first of them. */
  ghost predicate ListsExplanations(
    cs: seq<Candidate>, limit: nat, size: nat, difference: int, maxSolutions: nat, r: seq<seq<Change>>) {
    exists list: seq<seq<Choice>> ::
      && InChoiceOrder(list)
      && (forall choices :: choices in list <==> Explains(cs, limit, size, difference, choices))
      && |r| == Min(|list|, maxSolutions)
      && forall i :: 0 <= i < |r| ==> Tells(cs, limit, list[i], r[i])
  }

  ghost predicate Enumerates(cs: seq<Candidate>, limit: nat, size: nat, difference: int, sets: seq<seq<Pick>>) {
    InOrder(sets) && forall ps :: ps in sets <==> IsSet(PoolOf(cs, limit), 0, size, difference, ps)
  }

  ghost predicate InChoiceOrder(list: seq<seq<Choice>>) {
    forall i, j :: 0 <= i < j < |list| ==> ListedBefore(list[i], list[j])
  }

  lemma ChoicesListed(cs: seq<Candidate>, limit: nat, size: nat, difference: int, sets: seq<seq<Pick>>)
    returns (list: seq<seq<Choice>>)
    requires Enumerates(cs, limit, size, difference, sets)
    ensures |list| == |sets| && InChoiceOrder(list)
    ensures forall choices :: choices in list <==> Explains(cs, limit, size, difference, choices)
    ensures forall i :: 0 <= i < |sets| ==>
      AllValid(PoolOf(cs, limit), sets[i]) && Tells(cs, limit, list[i], Changes(PoolOf(cs, limit), sets[i]))
  {
    hide PoolOf, Positions, AllSame, Before, ListedBefore, IsChoice, Shift, Tells, ChoicesOf, PicksOf, Changes, Delta,
      ValidPicks;
    forall i | 0 <= i < |sets| ensures IsSet(PoolOf(cs, limit), 0, size, difference, sets[i]) {
      assert sets[i] in sets;
    }
    SetsAllValid(PoolOf(cs, limit), size, difference);
    list := seq(|sets|, i requires 0 <= i < |sets| => ChoicesOf(cs, limit, sets[i]));
    forall i | 0 <= i < |sets|
      ensures Explains(cs, limit, size, difference, list[i])
      ensures Tells(cs, limit, list[i], Changes(PoolOf(cs, limit), sets[i]))
    {
      SetExplains(cs, limit, size, difference, sets[i]);
    }
    forall i, j | 0 <= i < j < |list| ensures ListedBefore(list[i], list[j]) {
      OrderKept(cs, limit, list[i], sets[i], list[j], sets[j]);
    }
    forall choices | Explains(cs, limit, size, difference, choices) ensures choices in list {
      ExplanationIsSet(cs, limit, size, difference, choices);
      var ps := PicksOf(cs, limit, choices);
      assert ps in sets;
      var i :| 0 <= i < |sets| && sets[i] == ps;
      assert list[i] == choices;
    }
  }

  lemma SetsAllValid(pool: Pool, size: nat, difference: int)
    ensures forall ps :: IsSet(pool, 0, size, difference, ps) ==> AllValid(pool, ps)
  {
  }

  lemma SetsTell(cs: seq<Candidate>, limit: nat, size: nat, difference: int, maxSolutions: nat, r: seq<seq<Change>>)
    requires ListsSets(PoolOf(cs, limit), size, difference, maxSolutions, r)
    ensures ListsExplanations(cs, limit, size, difference, maxSolutions, r)
  {
    hide PoolOf, IsSet, InOrder, Changes, Tells, Explains, ListedBefore;
    SetsAllValid(PoolOf(cs, limit), size, difference);
    var sets: seq<seq<Pick>> :|
      && InOrder(sets)
      && (forall ps :: ps in sets <==> IsSet(PoolOf(cs, limit), 0, size, difference, ps))
      && r == Take(Completed(PoolOf(cs, limit), [], sets), maxSolutions);
    var list := ChoicesListed(cs, limit, size, difference, sets);
    forall i | 0 <= i < |r| ensures Tells(cs, limit, list[i], r[i]) {
      assert [] + Changes(PoolOf(cs, limit), sets[i]) == Changes(PoolOf(cs, limit), sets[i]);
      assert r[i] == Changes(PoolOf(cs, limit), sets[i]);
    }
  }

  /**
   * The exact search, over all choices the user could make: it returns nothing exactly when no choice
   * of up to `maxChanges` changes moves the balance by the difference, and otherwise the first choices,
   * in lexicographic order of the candidates, of the smallest number of changes that does.
   */
  lemma MatchesExplain(
    cs: seq<Candidate>, difference: Number, maxChanges: nat, maxSolutions: nat, maxCandidates: nat)
    ensures var r := Matches(cs, difference, maxChanges, maxSolutions, maxCandidates);
      && (difference.Fractional? || difference.n == 0 || maxSolutions == 0 ==> r == [])
      && (difference.Whole? && difference.n != 0 && maxSolutions >= 1 ==>
        && (r == [] <==> forall size :: 1 <= size <= maxChanges ==> Unexplained(cs, maxCandidates, size, difference.n))
        && (r != [] ==> exists size ::
          && 1 <= size <= maxChanges
          && ListsExplanations(cs, maxCandidates, size, difference.n, maxSolutions, r)
          && forall k :: 1 <= k < size ==> Unexplained(cs, maxCandidates, k, difference.n)))
  {
    hide PoolOf, Unexplained, NoSets, ListsExplanations, ListsSets, FirstSolutions;
    if difference.Whole? && difference.n != 0 {
      var d, pool := difference.n, PoolOf(cs, maxCandidates);
      if maxSolutions == 0 {
        NothingAsked(pool, d, 1, maxChanges);
      } else {
        var r := Matches(cs, difference, maxChanges, maxSolutions, maxCandidates);
        MatchesAreSmallest(cs, d, maxChanges, maxSolutions, maxCandidates);
        forall size: nat ensures Unexplained(cs, maxCandidates, size, d) <==> NoSets(pool, size, d) {
          UnexplainedMeans(cs, maxCandidates, size, d);
        }
        if r != [] {
          var size :| 1 <= size <= maxChanges && SmallestSize(pool, size, d, maxSolutions, r);
          SetsTell(cs, maxCandidates, size, d, maxSolutions, r);
        }
      }
    }
  }

  lemma {:induction false} NothingAsked(pool: Pool, difference: int, size: nat, maxChanges: nat)
    ensures FirstSolutions(pool, difference, size, maxChanges, 0) == []
    decreases maxChanges + 1 - size
  {
    if size <= maxChanges && size <= |pool| { NothingAsked(pool, difference, size + 1, maxChanges); }
  }

  // ---- the nearest search -------------------------------------------------------------------------

  /** What is left unexplained, and a penalty for each change. */
  function ChoiceCost(cs: seq<Candidate>, limit: nat, choices: seq<Choice>, difference: int, penalty: int): int
    requires IsChoice(cs, limit, choices)
  {
    Abs(difference - Shift(cs, limit, choices)) + |choices| * penalty
  }

  predicate Within(cs: seq<Candidate>, limit: nat, maxChanges: nat, choices: seq<Choice>) {
    IsChoice(cs, limit, choices) && 1 <= |choices| <= maxChanges
  }

  /** The other choices cost more, or as much and are listed later. */
  ghost predicate NoBetter(
    cs: seq<Candidate>, limit: nat, choices: seq<Choice>, other: seq<Choice>, difference: int, penalty: int)
    requires IsChoice(cs, limit, choices) && IsChoice(cs, limit, other)
  {
    var cost, otherCost :=
      ChoiceCost(cs, limit, choices, difference, penalty), ChoiceCost(cs, limit, other, difference, penalty);
    cost < otherCost || (cost == otherCost && (choices == other || ListedBefore(choices, other)))
  }

  ghost predicate Best(
    cs: seq<Candidate>, limit: nat, maxChanges: nat, choices: seq<Choice>, difference: int, penalty: int) {
    Within(cs, limit, maxChanges, choices) &&
    forall other :: Within(cs, limit, maxChanges, other) ==> NoBetter(cs, limit, choices, other, difference, penalty)
  }

  lemma VisitIsChoice(cs: seq<Candidate>, limit: nat, depth: nat, ps: seq<Pick>, difference: int, penalty: int)
    requires Visited(PoolOf(cs, limit), 0, depth, ps)
    ensures var choices := ChoicesOf(cs, limit, ps);
      && Within(cs, limit, depth, choices) && Tells(cs, limit, choices, Changes(PoolOf(cs, limit), ps))
      && Shift(cs, limit, choices) == Delta(Changes(PoolOf(cs, limit), ps))
      && ChoiceCost(cs, limit, choices, difference, penalty) == PicksCost(PoolOf(cs, limit), ps, difference, penalty)
  {
    hide PoolOf, ChoicesOf, Positions, Same, IsChoice, Changes, Delta, Shift, Tells;
    SameMeans(cs, limit, ChoicesOf(cs, limit, ps), ps);
  }

  lemma ChoiceIsVisit(cs: seq<Candidate>, limit: nat, depth: nat, choices: seq<Choice>)
    requires Within(cs, limit, depth, choices)
    ensures Visited(PoolOf(cs, limit), 0, depth, PicksOf(cs, limit, choices))
    ensures ChoicesOf(cs, limit, PicksOf(cs, limit, choices)) == choices
  {
    hide PoolOf, ChoicesOf, PicksOf, IsChoice, ValidPicks;
    ExplanationIsSet(cs, limit, |choices|, Shift(cs, limit, choices), choices);
  }

  lemma VisitedValid(pool: Pool, depth: nat)
    ensures forall ps :: Visited(pool, 0, depth, ps) ==> AllValid(pool, ps)
  {
  }

  lemma BestVisitsValid(pool: Pool, depth: nat, difference: int, penalty: int)
    ensures forall ps :: BestVisit(pool, depth, ps, difference, penalty) ==>
      Visited(pool, 0, depth, ps) && AllValid(pool, ps)
  {
  }

  lemma BestVisitIsBest(
    cs: seq<Candidate>, limit: nat, depth: nat, ps: seq<Pick>, difference: int, penalty: int)
    requires BestVisit(PoolOf(cs, limit), depth, ps, difference, penalty)
    ensures Best(cs, limit, depth, ChoicesOf(cs, limit, ps), difference, penalty)
  {
    hide PoolOf, ChoicesOf, PicksOf, Positions, Changes, ValidPicks, IsChoice, PicksCost, ChoiceCost, Tells, Shift,
      Delta,
      Same, Before, ListedBefore;
    VisitedValid(PoolOf(cs, limit), depth);
    var choices := ChoicesOf(cs, limit, ps);
    VisitIsChoice(cs, limit, depth, ps, difference, penalty);
    forall other | Within(cs, limit, depth, other)
      ensures NoBetter(cs, limit, choices, other, difference, penalty)
    {
      ChoiceIsVisit(cs, limit, depth, other);
      var qs := PicksOf(cs, limit, other);
      assert CostsMore(PoolOf(cs, limit), ps, qs, difference, penalty);
      VisitIsChoice(cs, limit, depth, qs, difference, penalty);
      if Before(ps, qs) { OrderKept(cs, limit, choices, ps, other, qs); }
    }
  }

  /**
   * The nearest search, over all choices the user could make: it returns nothing exactly when no choice
   * of up to `maxChanges` changes costs less than the difference itself, and otherwise the first choice of
   * least cost and what it leaves unexplained.
   */
  lemma NearestExplains(
    cs: seq<Candidate>, difference: Number, penalty: int, maxChanges: nat, maxCandidates: nat)
    ensures var r := NearestSpec(cs, difference, penalty, maxChanges, maxCandidates);
      && (difference.Fractional? || difference.n == 0 ==> r == None)
      && (difference.Whole? && difference.n != 0 ==>
        && (r == None <==> forall choices :: Within(cs, maxCandidates, maxChanges, choices) ==>
          ChoiceCost(cs, maxCandidates, choices, difference.n, penalty) >= Abs(difference.n))
        && (r.Some? ==> exists choices ::
          && Best(cs, maxCandidates, maxChanges, choices, difference.n, penalty)
          && Tells(cs, maxCandidates, choices, r.value.changes)
          && r.value.residual == difference.n - Shift(cs, maxCandidates, choices)))
  {
    hide PoolOf, BestOf, Candidates, ValidPicks, BestVisit, Changes, IsChoice, ChoiceCost, PicksCost, NoBetter, Tells,
      Shift, ChoicesOf, PicksOf, Delta;
    if difference.Whole? && difference.n != 0 {
      var d, pool, limit := difference.n, PoolOf(cs, maxCandidates), maxCandidates;
      var r := NearestSpec(cs, difference, penalty, maxChanges, limit);
      NearestIsOptimal(cs, d, penalty, maxChanges, limit);
      VisitedValid(pool, maxChanges);
      hide NearestSpec;
      if r.None? {
        forall choices | Within(cs, limit, maxChanges, choices)
          ensures ChoiceCost(cs, limit, choices, d, penalty) >= Abs(d)
        {
          ChoiceIsVisit(cs, limit, maxChanges, choices);
          VisitIsChoice(cs, limit, maxChanges, PicksOf(cs, limit, choices), d, penalty);
        }
      } else {
        var ps :| Visited(pool, 0, maxChanges, ps) && PicksCost(pool, ps, d, penalty) < Abs(d);
        VisitIsChoice(cs, limit, maxChanges, ps, d, penalty);
        BestVisitsValid(pool, maxChanges, d, penalty);
        var best :| BestVisit(pool, maxChanges, best, d, penalty) && Changes(pool, best) == r.value.changes;
        BestVisitIsBest(cs, limit, maxChanges, best, d, penalty);
        VisitIsChoice(cs, limit, maxChanges, best, d, penalty);
      }
    }
  }
}
