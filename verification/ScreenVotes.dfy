// Which neighbouring screenshot shows what stands above: a majority of the entries that two
// neighbouring screenshots share.
module ScreenVotes {
  import opened Sequences
  import opened ImportRows
  import opened ImportScreens
  import opened InferDates

  /** The same visible entry: a positive amount, currency and text that agree, and directions that do not differ. */
  predicate Repeats(text: Text, a: Row, b: Row) {
    && a.rowRole == FinancialEvent && b.rowRole == FinancialEvent
    && a.amount == b.amount && a.amount.Some? && a.amount.value > 0
    && a.currency == b.currency && a.currency.Some? && text(a.rawTextLines) == text(b.rawTextLines)
    && (a.direction == b.direction || a.direction == UnknownDirection || b.direction == UnknownDirection)
  }

  lemma RepeatsMeans(text: Text, a: Row, b: Row)
    ensures Repeats(text, a, b) <==> SameTwin(text, a, b) && CompatibleDirections(a, b)
  {
  }

  /** The same entry in screenshot m (`l`) and in screenshot m + 1 (`r`). */
  predicate Shared(text: Text, rows: seq<Row>, l: nat, r: nat) {
    && l < |rows| && r < |rows| && Repeats(text, rows[l], rows[r])
    && rows[r].imageIndex == rows[l].imageIndex + 1
  }

  /** Above every divider of screenshot m and below the last one of screenshot m + 1: m + 1 is above. */
  predicate NextIsAbove(text: Text, rows: seq<Row>, l: nat, r: nat) {
    Shared(text, rows, l, r) && LeadingAt(rows, l) && TrailingAt(rows, r)
  }

  /** The other way round: m + 1 is below. */
  predicate NextIsBelow(text: Text, rows: seq<Row>, l: nat, r: nat) {
    Shared(text, rows, l, r) && TrailingAt(rows, l) && LeadingAt(rows, r)
  }

  ghost function PairsAbove(text: Text, rows: seq<Row>): set<(nat, nat)> {
    set l: nat, r: nat | l < |rows| && r < |rows| && NextIsAbove(text, rows, l, r) :: (l, r)
  }

  ghost function PairsBelow(text: Text, rows: seq<Row>): set<(nat, nat)> {
    set l: nat, r: nat | l < |rows| && r < |rows| && NextIsBelow(text, rows, l, r) :: (l, r)
  }

  // ---- counting pairs -----------------------------------------------------------------------------

  /** The pairs of two lists that satisfy a condition. */
  ghost function Pairs(ls: seq<nat>, rs: seq<nat>, p: (nat, nat) -> bool): set<(nat, nat)> {
    set l, r | l in ls && r in rs && p(l, r) :: (l, r)
  }

  ghost function Net(ls: seq<nat>, rs: seq<nat>, up: (nat, nat) -> bool, down: (nat, nat) -> bool): int {
    |Pairs(ls, rs, up)| - |Pairs(ls, rs, down)|
  }

  lemma RightAdded(l: nat, rs: seq<nat>, x: nat, p: (nat, nat) -> bool)
    requires x !in rs
    ensures |Pairs([l], rs + [x], p)| == |Pairs([l], rs, p)| + if p(l, x) then 1 else 0
  {
    var before, after := Pairs([l], rs, p), Pairs([l], rs + [x], p);
    assert (l, x) !in before;
    assert after == before + if p(l, x) then {(l, x)} else {};
  }

  lemma LeftAdded(ls: seq<nat>, x: nat, rs: seq<nat>, p: (nat, nat) -> bool)
    requires x !in ls
    ensures |Pairs(ls + [x], rs, p)| == |Pairs(ls, rs, p)| + |Pairs([x], rs, p)|
  {
    var before, more, after := Pairs(ls, rs, p), Pairs([x], rs, p), Pairs(ls + [x], rs, p);
    assert after == before + more;
    assert before !! more;
  }

  lemma LastApart(s: seq<nat>)
    requires EachOnce(s) && s != []
    ensures EachOnce(s[..|s| - 1]) && s[|s| - 1] !in s[..|s| - 1] && s == s[..|s| - 1] + [s[|s| - 1]]
  {
  }

  lemma {:induction false} CountRights(
    l: nat, rs: seq<nat>, f: nat -> int, up: (nat, nat) -> bool, down: (nat, nat) -> bool)
    requires EachOnce(rs)
    requires forall r :: r in rs ==> f(r) == (if up(l, r) then 1 else 0) - (if down(l, r) then 1 else 0)
    ensures Sum(rs, f) == Net([l], rs, up, down)
  {
    if rs == [] {
      assert Pairs([l], rs, up) == {} && Pairs([l], rs, down) == {};
    } else {
      var init, x := rs[..|rs| - 1], rs[|rs| - 1];
      LastApart(rs);
      CountRights(l, init, f, up, down);
      hide Pairs;
      SumOneMore(init, x, f);
      RightAdded(l, init, x, up);
      RightAdded(l, init, x, down);
    }
  }

  lemma {:induction false} CountLefts(
    ls: seq<nat>, rs: seq<nat>, f: nat -> int, up: (nat, nat) -> bool, down: (nat, nat) -> bool)
    requires EachOnce(ls)
    requires forall l :: l in ls ==> f(l) == Net([l], rs, up, down)
    ensures Sum(ls, f) == Net(ls, rs, up, down)
  {
    if ls == [] {
      assert Pairs(ls, rs, up) == {} && Pairs(ls, rs, down) == {};
    } else {
      var init, x := ls[..|ls| - 1], ls[|ls| - 1];
      LastApart(ls);
      CountLefts(init, rs, f, up, down);
      hide Pairs;
      SumOneMore(init, x, f);
      LeftAdded(init, x, rs, up);
      LeftAdded(init, x, rs, down);
    }
  }

  // ---- the groups of repeated entries -------------------------------------------------------------

  ghost function InGroups(groups: seq<TwinGroup>, p: (nat, nat) -> bool): set<(nat, nat)> {
    set g, l, r | 0 <= g < |groups| && l in groups[g].members && r in groups[g].members && p(l, r) :: (l, r)
  }

  ghost predicate Apart(groups: seq<TwinGroup>) {
    forall a, b, i :: 0 <= a < b < |groups| && i in groups[a].members ==> i !in groups[b].members
  }

  lemma GroupAdded(groups: seq<TwinGroup>, group: TwinGroup, p: (nat, nat) -> bool)
    requires Apart(groups + [group])
    ensures Apart(groups)
    ensures |InGroups(groups + [group], p)| == |InGroups(groups, p)| + |Pairs(group.members, group.members, p)|
  {
    var all := groups + [group];
    var before, more, after := InGroups(groups, p), Pairs(group.members, group.members, p), InGroups(all, p);
    forall a, b, i | 0 <= a < b < |groups| && i in groups[a].members ensures i !in groups[b].members {
      assert i in all[a].members && i !in all[b].members;
    }
    forall pair | pair in before ensures pair !in more && pair in after {
      var g :| 0 <= g < |groups| && pair.0 in groups[g].members && pair.1 in groups[g].members;
      assert all[g] == groups[g] && all[|groups|] == group;
    }
    forall pair | pair in more ensures pair in after { assert all[|groups|] == group; }
    forall pair | pair in after ensures pair in before || pair in more {
      var g :| 0 <= g < |all| && pair.0 in all[g].members && pair.1 in all[g].members;
    }
    assert after == before + more && before !! more;
  }

  lemma {:induction false} CountGroups(
    groups: seq<TwinGroup>, f: TwinGroup -> int, up: (nat, nat) -> bool, down: (nat, nat) -> bool)
    requires Apart(groups)
    requires forall g :: g in groups ==> f(g) == Net(g.members, g.members, up, down)
    ensures Sum(groups, f) == |InGroups(groups, up)| - |InGroups(groups, down)|
  {
    if groups == [] {
      assert InGroups(groups, up) == {} && InGroups(groups, down) == {};
    } else {
      var init, g := groups[..|groups| - 1], groups[|groups| - 1];
      LastSplit(groups);
      GroupAdded(init, g, up);
      GroupAdded(init, g, down);
      hide InGroups, Pairs, Apart;
      CountGroups(init, f, up, down);
      SumOneMore(init, g, f);
    }
  }

  ghost predicate MembersRise(groups: seq<TwinGroup>, n: nat) {
    forall g :: 0 <= g < |groups| ==> Rising(groups[g].members) && forall i :: i in groups[g].members ==> i < n
  }

  predicate Rising(s: seq<nat>) { forall a, b :: 0 <= a < b < |s| ==> s[a] < s[b] }

  lemma RisesFurther(groups: seq<TwinGroup>, n: nat, at: nat, key: Key)
    requires MembersRise(groups, n) && at <= |groups|
    ensures at < |groups| ==> MembersRise(groups[at := TwinGroup(key, groups[at].members + [n])], n + 1)
    ensures at == |groups| ==> MembersRise(groups + [TwinGroup(key, [n])], n + 1)
  {
    if at < |groups| {
      var members := groups[at].members + [n];
      assert Rising(groups[at].members);
      forall a, b | 0 <= a < b < |members| ensures members[a] < members[b] {
        assert members[a] in groups[at].members;
      }
      assert Rising(members);
      hide Rising;
    }
  }

  /** The members of every group are listed in the order of the rows. */
  lemma {:induction false} TwinMembersRise(text: Text, rows: seq<Row>, n: nat)
    requires n <= |rows|
    ensures MembersRise(TwinGroups(text, rows, n), n)
  {
    if n > 0 {
      TwinMembersRise(text, rows, n - 1);
      if IsTwinCandidate(rows[n - 1]) {
        var before, key := TwinGroups(text, rows, n - 1), TwinKey(text, rows[n - 1]);
        TwinGroupsMean(text, rows, n - 1);
        GroupKeysDiffer(text, rows, n - 1, before);
        var at := AddTwinAt(before, key, n - 1);
        hide MembersRise, IsTwinCandidate, TwinKey, AddTwin, GroupsMean;
        RisesFurther(before, n - 1, at, if at < |before| then before[at].key else key);
      }
    }
  }

  /** The groups are the classes of repeated entries, each row in one of them. */
  lemma TwinsGrouped(text: Text, rows: seq<Row>)
    ensures var groups := TwinGroups(text, rows, |rows|);
      && Apart(groups)
      && (forall g :: 0 <= g < |groups| ==>
        Rising(groups[g].members) && forall i :: i in groups[g].members ==> i < |rows| && IsTwinCandidate(rows[i]))
      && (forall g, i: nat, j: nat :: 0 <= g < |groups| && i in groups[g].members ==>
        (j in groups[g].members <==> j < |rows| && SameTwin(text, rows[i], rows[j])))
      && (forall i: nat :: i < |rows| && IsTwinCandidate(rows[i]) ==>
        exists g :: 0 <= g < |groups| && i in groups[g].members)
  {
    var groups := TwinGroups(text, rows, |rows|);
    TwinGroupsMean(text, rows, |rows|);
    TwinMembersRise(text, rows, |rows|);
    hide TwinGroups, IsTwinCandidate, TwinKey;
    forall g | 0 <= g < |groups| ensures MembersMean(text, rows, |rows|, groups[g]) {}
    forall a, b, i | 0 <= a < b < |groups| && i in groups[a].members ensures i !in groups[b].members {
      assert MembersMean(text, rows, |rows|, groups[a]) && MembersMean(text, rows, |rows|, groups[b]);
    }
    forall i: nat | i < |rows| && IsTwinCandidate(rows[i])
      ensures exists g :: 0 <= g < |groups| && i in groups[g].members
    {
      var g :| 0 <= g < |groups| && groups[g].key == TwinKey(text, rows[i]);
      assert MembersMean(text, rows, |rows|, groups[g]);
    }
    forall g, i: nat, j: nat | 0 <= g < |groups| && i in groups[g].members
      ensures j in groups[g].members <==> j < |rows| && SameTwin(text, rows[i], rows[j])
    {
      assert MembersMean(text, rows, |rows|, groups[g]);
    }
  }

  // ---- the direction ------------------------------------------------------------------------------

  lemma NotBoth(rows: seq<Row>, i: nat)
    requires i < |rows|
    ensures !(LeadingAt(rows, i) && TrailingAt(rows, i))
  {
    if LeadingAt(rows, i) && TrailingAt(rows, i) {
      var k :| 0 <= k < |rows| && IsLastDivider(rows, rows[i].imageIndex, k) && ScreenBefore(rows, k, i);
      ScreenBeforeStrict(rows, i, k);
      assert false;
    }
  }

  lemma VoteMeans(text: Text, rows: seq<Row>, l: nat, r: nat)
    requires l < |rows| && r < |rows| && SameTwin(text, rows[l], rows[r])
    ensures PairVote(rows, rows, l)(r) ==
      (if NextIsAbove(text, rows, l, r) then 1 else 0) - (if NextIsBelow(text, rows, l, r) then 1 else 0)
  {
    LeadingMeans(rows, rows[l].imageIndex, l);
    TrailingMeans(rows, rows[l].imageIndex, l);
    LeadingMeans(rows, rows[r].imageIndex, r);
    TrailingMeans(rows, rows[r].imageIndex, r);
    NotBoth(rows, l);
    NotBoth(rows, r);
    RepeatsMeans(text, rows[l], rows[r]);
    hide Repeats, ScreenAt, LeadingAt, TrailingAt, SameTwin;
  }

  ghost function IsAbove(text: Text, rows: seq<Row>): (nat, nat) -> bool {
    (l: nat, r: nat) => NextIsAbove(text, rows, l, r)
  }

  ghost function IsBelow(text: Text, rows: seq<Row>): (nat, nat) -> bool {
    (l: nat, r: nat) => NextIsBelow(text, rows, l, r)
  }

  ghost predicate AllTwins(text: Text, rows: seq<Row>, members: seq<nat>) {
    forall l, r :: l in members && r in members ==> l < |rows| && r < |rows| && SameTwin(text, rows[l], rows[r])
  }

  lemma VotesAre(rows: seq<Row>, g: TwinGroup, l: nat)
    ensures GroupVotes(rows, rows)(g) == Sum(g.members, VotesOf(rows, rows, g.members))
    ensures VotesOf(rows, rows, g.members)(l) == Sum(g.members, PairVote(rows, rows, l))
  {
    hide Sum, PairVote;
  }

  lemma VotesOfMean(text: Text, rows: seq<Row>, g: TwinGroup, l: nat)
    requires EachOnce(g.members) && AllTwins(text, rows, g.members) && l in g.members
    ensures VotesOf(rows, rows, g.members)(l) == Net([l], g.members, IsAbove(text, rows), IsBelow(text, rows))
  {
    var up, down := IsAbove(text, rows), IsBelow(text, rows);
    VotesAre(rows, g, l);
    hide PairVote, VotesOf, Net, Sum, SameTwin, NextIsAbove, NextIsBelow;
    forall r | r in g.members
      ensures PairVote(rows, rows, l)(r) == (if up(l, r) then 1 else 0) - (if down(l, r) then 1 else 0)
    {
      VoteMeans(text, rows, l, r);
    }
    CountRights(l, g.members, PairVote(rows, rows, l), up, down);
  }

  lemma GroupVotesMean(text: Text, rows: seq<Row>, g: TwinGroup)
    requires EachOnce(g.members) && AllTwins(text, rows, g.members)
    ensures GroupVotes(rows, rows)(g) == Net(g.members, g.members, IsAbove(text, rows), IsBelow(text, rows))
  {
    hide *;
    forall l | l in g.members
      ensures VotesOf(rows, rows, g.members)(l) == Net([l], g.members, IsAbove(text, rows), IsBelow(text, rows))
    {
      VotesOfMean(text, rows, g, l);
    }
    VotesAre(rows, g, 0);
    CountLefts(g.members, g.members, VotesOf(rows, rows, g.members), IsAbove(text, rows), IsBelow(text, rows));
  }

  lemma AllPairs(text: Text, rows: seq<Row>)
    ensures InGroups(TwinGroups(text, rows, |rows|), IsAbove(text, rows)) == PairsAbove(text, rows)
    ensures InGroups(TwinGroups(text, rows, |rows|), IsBelow(text, rows)) == PairsBelow(text, rows)
  {
    var groups := TwinGroups(text, rows, |rows|);
    TwinsGrouped(text, rows);
    hide TwinGroups, LeadingAt, TrailingAt, TwinKey, Repeats;
    forall l: nat, r: nat | l < |rows| && r < |rows| && Shared(text, rows, l, r)
      ensures exists g :: 0 <= g < |groups| && l in groups[g].members && r in groups[g].members
    {
      RepeatsMeans(text, rows[l], rows[r]);
      var g :| 0 <= g < |groups| && l in groups[g].members;
    }
  }

  /**
   * The next screenshot is above exactly when the entries shared from a leading block into the trailing
   * block of the next screenshot outnumber those shared from a trailing block into its leading block.
   */
  lemma DirectionMeans(text: Text, rows: seq<Row>)
    ensures AboveOffset(text, rows, rows) ==
      if |PairsAbove(text, rows)| > |PairsBelow(text, rows)| then Some(1)
      else if |PairsAbove(text, rows)| < |PairsBelow(text, rows)| then Some(-1)
      else None
  {
    AllPairs(text, rows);
    GroupsVote(text, rows);
    TwinsApart(text, rows);
    hide TwinGroups, PairsAbove, PairsBelow, InGroups, GroupVotes, Net, Sum, IsAbove, IsBelow, Apart;
    CountGroups(TwinGroups(text, rows, |rows|), GroupVotes(rows, rows), IsAbove(text, rows), IsBelow(text, rows));
  }

  lemma TwinsApart(text: Text, rows: seq<Row>)
    ensures Apart(TwinGroups(text, rows, |rows|))
  {
    hide Apart;
    TwinsGrouped(text, rows);
  }

  lemma GroupsVote(text: Text, rows: seq<Row>)
    ensures forall g :: g in TwinGroups(text, rows, |rows|) ==>
      GroupVotes(rows, rows)(g) == Net(g.members, g.members, IsAbove(text, rows), IsBelow(text, rows))
  {
    var groups := TwinGroups(text, rows, |rows|);
    TwinsGrouped(text, rows);
    hide TwinGroups, GroupVotes, Net, IsAbove, IsBelow, SameTwin, IsTwinCandidate, Apart;
    forall g | g in groups
      ensures GroupVotes(rows, rows)(g) == Net(g.members, g.members, IsAbove(text, rows), IsBelow(text, rows))
    {
      var a :| 0 <= a < |groups| && groups[a] == g;
      assert Rising(groups[a].members);
      GroupVotesMean(text, rows, g);
    }
  }
}
