/** Filling in dates that screenshots cut off, in four passes over the rows of an import. */
module InferDates {
  import opened Sequences
  import opened ImportRows
  import opened ImportChunks
  import opened ImportScreens

  function Dated(r: Row, date: string): Row { r.(date := Some(date), dateInferred := true) }

  function LinkTo(r: Row, target: string): Row { r.(relation := Some(Relation(DuplicateOf, target))) }

  /** A non-empty list of rows that all carry one date. */
  predicate OneDate(rows: seq<Row>, list: seq<nat>) {
    list != [] && list[0] < |rows| && forall i :: i in list ==> i < |rows| && rows[i].date == rows[list[0]].date
  }

  predicate InRange(rows: seq<Row>, list: seq<nat>) { forall i :: i in list ==> i < |rows| }

  // ---- pass 1: an entry without a date repeated in the neighbouring screenshot --------------------------

  function IsDatedNeighbour(rows: seq<Row>, i: nat): nat -> bool {
    (j: nat) =>
      i < |rows| && j < |rows| && rows[j].date.Some? &&
      Abs(rows[j].imageIndex - rows[i].imageIndex) == 1 && CompatibleDirections(rows[i], rows[j])
  }

  /** The later of two captures is the duplicate of the earlier one, unless it already has a relation. */
  function LinkLater(rows: seq<Row>, i: nat, j: nat): (r: seq<Row>)
    requires i < |rows| && j < |rows|
    ensures |r| == |rows|
  {
    var (earlier, later) := if Before(rows[j], rows[i]) then (j, i) else (i, j);
    if rows[later].relation.None? then rows[later := LinkTo(rows[later], rows[earlier].rowId)] else rows
  }

  function FillFromTwin(rows: seq<Row>, members: seq<nat>, i: nat): (r: seq<Row>)
    requires i < |rows|
    ensures |r| == |rows|
  {
    var dated := Filter(members, IsDatedNeighbour(rows, i));
    if rows[i].date.Some? || !OneDate(rows, dated) then rows
    else LinkLater(rows[i := Dated(rows[i], rows[dated[0]].date.value)], i, dated[0])
  }

  function FillMembers(rows: seq<Row>, members: seq<nat>, n: nat): (r: seq<Row>)
    requires n <= |members| && InRange(rows, members)
    ensures |r| == |rows|
  {
    if n == 0 then rows else
      assert members[n - 1] in members;
      FillFromTwin(FillMembers(rows, members, n - 1), members, members[n - 1])
  }

  predicate GroupsInRange(rows: seq<Row>, groups: seq<TwinGroup>) {
    forall g :: 0 <= g < |groups| ==> InRange(rows, groups[g].members)
  }

  function FillGroups(rows: seq<Row>, groups: seq<TwinGroup>, n: nat): (r: seq<Row>)
    requires n <= |groups| && GroupsInRange(rows, groups)
    ensures |r| == |rows|
  {
    if n == 0 then rows
    else FillMembers(FillGroups(rows, groups, n - 1), groups[n - 1].members, |groups[n - 1].members|)
  }

  lemma GroupsAreInRange(text: Text, rows: seq<Row>)
    ensures GroupsInRange(rows, TwinGroups(text, rows, |rows|))
  {
    TwinGroupsMean(text, rows, |rows|);
    hide TwinGroups, IsTwinCandidate;
    var groups := TwinGroups(text, rows, |rows|);
    forall g | 0 <= g < |groups| ensures InRange(rows, groups[g].members) {
      assert MembersMean(text, rows, |rows|, groups[g]);
    }
  }

  function FromTwins(text: Text, rows: seq<Row>): (r: seq<Row>)
    ensures |r| == |rows|
  {
    GroupsAreInRange(text, rows);
    FillGroups(rows, TwinGroups(text, rows, |rows|), |TwinGroups(text, rows, |rows|)|)
  }

  // ---- pass 2: a leading block with a single known date -------------------------------------------------

  function IsDatedEvent(rows: seq<Row>): nat -> bool {
    (i: nat) => i < |rows| && rows[i].rowRole != UiMetadata && rows[i].date.Some?
  }

  function KnownDate(rows: seq<Row>, image: nat): (date: Option<string>)
    ensures date.Some? ==> exists i :: 0 <= i < |rows| && rows[i].date == date
  {
    var dated := Filter(ScreenAt(rows, image).leading, IsDatedEvent(rows));
    if OneDate(rows, dated) then (assert dated[0] in dated; rows[dated[0]].date) else None
  }

  predicate LeadingEvent(rows: seq<Row>, i: nat) {
    i < |rows| && rows[i].rowRole != UiMetadata && i in ScreenAt(rows, rows[i].imageIndex).leading
  }

  function FilledRow(rows: seq<Row>, i: nat): Row
    requires i < |rows|
  {
    if LeadingEvent(rows, i) && rows[i].date.None? && KnownDate(rows, rows[i].imageIndex).Some?
    then Dated(rows[i], KnownDate(rows, rows[i].imageIndex).value)
    else rows[i]
  }

  function FromLeading(rows: seq<Row>): (r: seq<Row>)
    ensures |r| == |rows|
  {
    seq(|rows|, i requires 0 <= i < |rows| => FilledRow(rows, i))
  }

  // ---- pass 3: the divider of the screenshot above ------------------------------------------------------

  function PairVote(base: seq<Row>, rows: seq<Row>, left: nat): nat -> int {
    (right: nat) =>
      if left >= |rows| || right >= |rows| || rows[right].imageIndex != rows[left].imageIndex + 1 ||
        !CompatibleDirections(rows[left], rows[right]) then 0
      else
        var lower, upper := ScreenAt(base, rows[left].imageIndex), ScreenAt(base, rows[right].imageIndex);
        if left in lower.leading && right in upper.trailing then 1
        else if left in lower.trailing && right in upper.leading then -1
        else 0
  }

  function VotesOf(base: seq<Row>, rows: seq<Row>, members: seq<nat>): nat -> int {
    (left: nat) => Sum(members, PairVote(base, rows, left))
  }

  function GroupVotes(base: seq<Row>, rows: seq<Row>): TwinGroup -> int {
    (g: TwinGroup) => Sum(g.members, VotesOf(base, rows, g.members))
  }

  /** Which neighbour shows what stands above: a majority of the repeated entries decides. */
  function AboveOffset(text: Text, base: seq<Row>, rows: seq<Row>): Option<int> {
    var votes := Sum(TwinGroups(text, rows, |rows|), GroupVotes(base, rows));
    if votes > 0 then Some(1) else if votes < 0 then Some(-1) else None
  }

  ghost function UnderAboveRow(base: seq<Row>, rows: seq<Row>, above: int, i: nat): Row
    requires (above == 1 || above == -1) && i < |rows|
  {
    if !(i < |base| && LeadingEvent(base, i)) then rows[i]
    else
      var right, wrong := Towards(base, base[i].imageIndex, above), Towards(base, base[i].imageIndex, -above);
      if right.Some? && (rows[i].date.None? || (wrong.Some? && wrong != right && rows[i].date == wrong))
      then Dated(rows[i], right.value)
      else rows[i]
  }

  ghost function FromAbove(text: Text, base: seq<Row>, rows: seq<Row>): (r: seq<Row>)
    ensures |r| == |rows|
  {
    var above := AboveOffset(text, base, rows);
    if above.None? then rows else seq(|rows|, i requires 0 <= i < |rows| => UnderAboveRow(base, rows, above.value, i))
  }

  // ---- pass 4: an entry captured twice, anchored by the capture under its own divider -------------------

  function UnderOwnDivider(base: seq<Row>, rows: seq<Row>): nat -> bool {
    (i: nat) => i < |rows| && !rows[i].dateInferred && i !in ScreenAt(base, rows[i].imageIndex).leading
  }

  function IsMatch(rows: seq<Row>, i: nat): nat -> bool {
    (j: nat) => i < |rows| && j < |rows| && rows[j].imageIndex != rows[i].imageIndex &&
      CompatibleDirections(rows[i], rows[j])
  }

  function Anchored(base: seq<Row>, rows: seq<Row>, anchors: seq<nat>, i: nat): (r: seq<Row>)
    requires i < |rows|
    ensures |r| == |rows|
  {
    var relation := rows[i].relation;
    var matches := Filter(anchors, IsMatch(rows, i));
    if UnderOwnDivider(base, rows)(i) || (relation.Some? && relation.value.kind != FxFor) || !OneDate(rows, matches)
      then rows
    else
      var a := matches[0];
      var dated := if rows[a].date.Some? && rows[i].date != rows[a].date
        then rows[i := Dated(rows[i], rows[a].date.value)] else rows;
      if rows[a].relation == Some(Relation(DuplicateOf, rows[i].rowId)) then dated
      else if relation.Some? then
        // The capture with the exchange line is kept; the anchor steps back.
        if dated[a].relation.None? then dated[a := LinkTo(dated[a], rows[i].rowId)] else dated
      else dated[i := LinkTo(dated[i], rows[a].rowId)]
  }

  function AnchorMembers(base: seq<Row>, rows: seq<Row>, anchors: seq<nat>, members: seq<nat>, n: nat): (r: seq<Row>)
    requires n <= |members| && InRange(rows, members)
    ensures |r| == |rows|
  {
    if n == 0 then rows else
      assert members[n - 1] in members;
      Anchored(base, AnchorMembers(base, rows, anchors, members, n - 1), anchors, members[n - 1])
  }

  function AnchorGroup(base: seq<Row>, rows: seq<Row>, members: seq<nat>): (r: seq<Row>)
    requires InRange(rows, members)
    ensures |r| == |rows|
  {
    if |members| < 2 then rows
    else AnchorMembers(base, rows, Filter(members, UnderOwnDivider(base, rows)), members, |members|)
  }

  function AnchorGroups(base: seq<Row>, rows: seq<Row>, groups: seq<TwinGroup>, n: nat): (r: seq<Row>)
    requires n <= |groups| && GroupsInRange(rows, groups)
    ensures |r| == |rows|
  {
    if n == 0 then rows else AnchorGroup(base, AnchorGroups(base, rows, groups, n - 1), groups[n - 1].members)
  }

  function FromAnchors(text: Text, rows: seq<Row>): (r: seq<Row>)
    ensures |r| == |rows|
  {
    GroupsAreInRange(text, rows);
    AnchorGroups(rows, rows, TwinGroups(text, rows, |rows|), |TwinGroups(text, rows, |rows|)|)
  }

  /** The four passes: screenshots are laid out once after the first, and again before the last. */
  ghost function Inferred(text: Text, rows: seq<Row>): (r: seq<Row>)
    ensures |r| == |rows|
  {
    var base := FromTwins(text, rows);
    FromAnchors(text, FromAbove(text, base, FromLeading(base)))
  }

  // ---- nothing is invented ------------------------------------------------------------------------------

  /** Only the date, its flag and the relation of a row may differ. */
  predicate SameFacts(a: Row, b: Row) {
    a.(date := b.date, dateInferred := b.dateInferred, relation := b.relation) == b
  }

  predicate DateInBatch(rows: seq<Row>, date: Option<string>) { exists j :: 0 <= j < |rows| && rows[j].date == date }

  /** A date read, not inferred, and standing below a divider of its own screenshot. */
  predicate ReadBelowDivider(rows: seq<Row>, i: nat)
    requires i < |rows|
  {
    rows[i].date.Some? && !rows[i].dateInferred && !LeadingAt(rows, i)
  }

  /** A duplicate of the same visible entry in another screenshot. */
  predicate LinksTwin(text: Text, rows: seq<Row>, i: nat, relation: Relation)
    requires i < |rows|
  {
    relation.kind == DuplicateOf &&
    exists j :: 0 <= j < |rows| && rows[j].rowId == relation.rowId && SameTwin(text, rows[i], rows[j]) &&
      rows[j].imageIndex != rows[i].imageIndex && CompatibleDirections(rows[i], rows[j])
  }

  predicate DateSourced(rows: seq<Row>, i: nat, now: Row)
    requires i < |rows|
  {
    (now.date == rows[i].date && now.dateInferred == rows[i].dateInferred) ||
    (now.dateInferred && now.date.Some? && DateInBatch(rows, now.date) && rows[i].rowRole != UiMetadata &&
      !ReadBelowDivider(rows, i))
  }

  predicate RelationSourced(text: Text, rows: seq<Row>, i: nat, now: Row)
    requires i < |rows|
  {
    now.relation == rows[i].relation ||
    (rows[i].relation.None? && now.relation.Some? && LinksTwin(text, rows, i, now.relation.value))
  }

  /** Every change made to `rows` has its source in `rows`. */
  ghost predicate Sourced(text: Text, rows: seq<Row>, now: seq<Row>) {
    |now| == |rows| && forall i :: 0 <= i < |rows| ==> RowSourced(text, rows, i, now[i])
  }

  predicate RowSourced(text: Text, rows: seq<Row>, i: nat, now: Row)
    requires i < |rows|
  {
    SameFacts(rows[i], now) && DateSourced(rows, i, now) && RelationSourced(text, rows, i, now)
  }

  lemma DateStep(text: Text, rows: seq<Row>, now: seq<Row>, i: nat, date: string)
    requires Sourced(text, rows, now) && i < |rows| && DateInBatch(rows, Some(date))
    requires rows[i].rowRole != UiMetadata && !ReadBelowDivider(rows, i)
    ensures Sourced(text, rows, now[i := Dated(now[i], date)])
  {
    hide DateInBatch, ReadBelowDivider, LinksTwin;
    assert RowSourced(text, rows, i, now[i]);
    assert RowSourced(text, rows, i, Dated(now[i], date));
    hide RowSourced;
  }

  lemma LinkStep(text: Text, rows: seq<Row>, now: seq<Row>, i: nat, target: string)
    requires Sourced(text, rows, now) && i < |rows| && now[i].relation.None? &&
      LinksTwin(text, rows, i, Relation(DuplicateOf, target))
    ensures Sourced(text, rows, now[i := LinkTo(now[i], target)])
  {
    hide DateInBatch, ReadBelowDivider, LinksTwin;
    assert RowSourced(text, rows, i, now[i]);
    assert RowSourced(text, rows, i, LinkTo(now[i], target));
    hide RowSourced;
  }

  /** What stays readable of a row: its facts, and that any date it has now is one of the batch. */
  lemma RowFacts(text: Text, rows: seq<Row>, now: seq<Row>, i: nat)
    requires Sourced(text, rows, now) && i < |rows|
    ensures |now| == |rows| && SameFacts(rows[i], now[i])
    ensures now[i].date.None? ==> rows[i].date.None?
    ensures now[i].relation.None? ==> rows[i].relation.None?
    ensures now[i].date.Some? ==> DateInBatch(rows, now[i].date)
    ensures now[i].dateInferred ==> !ReadBelowDivider(rows, i)
    ensures IsDivider(now[i]) <==> IsDivider(rows[i])
  {
    assert RowSourced(text, rows, i, now[i]);
    hide LinksTwin, LeadingAt;
  }

  lemma FactsOfRow(a: Row, b: Row)
    requires SameFacts(a, b)
    ensures a.rowId == b.rowId && a.imageIndex == b.imageIndex && a.visualOrder == b.visualOrder &&
      a.direction == b.direction
    ensures a.rowRole == b.rowRole && (IsTwinCandidate(a) <==> IsTwinCandidate(b))
    ensures forall text: Text :: IsTwinCandidate(a) ==> TwinKey(text, a) == TwinKey(text, b)
  {
  }

  lemma LeadingStays(text: Text, rows: seq<Row>, now: seq<Row>, i: nat)
    requires Sourced(text, rows, now) && i < |rows|
    ensures |now| == |rows| && (LeadingAt(now, i) <==> LeadingAt(rows, i))
  {
    RowFacts(text, rows, now, i);
    FactsOfRow(rows[i], now[i]);
    forall j | 0 <= j < |rows|
      ensures IsDivider(now[j]) == IsDivider(rows[j]) && now[j].imageIndex == rows[j].imageIndex &&
        now[j].visualOrder == rows[j].visualOrder
    {
      RowFacts(text, rows, now, j);
      FactsOfRow(rows[j], now[j]);
    }
    hide IsDivider, Sourced, SameFacts;
  }

  ghost predicate Twins(text: Text, rows: seq<Row>, members: seq<nat>) {
    InRange(rows, members) && forall i, j :: i in members && j in members ==> SameTwin(text, rows[i], rows[j])
  }

  lemma GroupsAreTwins(text: Text, rows: seq<Row>, g: nat)
    requires g < |TwinGroups(text, rows, |rows|)|
    ensures Twins(text, rows, TwinGroups(text, rows, |rows|)[g].members)
  {
    TwinGroupsMean(text, rows, |rows|);
    hide TwinGroups, IsTwinCandidate;
    assert MembersMean(text, rows, |rows|, TwinGroups(text, rows, |rows|)[g]);
  }

  lemma TwinsStay(text: Text, rows: seq<Row>, now: seq<Row>, members: seq<nat>)
    requires Sourced(text, rows, now) && Twins(text, now, members)
    ensures Twins(text, rows, members)
  {
    forall i | i in members ensures i < |rows| && IsTwinCandidate(rows[i]) &&
      TwinKey(text, rows[i]) == TwinKey(text, now[i]) {
      RowFacts(text, rows, now, i);
      FactsOfRow(rows[i], now[i]);
    }
    hide Sourced, IsTwinCandidate, TwinKey;
    forall i, j | i in members && j in members ensures SameTwin(text, rows[i], rows[j]) {
      assert SameTwin(text, now[i], now[j]);
    }
  }

  lemma TwinLink(text: Text, rows: seq<Row>, now: seq<Row>, members: seq<nat>, later: nat, earlier: nat)
    requires Sourced(text, rows, now) && Twins(text, rows, members) && later in members && earlier in members
    requires now[later].imageIndex != now[earlier].imageIndex && CompatibleDirections(now[later], now[earlier])
    requires now[later].relation.None?
    ensures Sourced(text, rows, now[later := LinkTo(now[later], now[earlier].rowId)])
  {
    RowFacts(text, rows, now, later);
    RowFacts(text, rows, now, earlier);
    FactsOfRow(rows[later], now[later]);
    FactsOfRow(rows[earlier], now[earlier]);
    hide Sourced, SameFacts, SameTwin;
    assert SameTwin(text, rows[later], rows[earlier]);
    assert LinksTwin(text, rows, later, Relation(DuplicateOf, now[earlier].rowId));
    LinkStep(text, rows, now, later, now[earlier].rowId);
  }

  lemma TwinIsEvent(text: Text, rows: seq<Row>, members: seq<nat>, i: nat)
    requires Twins(text, rows, members) && i in members
    ensures rows[i].rowRole == FinancialEvent
  {
    assert SameTwin(text, rows[i], rows[i]);
  }

  lemma LaterLinkSourced(text: Text, rows: seq<Row>, now: seq<Row>, members: seq<nat>, i: nat, j: nat)
    requires Sourced(text, rows, now) && Twins(text, rows, members) && i in members && j in members && i < |now| &&
      j < |now|
    requires now[i].imageIndex != now[j].imageIndex && CompatibleDirections(now[i], now[j])
    ensures Sourced(text, rows, LinkLater(now, i, j))
  {
    hide Sourced, Twins, Before;
    var (earlier, later) := if Before(now[j], now[i]) then (j, i) else (i, j);
    if now[later].relation.None? { TwinLink(text, rows, now, members, later, earlier); }
  }

  lemma FillFromTwinSourced(text: Text, rows: seq<Row>, now: seq<Row>, members: seq<nat>, i: nat)
    requires Sourced(text, rows, now) && Twins(text, rows, members) && i in members && i < |now|
    ensures Sourced(text, rows, FillFromTwin(now, members, i))
  {
    RowFacts(text, rows, now, i);
    TwinIsEvent(text, rows, members, i);
    var dated := Filter(members, IsDatedNeighbour(now, i));
    if now[i].date.None? && OneDate(now, dated) {
      var j := dated[0];
      FilterMember(members, IsDatedNeighbour(now, i), j);
      RowFacts(text, rows, now, j);
      var filled := now[i := Dated(now[i], now[j].date.value)];
      assert FillFromTwin(now, members, i) == LinkLater(filled, i, j);
      assert filled[i].imageIndex == now[i].imageIndex && filled[i].direction == now[i].direction;
      hide *;
      DateStep(text, rows, now, i, now[j].date.value);
      LaterLinkSourced(text, rows, filled, members, i, j);
    }
  }

  lemma {:induction false} FillMembersSourced(text: Text, rows: seq<Row>, now: seq<Row>, members: seq<nat>, n: nat)
    requires n <= |members| && Sourced(text, rows, now) && Twins(text, rows, members) && InRange(now, members)
    ensures Sourced(text, rows, FillMembers(now, members, n))
  {
    hide Sourced, FillFromTwin;
    if n > 0 {
      FillMembersSourced(text, rows, now, members, n - 1);
      assert members[n - 1] in members;
      FillFromTwinSourced(text, rows, FillMembers(now, members, n - 1), members, members[n - 1]);
    }
  }

  lemma {:induction false} FillGroupsSourced(text: Text, rows: seq<Row>, groups: seq<TwinGroup>, n: nat)
    requires n <= |groups| && GroupsInRange(rows, groups) && forall g :: 0 <= g < |groups| ==>
      Twins(text, rows, groups[g].members)
    ensures Sourced(text, rows, FillGroups(rows, groups, n))
  {
    if n > 0 {
      FillGroupsSourced(text, rows, groups, n - 1);
      var now := FillGroups(rows, groups, n - 1);
      assert InRange(rows, groups[n - 1].members) && InRange(now, groups[n - 1].members);
      hide Sourced, FillMembers, Twins;
      FillMembersSourced(text, rows, now, groups[n - 1].members, |groups[n - 1].members|);
    }
  }

  lemma FromTwinsSourced(text: Text, rows: seq<Row>)
    ensures Sourced(text, rows, FromTwins(text, rows))
  {
    var groups := TwinGroups(text, rows, |rows|);
    GroupsAreInRange(text, rows);
    forall g | 0 <= g < |groups| ensures Twins(text, rows, groups[g].members) { GroupsAreTwins(text, rows, g); }
    assert FromTwins(text, rows) == FillGroups(rows, groups, |groups|);
    hide *;
    FillGroupsSourced(text, rows, groups, |groups|);
  }

  lemma RowDated(text: Text, rows: seq<Row>, i: nat, now: Row, date: string)
    requires i < |rows| && RowSourced(text, rows, i, now) && DateInBatch(rows, Some(date))
    requires rows[i].rowRole != UiMetadata && !ReadBelowDivider(rows, i)
    ensures RowSourced(text, rows, i, Dated(now, date))
  {
    hide DateInBatch, ReadBelowDivider, LinksTwin;
  }

  lemma LeadingEventFacts(text: Text, rows: seq<Row>, base: seq<Row>, i: nat)
    requires Sourced(text, rows, base) && LeadingEvent(base, i)
    ensures i < |rows| && rows[i].rowRole != UiMetadata && LeadingAt(rows, i)
  {
    LeadingMeans(base, base[i].imageIndex, i);
    LeadingStays(text, rows, base, i);
    RowFacts(text, rows, base, i);
    FactsOfRow(rows[i], base[i]);
  }

  lemma FilledRowSourced(text: Text, rows: seq<Row>, base: seq<Row>, i: nat)
    requires Sourced(text, rows, base) && i < |base|
    ensures i < |rows| && RowSourced(text, rows, i, FilledRow(base, i))
  {
    assert RowSourced(text, rows, i, base[i]);
    var date := KnownDate(base, base[i].imageIndex);
    if LeadingEvent(base, i) && base[i].date.None? && date.Some? {
      LeadingEventFacts(text, rows, base, i);
      RowFacts(text, rows, base, i);
      var k :| 0 <= k < |base| && base[k].date == date;
      RowFacts(text, rows, base, k);
      assert !ReadBelowDivider(rows, i);
      hide Sourced, RowSourced, KnownDate, LeadingAt, LeadingEvent;
      RowDated(text, rows, i, base[i], date.value);
    }
  }

  lemma FromLeadingSourced(text: Text, rows: seq<Row>, base: seq<Row>)
    requires Sourced(text, rows, base)
    ensures Sourced(text, rows, FromLeading(base))
  {
    forall i | 0 <= i < |base| ensures i < |rows| && RowSourced(text, rows, i, FilledRow(base, i))
    { FilledRowSourced(text, rows, base, i); }
    hide RowSourced, FilledRow;
  }

  lemma TowardsDate(rows: seq<Row>, from: nat, step: int)
    requires (step == 1 || step == -1) && Towards(rows, from, step).Some?
    ensures DateInBatch(rows, Towards(rows, from, step))
  {
    TowardsFinds(rows, from, step);
    var k :| Reaches(rows, from, step, k);
    TowardsMeans(rows, from, step, k);
    LastDividerMeans(rows, Away(from, step, k));
    hide Towards, LastDividerDate, IsLastDivider;
  }

  lemma BatchDatesStay(text: Text, rows: seq<Row>, now: seq<Row>, date: Option<string>)
    requires Sourced(text, rows, now) && DateInBatch(now, date) && date.Some?
    ensures DateInBatch(rows, date)
  {
    var k :| 0 <= k < |now| && now[k].date == date;
    RowFacts(text, rows, now, k);
  }

  lemma UnderAboveSourced(text: Text, rows: seq<Row>, base: seq<Row>, now: seq<Row>, above: int, i: nat)
    requires (above == 1 || above == -1) && Sourced(text, rows, base) && Sourced(text, rows, now) && i < |now|
    ensures i < |rows| && RowSourced(text, rows, i, UnderAboveRow(base, now, above, i))
  {
    assert RowSourced(text, rows, i, now[i]);
    if i < |base| && LeadingEvent(base, i) && Towards(base, base[i].imageIndex, above).Some? {
      var right := Towards(base, base[i].imageIndex, above);
      TowardsDate(base, base[i].imageIndex, above);
      BatchDatesStay(text, rows, base, right);
      LeadingEventFacts(text, rows, base, i);
      assert !ReadBelowDivider(rows, i);
      RowDated(text, rows, i, now[i], right.value);
      hide Sourced, RowSourced, LeadingAt, LeadingEvent;
    }
  }

  lemma FromAboveSourced(text: Text, rows: seq<Row>, base: seq<Row>, now: seq<Row>)
    requires Sourced(text, rows, base) && Sourced(text, rows, now)
    ensures Sourced(text, rows, FromAbove(text, base, now))
  {
    var above := AboveOffset(text, base, now);
    if above.Some? {
      forall i | 0 <= i < |now| ensures i < |rows| &&
        RowSourced(text, rows, i, UnderAboveRow(base, now, above.value, i)) {
        UnderAboveSourced(text, rows, base, now, above.value, i);
      }
    }
    hide RowSourced, UnderAboveRow, AboveOffset;
  }

  lemma NotUnderOwnDivider(text: Text, rows: seq<Row>, base: seq<Row>, now: seq<Row>, i: nat)
    requires Sourced(text, rows, base) && Sourced(text, rows, now) && i < |now| && !UnderOwnDivider(base, now)(i)
    ensures i < |rows| && !ReadBelowDivider(rows, i)
  {
    RowFacts(text, rows, now, i);
    LeadingMeans(base, now[i].imageIndex, i);
    LeadingStays(text, rows, base, i);
  }

  lemma DatedSourced(text: Text, rows: seq<Row>, base: seq<Row>, now: seq<Row>, members: seq<nat>, i: nat, a: nat)
    requires Sourced(text, rows, base) && Sourced(text, rows, now) && Twins(text, rows, members)
    requires i in members && i < |now| && a < |now| && now[a].date.Some? && !UnderOwnDivider(base, now)(i)
    ensures Sourced(text, rows, now[i := Dated(now[i], now[a].date.value)])
  {
    NotUnderOwnDivider(text, rows, base, now, i);
    TwinIsEvent(text, rows, members, i);
    RowFacts(text, rows, now, a);
    hide *;
    DateStep(text, rows, now, i, now[a].date.value);
  }

  lemma AnchorLinkSourced(text: Text, rows: seq<Row>, now: seq<Row>, members: seq<nat>, i: nat, a: nat)
    requires Sourced(text, rows, now) && Twins(text, rows, members) && i in members && a in members && i < |now| &&
      a < |now|
    requires now[a].imageIndex != now[i].imageIndex && CompatibleDirections(now[i], now[a])
    ensures now[a].relation.None? ==> Sourced(text, rows, now[a := LinkTo(now[a], now[i].rowId)])
    ensures now[i].relation.None? ==> Sourced(text, rows, now[i := LinkTo(now[i], now[a].rowId)])
  {
    assert CompatibleDirections(now[a], now[i]);
    hide Sourced, Twins, LinkTo, CompatibleDirections;
    if now[a].relation.None? { TwinLink(text, rows, now, members, a, i); }
    if now[i].relation.None? { TwinLink(text, rows, now, members, i, a); }
  }

  lemma AnchoredSourced(
    text: Text, rows: seq<Row>, base: seq<Row>, now: seq<Row>, anchors: seq<nat>, members: seq<nat>, i: nat)
    requires Sourced(text, rows, base) && Sourced(text, rows, now) && Twins(text, rows, members)
    requires i in members && i < |now| && forall a :: a in anchors ==> a in members
    ensures Sourced(text, rows, Anchored(base, now, anchors, i))
  {
    var matches := Filter(anchors, IsMatch(now, i));
    if !UnderOwnDivider(base, now)(i) && OneDate(now, matches) {
      var a := matches[0];
      FilterMember(anchors, IsMatch(now, i), a);
      if now[a].date.Some? { DatedSourced(text, rows, base, now, members, i, a); }
      var dated := if now[a].date.Some? && now[i].date != now[a].date then now[i := Dated(now[i], now[a].date.value)]
        else now;
      hide Sourced, Twins, Filter, OneDate, UnderOwnDivider;
      AnchorLinkSourced(text, rows, dated, members, i, a);
    }
  }

  lemma {:induction false} AnchorMembersSourced(
    text: Text, rows: seq<Row>, base: seq<Row>, now: seq<Row>, anchors: seq<nat>, members: seq<nat>, n: nat)
    requires Sourced(text, rows, base) && Sourced(text, rows, now) && Twins(text, rows, members) &&
      InRange(now, members)
    requires n <= |members| && forall a :: a in anchors ==> a in members
    ensures Sourced(text, rows, AnchorMembers(base, now, anchors, members, n))
  {
    hide Sourced, Anchored;
    if n > 0 {
      AnchorMembersSourced(text, rows, base, now, anchors, members, n - 1);
      assert members[n - 1] in members;
      AnchoredSourced(text, rows, base, AnchorMembers(base, now, anchors, members, n - 1), anchors, members,
        members[n - 1]);
    }
  }

  lemma AnchorGroupSourced(text: Text, rows: seq<Row>, base: seq<Row>, now: seq<Row>, members: seq<nat>)
    requires Sourced(text, rows, base) && Sourced(text, rows, now) && Twins(text, rows, members) &&
      InRange(now, members)
    ensures Sourced(text, rows, AnchorGroup(base, now, members))
  {
    var anchors := Filter(members, UnderOwnDivider(base, now));
    hide Sourced, AnchorMembers, Twins, UnderOwnDivider;
    AnchorMembersSourced(text, rows, base, now, anchors, members, |members|);
  }

  lemma {:induction false} AnchorGroupsSourced(
    text: Text, rows: seq<Row>, base: seq<Row>, groups: seq<TwinGroup>, n: nat)
    requires n <= |groups| && Sourced(text, rows, base) && GroupsInRange(base, groups)
    requires forall g :: 0 <= g < |groups| ==> Twins(text, rows, groups[g].members)
    ensures Sourced(text, rows, AnchorGroups(base, base, groups, n))
  {
    if n > 0 {
      AnchorGroupsSourced(text, rows, base, groups, n - 1);
      var now := AnchorGroups(base, base, groups, n - 1);
      assert InRange(base, groups[n - 1].members) && InRange(now, groups[n - 1].members);
      hide Sourced, AnchorGroup, Twins;
      AnchorGroupSourced(text, rows, base, now, groups[n - 1].members);
    }
  }

  lemma FromAnchorsSourced(text: Text, rows: seq<Row>, now: seq<Row>)
    requires Sourced(text, rows, now)
    ensures Sourced(text, rows, FromAnchors(text, now))
  {
    var groups := TwinGroups(text, now, |now|);
    GroupsAreInRange(text, now);
    forall g | 0 <= g < |groups| ensures Twins(text, rows, groups[g].members) {
      GroupsAreTwins(text, now, g);
      TwinsStay(text, rows, now, groups[g].members);
    }
    assert FromAnchors(text, now) == AnchorGroups(now, now, groups, |groups|);
    hide *;
    AnchorGroupsSourced(text, rows, now, groups, |groups|);
  }

  /** Inference invents nothing: every changed date is flagged, comes from the batch, and leaves divider rows
      and dates read below a divider alone; every added link names the same entry in another screenshot. */
  lemma {:induction false} InventsNothing(text: Text, rows: seq<Row>)
    ensures Sourced(text, rows, Inferred(text, rows))
  {
    var base := FromTwins(text, rows);
    FromTwinsSourced(text, rows);
    var filled := FromLeading(base);
    FromLeadingSourced(text, rows, base);
    var placed := FromAbove(text, base, filled);
    FromAboveSourced(text, rows, base, filled);
    FromAnchorsSourced(text, rows, placed);
    assert Inferred(text, rows) == FromAnchors(text, placed);
    hide *;
  }

  /** The two readings of that which matter most: a divider never changes, and neither does a date under one. */
  lemma {:induction false} ReadDatesStand(text: Text, rows: seq<Row>, i: nat)
    requires i < |rows| && (rows[i].rowRole == UiMetadata || ReadBelowDivider(rows, i))
    ensures Inferred(text, rows)[i].date == rows[i].date && Inferred(text, rows)[i].dateInferred == rows[i].dateInferred
    ensures rows[i].rowRole == UiMetadata ==> Inferred(text, rows)[i] == rows[i]
  {
    InventsNothing(text, rows);
    assert RowSourced(text, rows, i, Inferred(text, rows)[i]);
    hide Inferred, ReadBelowDivider, Sourced;
  }

  // ---- what is found out --------------------------------------------------------------------------------

  lemma DividersStay(text: Text, rows: seq<Row>, now: seq<Row>, image: nat, k: nat)
    requires Sourced(text, rows, now)
    ensures IsLastDivider(now, image, k) <==> IsLastDivider(rows, image, k)
    ensures IsLastDivider(rows, image, k) ==> now[k].date == rows[k].date
  {
    forall j | 0 <= j < |rows|
      ensures IsDivider(now[j]) == IsDivider(rows[j]) && now[j].imageIndex == rows[j].imageIndex &&
        now[j].visualOrder == rows[j].visualOrder
    {
      RowFacts(text, rows, now, j);
      FactsOfRow(rows[j], now[j]);
    }
    if k < |rows| { assert RowSourced(text, rows, k, now[k]); }
    hide Sourced, SameFacts, RelationSourced, ReadBelowDivider;
  }

  lemma DividerDateStays(text: Text, rows: seq<Row>, now: seq<Row>, image: nat)
    requires Sourced(text, rows, now)
    ensures LastDividerDate(now, image) == LastDividerDate(rows, image)
    ensures Present(now, image) <==> Present(rows, image)
  {
    LastDividerMeans(rows, image);
    LastDividerMeans(now, image);
    forall k | 0 <= k < |rows| ensures IsDivider(now[k]) == IsDivider(rows[k]) &&
      now[k].imageIndex == rows[k].imageIndex {
      RowFacts(text, rows, now, k);
      FactsOfRow(rows[k], now[k]);
    }
    assert |now| == |rows|;
    hide LastDividerDate, IsDivider, Sourced, IsLastDivider;
    if LastDividerDate(rows, image).Some? {
      var k :| 0 <= k < |rows| && IsLastDivider(rows, image, k) && rows[k].date == LastDividerDate(rows, image);
      DividersStay(text, rows, now, image, k);
      OneLastDivider(now, image, k);
    }
  }

  lemma TowardsStep(rows: seq<Row>, from: nat, step: int)
    requires step == 1 || step == -1
    ensures var next := from + step;
      Towards(rows, from, step) == if next < 0 || !Present(rows, next) then None
        else if LastDividerDate(rows, next).Some? then LastDividerDate(rows, next) else Towards(rows, next, step)
    ensures from + step >= 0 && Present(rows, from + step) ==>
      0 <= Ahead(rows, from + step, step) < Ahead(rows, from, step)
  {
    hide LastDividerDate;
    if from + step >= 0 && Present(rows, from + step) {
      var i :| 0 <= i < |rows| && rows[i].imageIndex == from + step;
      assert rows[i] in rows;
    }
  }

  /** How many screenshots can still lie ahead. */
  function Ahead(rows: seq<Row>, from: nat, step: int): nat {
    if step == 1 then Max(0, ImageBound(rows) - from) else from
  }

  lemma {:induction false} TowardsStays(text: Text, rows: seq<Row>, now: seq<Row>, from: nat, step: int)
    requires (step == 1 || step == -1) && Sourced(text, rows, now)
    ensures Towards(now, from, step) == Towards(rows, from, step)
    decreases Ahead(rows, from, step)
  {
    hide *;
    var next := from + step;
    TowardsStep(rows, from, step);
    TowardsStep(now, from, step);
    if next >= 0 {
      DividerDateStays(text, rows, now, next);
      if Present(rows, next) && LastDividerDate(rows, next).None? { TowardsStays(text, rows, now, next, step); }
    }
  }

  lemma {:induction false} TwinGroupsStay(text: Text, rows: seq<Row>, now: seq<Row>, n: nat)
    requires Sourced(text, rows, now) && n <= |rows|
    ensures n <= |now| && TwinGroups(text, now, n) == TwinGroups(text, rows, n)
  {
    if n > 0 {
      TwinGroupsStay(text, rows, now, n - 1);
      RowFacts(text, rows, now, n - 1);
      FactsOfRow(rows[n - 1], now[n - 1]);
      hide Sourced, AddTwin, IsTwinCandidate, TwinKey;
    }
  }

  lemma BlocksStay(text: Text, rows: seq<Row>, base: seq<Row>, image: nat, i: nat)
    requires Sourced(text, rows, base)
    ensures i in ScreenAt(base, image).leading <==> i in ScreenAt(rows, image).leading
    ensures i in ScreenAt(base, image).trailing <==> i in ScreenAt(rows, image).trailing
  {
    LeadingMeans(rows, image, i);
    LeadingMeans(base, image, i);
    TrailingMeans(rows, image, i);
    TrailingMeans(base, image, i);
    if i < |rows| {
      LeadingStays(text, rows, base, i);
      RowFacts(text, rows, base, i);
      FactsOfRow(rows[i], base[i]);
      TrailingStays(text, rows, base, i);
    }
    hide ScreenAt, LeadingAt, TrailingAt;
  }

  lemma TrailingStays(text: Text, rows: seq<Row>, now: seq<Row>, i: nat)
    requires Sourced(text, rows, now) && i < |rows|
    ensures |now| == |rows| && (TrailingAt(now, i) <==> TrailingAt(rows, i))
  {
    forall k | 0 <= k < |rows|
      ensures IsLastDivider(now, rows[i].imageIndex, k) == IsLastDivider(rows, rows[i].imageIndex, k)
      ensures ScreenBefore(now, k, i) == ScreenBefore(rows, k, i)
    {
      DividersStay(text, rows, now, rows[i].imageIndex, k);
      RowFacts(text, rows, now, k);
      FactsOfRow(rows[k], now[k]);
      RowFacts(text, rows, now, i);
      FactsOfRow(rows[i], now[i]);
    }
    RowFacts(text, rows, now, i);
    FactsOfRow(rows[i], now[i]);
    hide IsLastDivider, ScreenBefore, Sourced;
  }

  lemma RowKeepsFacts(text: Text, rows: seq<Row>, now: seq<Row>, i: nat)
    requires Sourced(text, rows, now) && i < |rows|
    ensures i < |now| && now[i].imageIndex == rows[i].imageIndex && now[i].direction == rows[i].direction
  {
    RowFacts(text, rows, now, i);
    FactsOfRow(rows[i], now[i]);
  }

  lemma SameBlocksSameVote(base: seq<Row>, now: seq<Row>, rows: seq<Row>, left: nat, right: nat)
    requires |now| == |rows| && left < |rows| && right < |rows|
    requires now[left].imageIndex == rows[left].imageIndex && now[left].direction == rows[left].direction
    requires now[right].imageIndex == rows[right].imageIndex && now[right].direction == rows[right].direction
    requires var a, b := ScreenAt(base, rows[left].imageIndex), ScreenAt(rows, rows[left].imageIndex);
      (left in a.leading <==> left in b.leading) && (left in a.trailing <==> left in b.trailing)
    requires var a, b := ScreenAt(base, rows[right].imageIndex), ScreenAt(rows, rows[right].imageIndex);
      (right in a.leading <==> right in b.leading) && (right in a.trailing <==> right in b.trailing)
    ensures PairVote(base, now, left)(right) == PairVote(rows, rows, left)(right)
  {
    hide ScreenAt;
  }

  lemma PairVoteStays(text: Text, rows: seq<Row>, base: seq<Row>, now: seq<Row>, left: nat, right: nat)
    requires Sourced(text, rows, base) && Sourced(text, rows, now) && left < |rows| && right < |rows|
    ensures PairVote(base, now, left)(right) == PairVote(rows, rows, left)(right)
  {
    assert |now| == |rows|;
    hide *;
    RowKeepsFacts(text, rows, now, left);
    RowKeepsFacts(text, rows, now, right);
    BlocksStay(text, rows, base, rows[left].imageIndex, left);
    BlocksStay(text, rows, base, rows[right].imageIndex, right);
    SameBlocksSameVote(base, now, rows, left, right);
  }

  lemma VotesStay(text: Text, rows: seq<Row>, base: seq<Row>, now: seq<Row>, members: seq<nat>, left: nat)
    requires Sourced(text, rows, base) && Sourced(text, rows, now) && left < |rows| && InRange(rows, members)
    ensures VotesOf(base, now, members)(left) == VotesOf(rows, rows, members)(left)
  {
    forall right | right in members ensures PairVote(base, now, left)(right) == PairVote(rows, rows, left)(right) {
      PairVoteStays(text, rows, base, now, left, right);
    }
    hide PairVote, Sum, Sourced;
    SumEqual<nat>(members, PairVote(base, now, left), PairVote(rows, rows, left));
  }

  lemma GroupVotesStay(text: Text, rows: seq<Row>, base: seq<Row>, now: seq<Row>, g: TwinGroup)
    requires Sourced(text, rows, base) && Sourced(text, rows, now) && InRange(rows, g.members)
    ensures GroupVotes(base, now)(g) == GroupVotes(rows, rows)(g)
  {
    forall left | left in g.members ensures VotesOf(base, now, g.members)(left) ==
      VotesOf(rows, rows, g.members)(left) {
      VotesStay(text, rows, base, now, g.members, left);
    }
    hide VotesOf, Sum, Sourced;
    SumEqual<nat>(g.members, VotesOf(base, now, g.members), VotesOf(rows, rows, g.members));
  }

  /** Which screenshot is above can be read off the rows as they came. */
  lemma AboveStays(text: Text, rows: seq<Row>, base: seq<Row>, now: seq<Row>)
    requires Sourced(text, rows, base) && Sourced(text, rows, now)
    ensures AboveOffset(text, base, now) == AboveOffset(text, rows, rows)
  {
    var groups := TwinGroups(text, rows, |rows|);
    assert |now| == |rows|;
    TwinGroupsStay(text, rows, now, |rows|);
    GroupsAreInRange(text, rows);
    forall g | g in groups ensures GroupVotes(base, now)(g) == GroupVotes(rows, rows)(g) {
      assert InRange(rows, g.members);
      GroupVotesStay(text, rows, base, now, g);
    }
    hide GroupVotes, Sum, Sourced, TwinGroups;
    SumEqual(groups, GroupVotes(base, now), GroupVotes(rows, rows));
  }

  lemma PlacedRow(text: Text, base: seq<Row>, now: seq<Row>, above: int, i: nat)
    requires (above == 1 || above == -1) && AboveOffset(text, base, now) == Some(above)
    requires LeadingEvent(base, i) && i < |now| && Towards(base, base[i].imageIndex, above).Some?
    ensures FromAbove(text, base, now)[i].date.Some?
  {
    assert i < |base|;
    hide Towards, AboveOffset, LeadingEvent;
    assert FromAbove(text, base, now)[i] == UnderAboveRow(base, now, above, i);
  }

  lemma StaysLeadingEvent(text: Text, rows: seq<Row>, base: seq<Row>, i: nat)
    requires i < |rows| && Sourced(text, rows, base) && rows[i].rowRole != UiMetadata && LeadingAt(rows, i)
    ensures LeadingEvent(base, i) && base[i].imageIndex == rows[i].imageIndex
  {
    RowFacts(text, rows, base, i);
    FactsOfRow(rows[i], base[i]);
    LeadingStays(text, rows, base, i);
    LeadingMeans(base, base[i].imageIndex, i);
  }

  lemma PlacedByAbove(text: Text, rows: seq<Row>, base: seq<Row>, now: seq<Row>, i: nat)
    requires i < |rows| && Sourced(text, rows, base) && Sourced(text, rows, now) && rows[i].rowRole != UiMetadata &&
      LeadingAt(rows, i)
    requires var above := AboveOffset(text, rows, rows);
      above.Some? && Towards(rows, rows[i].imageIndex, above.value).Some?
    ensures i < |now| && FromAbove(text, base, now)[i].date.Some?
  {
    var above := AboveOffset(text, rows, rows).value;
    assert |now| == |rows|;
    hide *;
    AboveIsUnit(text, rows, rows);
    AboveStays(text, rows, base, now);
    StaysLeadingEvent(text, rows, base, i);
    TowardsStays(text, rows, base, rows[i].imageIndex, above);
    PlacedRow(text, base, now, above, i);
  }

  lemma AboveIsUnit(text: Text, base: seq<Row>, rows: seq<Row>)
    ensures var above := AboveOffset(text, base, rows); above.Some? ==> above.value == 1 || above.value == -1
  {
  }

  /** Once the repeated entries show which neighbour is above, no entry at the top of a screenshot stays
      without a date if a divider can be reached in that direction. */
  lemma {:induction false} LeadingRowsAreDated(text: Text, rows: seq<Row>, i: nat)
    requires i < |rows| && rows[i].rowRole != UiMetadata && LeadingAt(rows, i)
    requires var above := AboveOffset(text, rows, rows);
      above.Some? && Towards(rows, rows[i].imageIndex, above.value).Some?
    ensures Inferred(text, rows)[i].date.Some?
  {
    var base := FromTwins(text, rows);
    FromTwinsSourced(text, rows);
    var filled := FromLeading(base);
    FromLeadingSourced(text, rows, base);
    var placed := FromAbove(text, base, filled);
    assert Inferred(text, rows) == FromAnchors(text, placed);
    PlacedByAbove(text, rows, base, filled, i);
    SourcedSelf(text, placed);
    FromAnchorsSourced(text, placed, placed);
    hide *;
    DatesStay(text, placed, FromAnchors(text, placed), i);
  }

  lemma SourcedSelf(text: Text, rows: seq<Row>)
    ensures Sourced(text, rows, rows)
  {
  }

  lemma DatesStay(text: Text, rows: seq<Row>, now: seq<Row>, i: nat)
    requires Sourced(text, rows, now) && i < |rows| && rows[i].date.Some?
    ensures i < |now| && now[i].date.Some?
  {
    RowFacts(text, rows, now, i);
  }
}
