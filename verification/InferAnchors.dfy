// What the last pass dates and links, row by row: an entry captured twice, one of whose captures stands
// under a divider of its own screenshot.
module InferAnchors {
  import opened Sequences
  import opened ImportRows
  import opened ImportScreens
  import opened InferDates
  import opened ScreenVotes
  import opened InferTwins

  // ---- what becomes of a row ----------------------------------------------------------------------

  /** Its date was read, and it stands under a divider of its own screenshot. */
  predicate Anchor(rows: seq<Row>, i: nat) { i < |rows| && !rows[i].dateInferred && !LeadingAt(rows, i) }

  /** An anchor that repeats row `i` in another screenshot. */
  predicate Match(text: Text, rows: seq<Row>, i: nat, a: nat) {
    && i < |rows| && Anchor(rows, a) && Repeats(text, rows[i], rows[a])
    && rows[a].imageIndex != rows[i].imageIndex
  }

  /** No anchor itself, and not yet related, unless to an exchange line. */
  predicate Loose(rows: seq<Row>, i: nat) {
    i < |rows| && !Anchor(rows, i) && (rows[i].relation.None? || rows[i].relation.value.kind == FxFor)
  }

  /** All anchors that repeat row `i` carry one date, and `a` is the first of them. */
  predicate AnchoredBy(text: Text, rows: seq<Row>, i: nat, a: nat) {
    && Loose(rows, i) && Match(text, rows, i, a)
    && forall k :: 0 <= k < |rows| && Match(text, rows, i, k) ==> a <= k && rows[k].date == rows[a].date
  }

  /** The row takes the anchor's date, if it has another. */
  predicate TakesDate(before: Row, anchor: Row, after: Row) {
    if anchor.date.Some? && anchor.date != before.date then after.date == anchor.date && after.dateInferred
    else after.date == before.date && after.dateInferred == before.dateInferred
  }

  ghost predicate AnchorDated(text: Text, rows: seq<Row>, i: nat, after: Row)
    requires i < |rows|
  {
    || (exists a: nat :: a < |rows| && AnchoredBy(text, rows, i, a) && TakesDate(rows[i], rows[a], after))
    || (after.date == rows[i].date && after.dateInferred == rows[i].dateInferred &&
        forall a: nat :: !AnchoredBy(text, rows, i, a))
  }

  /**
   * Row `i` is linked to its anchor, unless the anchor already points at it; the capture with an exchange
   * line is kept, and its anchor linked to it.
   */
  predicate Points(text: Text, rows: seq<Row>, i: nat, x: nat, e: nat) {
    i < |rows| && x < |rows| && e < |rows| &&
    var a := if rows[i].relation.Some? then x else e;
    && i == (if rows[i].relation.Some? then e else x)
    && AnchoredBy(text, rows, i, a) && rows[a].relation != Some(Relation(DuplicateOf, rows[i].rowId))
  }

  ghost predicate FirstPoints(text: Text, rows: seq<Row>, i: nat, x: nat, e: nat) {
    Points(text, rows, i, x, e) && forall k: nat, e': nat :: k < i ==> !Points(text, rows, k, x, e')
  }

  /** The first row that asks decides, unless a relation was there. */
  ghost predicate AnchorLinked(text: Text, rows: seq<Row>, x: nat, after: Row)
    requires x < |rows|
  {
    || (after.relation == rows[x].relation &&
        (rows[x].relation.Some? || forall i: nat, e: nat :: !Points(text, rows, i, x, e)))
    || (rows[x].relation.None? &&
        exists i: nat, e: nat :: FirstPoints(text, rows, i, x, e) && Linked(rows, after, e))
  }

  /** Dates, flags and links after the last pass; nothing else of a row changes. */
  ghost predicate AnchorPass(text: Text, rows: seq<Row>, now: seq<Row>) {
    |now| == |rows| && forall x :: 0 <= x < |rows| ==>
      InferDates.SameFacts(rows[x], now[x]) && AnchorDated(text, rows, x, now[x]) && AnchorLinked(text, rows, x, now[x])
  }

  // ---- the rows visited so far --------------------------------------------------------------------

  ghost predicate FirstAmong(text: Text, rows: seq<Row>, done: set<nat>, i: nat, x: nat, e: nat) {
    && i in done && Points(text, rows, i, x, e)
    && forall k: nat, e': nat :: k in done && k < i ==> !Points(text, rows, k, x, e')
  }

  ghost predicate PointedAmong(text: Text, rows: seq<Row>, done: set<nat>, x: nat, after: Row)
    requires x < |rows|
  {
    || (after.relation == rows[x].relation &&
        (rows[x].relation.Some? || forall i: nat, e: nat :: i in done ==> !Points(text, rows, i, x, e)))
    || (rows[x].relation.None? &&
        exists i: nat, e: nat :: FirstAmong(text, rows, done, i, x, e) && Linked(rows, after, e))
  }

  ghost predicate RowSoFar(text: Text, rows: seq<Row>, now: seq<Row>, done: set<nat>, x: nat)
    requires |now| == |rows| && x < |rows|
  {
    && InferDates.SameFacts(rows[x], now[x]) && PointedAmong(text, rows, done, x, now[x])
    && if x in done then AnchorDated(text, rows, x, now[x])
       else now[x].date == rows[x].date && now[x].dateInferred == rows[x].dateInferred
  }

  ghost predicate VisitedSoFar(text: Text, rows: seq<Row>, now: seq<Row>, done: set<nat>) {
    && |now| == |rows| && Closed(text, rows, done) && (forall k: nat :: k in done ==> k < |rows|)
    && forall x: nat :: x < |rows| ==> RowSoFar(text, rows, now, done, x)
  }

  lemma PointsTwins(text: Text, rows: seq<Row>, i: nat, x: nat, e: nat)
    requires Points(text, rows, i, x, e)
    ensures i < |rows| && x < |rows| && SameTwin(text, rows[i], rows[x])
    ensures x != i ==> Anchor(rows, x)
    ensures x == i || e == i
  {
    if rows[i].relation.Some? { RepeatsMeans(text, rows[i], rows[x]); } else { RepeatsMeans(text, rows[i], rows[e]); }
    hide LeadingAt, Repeats;
  }

  /** Each row points one way only. */
  lemma PointsOnce(text: Text, rows: seq<Row>, i: nat, a: nat)
    requires AnchoredBy(text, rows, i, a) && i < |rows| && a < |rows|
    ensures forall b: nat :: AnchoredBy(text, rows, i, b) ==> b == a
    ensures forall x: nat, e: nat :: Points(text, rows, i, x, e) <==>
      (x, e) == (if rows[i].relation.Some? then (a, i) else (i, a)) &&
      rows[a].relation != Some(Relation(DuplicateOf, rows[i].rowId))
  {
    forall b: nat | AnchoredBy(text, rows, i, b) ensures b == a { hide Anchor, SameTwin; }
    hide AnchoredBy;
  }

  lemma PointedBefore(text: Text, rows: seq<Row>, done: set<nat>, i: nat, k: nat, x: nat, e: nat, e': nat)
    requires i !in done && k in done && Closed(text, rows, done)
    requires Points(text, rows, i, x, e) && Points(text, rows, k, x, e')
    ensures k < i
  {
    PointsTwins(text, rows, i, x, e);
    PointsTwins(text, rows, k, x, e');
    assert SameTwin(text, rows[k], rows[i]);
    hide Points, SameTwin;
  }

  /** The link of a row after row `i` was visited. */
  lemma PointVisited(text: Text, rows: seq<Row>, done: set<nat>, i: nat, x: nat, before: Row, after: Row)
    requires i !in done && Closed(text, rows, done) && x < |rows| && PointedAmong(text, rows, done, x, before)
    requires (forall e: nat :: !Points(text, rows, i, x, e)) ==> after.relation == before.relation
    requires forall e: nat :: Points(text, rows, i, x, e) ==>
      if before.relation.None? then Linked(rows, after, e) else after.relation == before.relation
    ensures PointedAmong(text, rows, done + {i}, x, after)
  {
    forall k: nat, e: nat, e': nat | k in done && Points(text, rows, i, x, e) && Points(text, rows, k, x, e')
      ensures k < i
    {
      PointedBefore(text, rows, done, i, k, x, e, e');
    }
    hide Points, Closed;
    if rows[x].relation.None? {
      if before.relation.Some? {
        var k: nat, e: nat :| FirstAmong(text, rows, done, k, x, e) && Linked(rows, before, e);
        assert FirstAmong(text, rows, done + {i}, k, x, e);
      } else if e: nat :| Points(text, rows, i, x, e) {
        assert FirstAmong(text, rows, done + {i}, i, x, e);
      }
    }
  }

  // ---- one row visited ----------------------------------------------------------------------------

  lemma AnchorsKeepDates(text: Text, rows: seq<Row>, now: seq<Row>, done: set<nat>, a: nat)
    requires VisitedSoFar(text, rows, now, done) && Anchor(rows, a)
    ensures now[a].date == rows[a].date && now[a].dateInferred == rows[a].dateInferred
  {
    assert RowSoFar(text, rows, now, done, a);
    hide Match, PointedAmong, LeadingAt, TakesDate;
  }

  lemma UnvisitedKeeps(text: Text, rows: seq<Row>, now: seq<Row>, done: set<nat>, i: nat)
    requires VisitedSoFar(text, rows, now, done) && i < |rows| && i !in done
    ensures InferDates.SameFacts(rows[i], now[i]) && now[i].date == rows[i].date &&
      now[i].dateInferred == rows[i].dateInferred
    ensures !Anchor(rows, i) ==> now[i].relation == rows[i].relation
    ensures UnderOwnDivider(rows, now)(i) <==> Anchor(rows, i)
  {
    assert RowSoFar(text, rows, now, done, i);
    FactsOfRow(rows[i], now[i]);
    LeadingMeans(rows, rows[i].imageIndex, i);
    hide ScreenAt, LeadingAt, AnchorDated, InferDates.SameFacts;
    if k: nat, e: nat :| FirstAmong(text, rows, done, k, i, e) { PointsTwins(text, rows, k, i, e); }
  }

  /** The anchors among the members, in the order of the rows. */
  ghost predicate AnchorsListed(rows: seq<Row>, members: seq<nat>, anchors: seq<nat>) {
    Rising(anchors) && forall j: nat :: j in anchors <==> j in members && Anchor(rows, j)
  }

  ghost predicate MatchesListed(text: Text, rows: seq<Row>, i: nat, matches: seq<nat>) {
    Rising(matches) && forall j: nat :: j in matches <==> j < |rows| && Match(text, rows, i, j)
  }

  lemma MatchIsListed(
    text: Text, rows: seq<Row>, now: seq<Row>, done: set<nat>, members: seq<nat>, anchors: seq<nat>, i: nat, j: nat)
    requires VisitedSoFar(text, rows, now, done) && Class(text, rows, members, i)
    requires AnchorsListed(rows, members, anchors)
    ensures j in anchors && IsMatch(now, i)(j) <==> j < |rows| && Match(text, rows, i, j)
  {
    assert RowSoFar(text, rows, now, done, i);
    FactsOfRow(rows[i], now[i]);
    if j < |rows| {
      assert RowSoFar(text, rows, now, done, j);
      FactsOfRow(rows[j], now[j]);
    }
    hide RowSoFar, SameTwin, Anchor, InferDates.SameFacts;
  }

  lemma MatchesAreListed(
    text: Text, rows: seq<Row>, now: seq<Row>, done: set<nat>, members: seq<nat>, anchors: seq<nat>, i: nat)
    requires VisitedSoFar(text, rows, now, done) && Class(text, rows, members, i)
    requires AnchorsListed(rows, members, anchors)
    ensures MatchesListed(text, rows, i, Filter(anchors, IsMatch(now, i)))
  {
    var matches := Filter(anchors, IsMatch(now, i));
    FirstOfFiltered(anchors, IsMatch(now, i));
    hide VisitedSoFar, Class, Match, IsMatch, Filter;
    forall j: nat ensures j in matches <==> j < |rows| && Match(text, rows, i, j) {
      FilterMember(anchors, IsMatch(now, i), j);
      MatchIsListed(text, rows, now, done, members, anchors, i, j);
    }
  }

  /** The matches decide whether, and by whom, a loose row is anchored. */
  lemma AnchoredByWhom(text: Text, rows: seq<Row>, now: seq<Row>, i: nat, matches: seq<nat>)
    requires |now| == |rows| && MatchesListed(text, rows, i, matches)
    requires forall j: nat :: j in matches ==> now[j].date == rows[j].date
    ensures if Loose(rows, i) && OneDate(now, matches)
      then matches[0] < |rows| && AnchoredBy(text, rows, i, matches[0])
      else forall a: nat :: !AnchoredBy(text, rows, i, a)
  {
    forall k: nat | k in matches ensures matches[0] <= k {
      var b :| 0 <= b < |matches| && matches[b] == k;
    }
    hide Loose, Rising;
    if matches != [] { assert matches[0] in matches; }
    forall a: nat | AnchoredBy(text, rows, i, a) ensures OneDate(now, matches) {
      MatchInRange(text, rows, i, a);
      hide Match;
      assert a in matches;
      forall k: nat | k in matches ensures now[k].date == now[a].date {}
    }
    hide Match;
  }

  lemma MatchInRange(text: Text, rows: seq<Row>, i: nat, a: nat)
    requires Match(text, rows, i, a)
    ensures i < |rows| && a < |rows| && a != i && Anchor(rows, a)
  {
  }

  /** A visited row never points at an anchor under the name of a row still to come. */
  lemma PointedByName(text: Text, rows: seq<Row>, now: seq<Row>, done: set<nat>, i: nat, a: nat)
    requires VisitedSoFar(text, rows, now, done) && DistinctRows(rows) && i < |rows| && i !in done && Anchor(rows, a)
    ensures now[a].relation == Some(Relation(DuplicateOf, rows[i].rowId)) <==>
      rows[a].relation == Some(Relation(DuplicateOf, rows[i].rowId))
  {
    assert RowSoFar(text, rows, now, done, a);
    hide Anchor, AnchorDated, InferDates.SameFacts;
    if rows[a].relation.None? && now[a].relation.Some? {
      var k: nat, e: nat :| FirstAmong(text, rows, done, k, a, e) && Linked(rows, now[a], e);
      PointerIsVisited(text, rows, k, a, e);
      assert e in done && e != i;
      assert rows[e].rowId != rows[i].rowId;
    }
  }

  lemma PointerIsVisited(text: Text, rows: seq<Row>, k: nat, a: nat, e: nat)
    requires Points(text, rows, k, a, e) && Anchor(rows, a)
    ensures e == k
  {
    hide Match, LeadingAt;
  }

  /** Only where row `i` points, and nothing was there, a link is added. */
  ghost predicate LinksStep(text: Text, rows: seq<Row>, now: seq<Row>, next: seq<Row>, i: nat) {
    |now| == |rows| == |next| && forall x: nat :: x < |rows| ==>
      && ((forall e: nat :: !Points(text, rows, i, x, e)) ==> next[x].relation == now[x].relation)
      && (forall e: nat :: Points(text, rows, i, x, e) ==>
        if now[x].relation.None? then Linked(rows, next[x], e) else next[x].relation == now[x].relation)
  }

  lemma RowVisited(
    text: Text, rows: seq<Row>, now: seq<Row>, next: seq<Row>, done: set<nat>, i: nat)
    requires VisitedSoFar(text, rows, now, done) && i < |rows| && i !in done && Closed(text, rows, done + {i})
    requires |next| == |rows| && AnchorDated(text, rows, i, next[i])
    requires forall x: nat :: x < |rows| ==> InferDates.SameFacts(rows[x], next[x])
    requires forall x: nat :: x < |rows| && x != i ==>
      next[x].date == now[x].date && next[x].dateInferred == now[x].dateInferred
    requires LinksStep(text, rows, now, next, i)
    ensures VisitedSoFar(text, rows, next, done + {i})
  {
    hide Points, Linked, InferDates.SameFacts, AnchoredBy, Closed;
    forall x: nat | x < |rows| ensures RowSoFar(text, rows, next, done + {i}, x) {
      assert RowSoFar(text, rows, now, done, x);
      PointVisited(text, rows, done, i, x, now[x], next[x]);
      hide PointedAmong;
    }
  }

  lemma RowKept(text: Text, rows: seq<Row>, now: seq<Row>, done: set<nat>, i: nat)
    requires VisitedSoFar(text, rows, now, done) && i < |rows| && i !in done && Closed(text, rows, done + {i})
    requires forall a: nat :: !AnchoredBy(text, rows, i, a)
    ensures VisitedSoFar(text, rows, now, done + {i})
  {
    assert RowSoFar(text, rows, now, done, i);
    FactsSoFar(text, rows, now, done);
    KeptFacts(rows, now);
    assert forall x: nat, e: nat :: !Points(text, rows, i, x, e);
    assert LinksStep(text, rows, now, now, i);
    hide *;
    RowVisited(text, rows, now, now, done, i);
  }

  /** What anchoring a row changes. */
  function AnchoredTo(now: seq<Row>, i: nat, a: nat): (r: seq<Row>)
    requires i < |now| && a < |now|
    ensures |r| == |now|
  {
    var dated := if now[a].date.Some? && now[i].date != now[a].date
      then now[i := Dated(now[i], now[a].date.value)] else now;
    if now[a].relation == Some(Relation(DuplicateOf, now[i].rowId)) then dated
    else if now[i].relation.Some? then
      if dated[a].relation.None? then dated[a := LinkTo(dated[a], now[i].rowId)] else dated
    else dated[i := LinkTo(dated[i], now[a].rowId)]
  }

  lemma AnchoredIs(rows: seq<Row>, now: seq<Row>, anchors: seq<nat>, i: nat)
    requires i < |now|
    ensures var matches, relation := Filter(anchors, IsMatch(now, i)), now[i].relation;
      Anchored(rows, now, anchors, i) ==
        if UnderOwnDivider(rows, now)(i) || (relation.Some? && relation.value.kind != FxFor) || !OneDate(now, matches)
        then now else AnchoredTo(now, i, matches[0])
  {
    hide Filter, UnderOwnDivider;
  }

  lemma AnchoredToDates(rows: seq<Row>, now: seq<Row>, i: nat, a: nat)
    requires |now| == |rows| && i < |rows| && a < |rows| && a != i
    requires now[i].date == rows[i].date && now[i].dateInferred == rows[i].dateInferred && now[a].date == rows[a].date
    ensures var next := AnchoredTo(now, i, a);
      && TakesDate(rows[i], rows[a], next[i])
      && (forall x: nat :: x < |rows| ==> InferDates.SameFacts(now[x], next[x]))
      && (forall x: nat :: x < |rows| && x != i ==>
        next[x].date == now[x].date && next[x].dateInferred == now[x].dateInferred)
  {
  }

  lemma AnchoredToLinks(rows: seq<Row>, now: seq<Row>, i: nat, a: nat)
    requires |now| == |rows| && i < |rows| && a < |rows| && a != i && now[i].relation == rows[i].relation
    requires now[i].rowId == rows[i].rowId && now[a].rowId == rows[a].rowId
    ensures var next, points := AnchoredTo(now, i, a), now[a].relation != Some(Relation(DuplicateOf, rows[i].rowId));
      && (forall x: nat :: x < |rows| && x != i && x != a ==> next[x].relation == now[x].relation)
      && (rows[i].relation.Some? || !points ==> next[i].relation == now[i].relation)
      && (rows[i].relation.None? || now[a].relation.Some? ==> next[a].relation == now[a].relation)
      && (rows[i].relation.Some? && now[a].relation.None? ==> Linked(rows, next[a], i))
      && (rows[i].relation.None? && points ==> Linked(rows, next[i], a))
  {
  }

  lemma AnchoredToSteps(text: Text, rows: seq<Row>, now: seq<Row>, i: nat, a: nat)
    requires |now| == |rows| && i < |rows| && a < |rows| && a != i && now[i].relation == rows[i].relation
    requires now[i].rowId == rows[i].rowId && now[a].rowId == rows[a].rowId && AnchoredBy(text, rows, i, a)
    requires now[a].relation == Some(Relation(DuplicateOf, rows[i].rowId)) <==>
      rows[a].relation == Some(Relation(DuplicateOf, rows[i].rowId))
    ensures LinksStep(text, rows, now, AnchoredTo(now, i, a), i)
  {
    AnchoredToLinks(rows, now, i, a);
    PointsOnce(text, rows, i, a);
    hide Points, AnchoredBy, AnchoredTo, Linked;
    var next, points := AnchoredTo(now, i, a), rows[a].relation != Some(Relation(DuplicateOf, rows[i].rowId));
    forall x: nat | x < |rows|
      ensures (forall e: nat :: !Points(text, rows, i, x, e)) ==> next[x].relation == now[x].relation
      ensures forall e: nat :: Points(text, rows, i, x, e) ==>
        if now[x].relation.None? then Linked(rows, next[x], e) else next[x].relation == now[x].relation
    {
      if rows[i].relation.Some? {
        assert Points(text, rows, i, a, i) <==> points;
      } else {
        assert Points(text, rows, i, i, a) <==> points;
      }
    }
  }

  ghost predicate AllKeepFacts(rows: seq<Row>, now: seq<Row>) {
    |now| == |rows| && forall x: nat :: x < |rows| ==> InferDates.SameFacts(rows[x], now[x])
  }

  lemma FactsSoFar(text: Text, rows: seq<Row>, now: seq<Row>, done: set<nat>)
    requires VisitedSoFar(text, rows, now, done)
    ensures AllKeepFacts(rows, now)
  {
    forall x: nat | x < |rows| ensures InferDates.SameFacts(rows[x], now[x]) {
      assert RowSoFar(text, rows, now, done, x);
    }
  }

  lemma KeepFactsOn(rows: seq<Row>, now: seq<Row>, next: seq<Row>)
    requires AllKeepFacts(rows, now) && |next| == |now|
    requires forall x: nat :: x < |now| ==> InferDates.SameFacts(now[x], next[x])
    ensures AllKeepFacts(rows, next)
  {
  }

  lemma KeptFacts(rows: seq<Row>, now: seq<Row>)
    requires AllKeepFacts(rows, now)
    ensures |now| == |rows| && forall x: nat :: x < |rows| ==>
      InferDates.SameFacts(rows[x], now[x]) && now[x].rowId == rows[x].rowId
  {
  }

  lemma IsAnchored(text: Text, rows: seq<Row>, i: nat, a: nat, after: Row)
    requires i < |rows| && AnchoredBy(text, rows, i, a)
    ensures a < |rows| && a != i && Anchor(rows, a) && !Anchor(rows, i)
    ensures TakesDate(rows[i], rows[a], after) ==> AnchorDated(text, rows, i, after)
  {
    assert Loose(rows, i) && Match(text, rows, i, a);
    MatchInRange(text, rows, i, a);
    hide AnchoredBy, TakesDate;
  }

  lemma RowAnchored(text: Text, rows: seq<Row>, now: seq<Row>, done: set<nat>, i: nat, a: nat)
    requires VisitedSoFar(text, rows, now, done) && DistinctRows(rows) && i < |rows| && i !in done
    requires Closed(text, rows, done + {i}) && a < |rows| && AnchoredBy(text, rows, i, a)
    ensures |now| == |rows| && VisitedSoFar(text, rows, AnchoredTo(now, i, a), done + {i})
  {
    FactsSoFar(text, rows, now, done);
    hide *;
    KeptFacts(rows, now);
    var next := AnchoredTo(now, i, a);
    IsAnchored(text, rows, i, a, next[i]);
    UnvisitedKeeps(text, rows, now, done, i);
    AnchorsKeepDates(text, rows, now, done, a);
    AnchoredToDates(rows, now, i, a);
    KeepFactsOn(rows, now, next);
    PointedByName(text, rows, now, done, i, a);
    AnchoredToSteps(text, rows, now, i, a);
    KeptFacts(rows, next);
    RowVisited(text, rows, now, next, done, i);
  }

  /** Visiting a row with the anchors of its class. */
  lemma AnchoringVisits(
    text: Text, rows: seq<Row>, now: seq<Row>, done: set<nat>, members: seq<nat>, anchors: seq<nat>, i: nat)
    requires VisitedSoFar(text, rows, now, done) && DistinctRows(rows) && Class(text, rows, members, i) && i !in done
    requires forall k: nat :: k in members && k < i ==> k in done
    requires AnchorsListed(rows, members, anchors)
    ensures VisitedSoFar(text, rows, Anchored(rows, now, anchors, i), done + {i})
  {
    var matches := Filter(anchors, IsMatch(now, i));
    MatchesAreListed(text, rows, now, done, members, anchors, i);
    ClosedFurther(text, rows, done, members, i);
    UnvisitedKeeps(text, rows, now, done, i);
    forall j: nat | j in matches ensures now[j].date == rows[j].date {
      assert Match(text, rows, i, j);
      AnchorsKeepDates(text, rows, now, done, j);
    }
    AnchoredByWhom(text, rows, now, i, matches);
    AnchoredIs(rows, now, anchors, i);
    var taken := Loose(rows, i) && OneDate(now, matches);
    var stays := UnderOwnDivider(rows, now)(i) || (now[i].relation.Some? && now[i].relation.value.kind != FxFor);
    assert taken <==> !(stays || !OneDate(now, matches));
    hide *;
    if taken {
      RowAnchored(text, rows, now, done, i, matches[0]);
    } else {
      RowKept(text, rows, now, done, i);
    }
  }

  // ---- all rows visited ---------------------------------------------------------------------------

  lemma {:induction false} AnchorMembersVisited(
    text: Text, rows: seq<Row>, now: seq<Row>, done: set<nat>, anchors: seq<nat>, members: seq<nat>, n: nat)
    requires n <= |members| && VisitedSoFar(text, rows, now, done) && DistinctRows(rows)
    requires WholeClass(text, rows, members) && AnchorsListed(rows, members, anchors)
    requires InRange(now, members) && Rising(members) && forall i: nat :: i in members ==> i !in done
    ensures VisitedSoFar(text, rows, AnchorMembers(rows, now, anchors, members, n), done + Elements(members[..n]))
  {
    hide VisitedSoFar, Class, Anchored, Elements, Rising, AnchorsListed, DistinctRows;
    if n == 0 {
      NoElements(done, members);
    } else {
      AnchorMembersVisited(text, rows, now, done, anchors, members, n - 1);
      NextMember(done, members, n - 1);
      AnchoringVisits(text, rows, AnchorMembers(rows, now, anchors, members, n - 1), done + Elements(members[..n - 1]),
        members, anchors, members[n - 1]);
    }
  }

  lemma GroupAnchors(text: Text, rows: seq<Row>, now: seq<Row>, done: set<nat>, members: seq<nat>)
    requires VisitedSoFar(text, rows, now, done) && InRange(rows, members) && Rising(members)
    requires forall i: nat :: i in members ==> i !in done
    ensures AnchorsListed(rows, members, Filter(members, UnderOwnDivider(rows, now)))
  {
    var anchors := Filter(members, UnderOwnDivider(rows, now));
    FirstOfFiltered(members, UnderOwnDivider(rows, now));
    hide VisitedSoFar, UnderOwnDivider, Filter, Anchor;
    forall j: nat ensures j in anchors <==> j in members && Anchor(rows, j) {
      FilterMember(members, UnderOwnDivider(rows, now), j);
      if j in members { UnvisitedKeeps(text, rows, now, done, j); }
    }
  }

  /** Alone in its class, a row has no anchor. */
  lemma AloneIsVisited(text: Text, rows: seq<Row>, now: seq<Row>, done: set<nat>, members: seq<nat>)
    requires VisitedSoFar(text, rows, now, done) && WholeClass(text, rows, members) && |members| < 2
    requires forall i: nat :: i in members ==> i !in done
    ensures VisitedSoFar(text, rows, now, done + Elements(members))
  {
    if members == [] {
      assert done + Elements(members) == done;
    } else {
      var i := members[0];
      assert Class(text, rows, members, i) && done + Elements(members) == done + {i};
      ClosedFurther(text, rows, done, members, i);
      forall a: nat ensures !AnchoredBy(text, rows, i, a) {
        if AnchoredBy(text, rows, i, a) { TwoMembers(text, rows, members, i, a); }
      }
      hide *;
      RowKept(text, rows, now, done, i);
    }
  }

  lemma TwoMembers(text: Text, rows: seq<Row>, members: seq<nat>, i: nat, a: nat)
    requires Class(text, rows, members, i) && AnchoredBy(text, rows, i, a)
    ensures |members| >= 2
  {
    IsAnchored(text, rows, i, a, rows[i]);
    MatchIsTwin(text, rows, i, a);
    assert a in members && i in members && a != i;
  }

  lemma MatchIsTwin(text: Text, rows: seq<Row>, i: nat, a: nat)
    requires AnchoredBy(text, rows, i, a)
    ensures i < |rows| && a < |rows| && SameTwin(text, rows[i], rows[a])
  {
  }

  lemma AnchorGroupVisited(text: Text, rows: seq<Row>, now: seq<Row>, done: set<nat>, members: seq<nat>)
    requires VisitedSoFar(text, rows, now, done) && DistinctRows(rows) && WholeClass(text, rows, members)
    requires InRange(rows, members) && InRange(now, members) && Rising(members)
    requires forall i: nat :: i in members ==> i !in done
    ensures VisitedSoFar(text, rows, AnchorGroup(rows, now, members), done + Elements(members))
  {
    hide VisitedSoFar, UnderOwnDivider, Filter, AnchorMembers, DistinctRows, WholeClass, Rising;
    if |members| < 2 {
      AloneIsVisited(text, rows, now, done, members);
    } else {
      GroupAnchors(text, rows, now, done, members);
      assert members[..|members|] == members;
      AnchorMembersVisited(text, rows, now, done, Filter(members, UnderOwnDivider(rows, now)), members, |members|);
    }
  }

  lemma {:induction false} AnchorGroupsVisited(text: Text, rows: seq<Row>, groups: seq<TwinGroup>, n: nat)
    requires n <= |groups| && GroupsInRange(rows, groups) && Apart(groups) && DistinctRows(rows)
    requires forall g :: 0 <= g < |groups| ==> Rising(groups[g].members) && WholeClass(text, rows, groups[g].members)
    ensures VisitedSoFar(text, rows, AnchorGroups(rows, rows, groups, n), Members(groups, n))
  {
    if n == 0 {
      assert Members(groups, n) == {};
      NothingVisited(text, rows);
    } else {
      AnchorGroupsVisited(text, rows, groups, n - 1);
      var now, members := AnchorGroups(rows, rows, groups, n - 1), groups[n - 1].members;
      assert InRange(rows, members) && InRange(now, members);
      assert Members(groups, n) == Members(groups, n - 1) + Elements(members);
      hide VisitedSoFar, AnchorGroup, WholeClass, Rising, DistinctRows;
      AnchorGroupVisited(text, rows, now, Members(groups, n - 1), members);
    }
  }

  lemma NothingVisited(text: Text, rows: seq<Row>)
    ensures VisitedSoFar(text, rows, rows, {})
  {
    hide Points, AnchoredBy;
  }

  /** The last pass dates and links exactly what is said above. */
  lemma AnchorsAreTaken(text: Text, rows: seq<Row>)
    requires DistinctRows(rows)
    ensures AnchorPass(text, rows, FromAnchors(text, rows))
  {
    var groups := TwinGroups(text, rows, |rows|);
    GroupsAreInRange(text, rows);
    TwinsGrouped(text, rows);
    assert FromAnchors(text, rows) == AnchorGroups(rows, rows, groups, |groups|);
    hide TwinGroups, AnchorGroups, FromAnchors, IsTwinCandidate, TwinKey, DistinctRows;
    forall g | 0 <= g < |groups| ensures WholeClass(text, rows, groups[g].members) {}
    AnchorGroupsVisited(text, rows, groups, |groups|);
    AllVisited(text, rows, FromAnchors(text, rows), Members(groups, |groups|));
  }

  lemma AllVisited(text: Text, rows: seq<Row>, now: seq<Row>, done: set<nat>)
    requires VisitedSoFar(text, rows, now, done)
    requires forall i: nat :: i < |rows| && IsTwinCandidate(rows[i]) ==> i in done
    ensures AnchorPass(text, rows, now)
  {
    forall i: nat, a: nat | AnchoredBy(text, rows, i, a) ensures i in done { MatchIsTwin(text, rows, i, a); }
    forall i: nat, x: nat, e: nat | Points(text, rows, i, x, e) ensures i in done { PointsTwins(text, rows, i, x, e); }
    hide AnchoredBy, Points, Closed, IsTwinCandidate;
    forall x: nat | x < |rows|
      ensures InferDates.SameFacts(rows[x], now[x]) && AnchorDated(text, rows, x, now[x])
      ensures AnchorLinked(text, rows, x, now[x])
    {
      assert RowSoFar(text, rows, now, done, x);
      LinkedAll(text, rows, done, x, now[x]);
    }
  }

  lemma LinkedAll(text: Text, rows: seq<Row>, done: set<nat>, x: nat, after: Row)
    requires x < |rows| && PointedAmong(text, rows, done, x, after)
    requires forall i: nat, x: nat, e: nat :: Points(text, rows, i, x, e) ==> i in done
    ensures AnchorLinked(text, rows, x, after)
  {
    hide Points, Linked;
    if !(after.relation == rows[x].relation &&
         (rows[x].relation.Some? || forall i: nat, e: nat :: i in done ==> !Points(text, rows, i, x, e))) {
      var i: nat, e: nat :| FirstAmong(text, rows, done, i, x, e) && Linked(rows, after, e);
      assert FirstPoints(text, rows, i, x, e);
    }
  }
}
