// The four passes of date inference, stated on the rows as they came: which way is up, what stands
// undated at the top of a screenshot, and which date it gets.
module InferMeaning {
  import opened Sequences
  import opened ImportRows
  import opened ImportScreens
  import opened InferDates
  import opened ScreenVotes
  import opened InferTwins
  import opened InferAnchors

  // ---- the leading block of a screenshot ----------------------------------------------------------

  /** An entry or detail above every date divider of its screenshot. */
  predicate AtTop(rows: seq<Row>, i: nat) { i < |rows| && rows[i].rowRole != UiMetadata && LeadingAt(rows, i) }

  /** Some row at the top of the screenshot carries the date. */
  predicate DateAtTop(rows: seq<Row>, now: seq<Row>, image: nat, date: string) {
    |now| == |rows| &&
    exists i: nat :: i < |rows| && AtTop(rows, i) && rows[i].imageIndex == image && now[i].date == Some(date)
  }

  /** The rows at the top of the screenshot that have a date agree on this one. */
  ghost predicate OnlyDateAtTop(rows: seq<Row>, now: seq<Row>, image: nat, date: string) {
    DateAtTop(rows, now, image, date) && forall other :: DateAtTop(rows, now, image, other) ==> other == date
  }

  ghost predicate Fills(rows: seq<Row>, before: seq<Row>, i: nat, date: string)
    requires i < |rows| && |before| == |rows|
  {
    AtTop(rows, i) && before[i].date.None? && OnlyDateAtTop(rows, before, rows[i].imageIndex, date)
  }

  /** A row at the top without a date takes the only date of the rows at the top with it. */
  ghost predicate LeadingFilled(rows: seq<Row>, before: seq<Row>, after: seq<Row>, i: nat)
    requires i < |rows| && |before| == |rows| == |after|
  {
    || (exists date :: Fills(rows, before, i, date) && after[i] == before[i].(date := Some(date), dateInferred := true))
    || (after[i] == before[i] && forall date :: !Fills(rows, before, i, date))
  }

  ghost predicate LeadingPass(rows: seq<Row>, before: seq<Row>, after: seq<Row>) {
    |before| == |rows| == |after| && forall i :: 0 <= i < |rows| ==> LeadingFilled(rows, before, after, i)
  }

  // ---- the divider above --------------------------------------------------------------------------

  /** The nearest screenshot with a divider in that direction is `k` screenshots away, and this is its last one. */
  ghost predicate NearestDivider(rows: seq<Row>, image: nat, step: int, k: nat, d: nat) {
    Reaches(rows, image, step, k) && IsLastDivider(rows, Away(image, step, k), d)
  }

  ghost predicate NearestDated(rows: seq<Row>, image: nat, step: int, date: Option<string>) {
    exists k: nat, d: nat :: d < |rows| && NearestDivider(rows, image, step, k, d) && rows[d].date == date
  }

  /** The date of the nearest last divider in that direction, if there is one. */
  ghost predicate NearestDate(rows: seq<Row>, image: nat, step: int, date: Option<string>) {
    || (date.Some? && NearestDated(rows, image, step, date))
    || (date.None? && forall k: nat :: !Reaches(rows, image, step, k))
  }

  /**
   * At the top of a screenshot, a row without a date, or with the date of the nearest divider the wrong way,
   * gets the date of the nearest divider above.
   */
  ghost predicate DividerTaken(rows: seq<Row>, above: int, before: seq<Row>, after: seq<Row>, i: nat)
    requires i < |rows| && |before| == |rows| == |after|
  {
    exists right, wrong ::
      && NearestDate(rows, rows[i].imageIndex, above, right) && NearestDate(rows, rows[i].imageIndex, -above, wrong)
      && Redated(AtTop(rows, i), right, wrong, before[i], after[i])
  }

  predicate Redated(atTop: bool, right: Option<string>, wrong: Option<string>, before: Row, after: Row) {
    after ==
      if atTop && right.Some? && (before.date.None? || (wrong.Some? && wrong != right && before.date == wrong))
      then before.(date := right, dateInferred := true)
      else before
  }

  ghost predicate DividerPass(text: Text, rows: seq<Row>, before: seq<Row>, after: seq<Row>) {
    && |before| == |rows| == |after|
    && (|PairsAbove(text, rows)| == |PairsBelow(text, rows)| ==> after == before)
    && (|PairsAbove(text, rows)| > |PairsBelow(text, rows)| ==>
      forall i :: 0 <= i < |rows| ==> DividerTaken(rows, 1, before, after, i))
    && (|PairsAbove(text, rows)| < |PairsBelow(text, rows)| ==>
      forall i :: 0 <= i < |rows| ==> DividerTaken(rows, -1, before, after, i))
  }

  // ---- the passes do just that --------------------------------------------------------------------

  lemma AtTopStays(text: Text, rows: seq<Row>, base: seq<Row>, i: nat)
    requires Sourced(text, rows, base)
    ensures LeadingEvent(base, i) <==> AtTop(rows, i)
    ensures i < |rows| ==> base[i].imageIndex == rows[i].imageIndex
  {
    if i < |rows| {
      RowFacts(text, rows, base, i);
      FactsOfRow(rows[i], base[i]);
      LeadingStays(text, rows, base, i);
      LeadingMeans(base, base[i].imageIndex, i);
    }
  }

  /** The dated rows at the top of a screenshot. */
  ghost predicate TopListed(rows: seq<Row>, base: seq<Row>, image: nat, dated: seq<nat>) {
    |base| == |rows| && forall i: nat ::
      i in dated <==> i < |rows| && AtTop(rows, i) && rows[i].imageIndex == image && base[i].date.Some?
  }

  lemma TopIsListed(text: Text, rows: seq<Row>, base: seq<Row>, image: nat)
    requires Sourced(text, rows, base)
    ensures TopListed(rows, base, image, Filter(ScreenAt(base, image).leading, IsDatedEvent(base)))
  {
    var leading := ScreenAt(base, image).leading;
    var dated := Filter(leading, IsDatedEvent(base));
    SourcedLength(text, rows, base);
    forall i: nat
      ensures i in dated <==> i < |rows| && AtTop(rows, i) && rows[i].imageIndex == image && base[i].date.Some?
    {
      FilterMember(leading, IsDatedEvent(base), i);
      AtTopStays(text, rows, base, i);
      LeadingMeans(base, image, i);
      hide Filter, ScreenAt, AtTop, Sourced;
    }
    hide Filter, ScreenAt, AtTop, IsDatedEvent, Sourced;
  }

  lemma OneDateAtTop(rows: seq<Row>, base: seq<Row>, image: nat, dated: seq<nat>, date: string)
    requires TopListed(rows, base, image, dated)
    ensures OneDate(base, dated) && base[dated[0]].date == Some(date) <==> OnlyDateAtTop(rows, base, image, date)
  {
    hide AtTop;
    if dated != [] { assert dated[0] in dated; }
    if OneDate(base, dated) {
      forall other | DateAtTop(rows, base, image, other) ensures Some(other) == base[dated[0]].date {
        var i: nat :| i < |rows| && AtTop(rows, i) && rows[i].imageIndex == image && base[i].date == Some(other);
        assert i in dated;
      }
    }
    if OnlyDateAtTop(rows, base, image, date) {
      var i: nat :| i < |rows| && AtTop(rows, i) && rows[i].imageIndex == image && base[i].date == Some(date);
      assert i in dated;
      forall k | k in dated ensures base[k].date == Some(date) {
        assert DateAtTop(rows, base, image, base[k].date.value);
      }
    }
  }

  lemma KnownDateMeans(text: Text, rows: seq<Row>, base: seq<Row>, image: nat, date: string)
    requires Sourced(text, rows, base)
    ensures KnownDate(base, image) == Some(date) <==> OnlyDateAtTop(rows, base, image, date)
  {
    var dated := Filter(ScreenAt(base, image).leading, IsDatedEvent(base));
    TopIsListed(text, rows, base, image);
    hide Filter, ScreenAt, IsDatedEvent, Sourced, AtTop, OnlyDateAtTop;
    OneDateAtTop(rows, base, image, dated, date);
    if dated != [] { assert dated[0] in dated; }
  }

  lemma SourcedLength(text: Text, rows: seq<Row>, base: seq<Row>)
    requires Sourced(text, rows, base)
    ensures |base| == |rows|
  {
  }

  lemma LeadingIsFilled(text: Text, rows: seq<Row>, base: seq<Row>)
    requires Sourced(text, rows, base)
    ensures LeadingPass(rows, base, FromLeading(base))
  {
    SourcedLength(text, rows, base);
    var after := FromLeading(base);
    forall i | 0 <= i < |rows| ensures LeadingFilled(rows, base, after, i) {
      AtTopStays(text, rows, base, i);
      forall date ensures KnownDate(base, rows[i].imageIndex) == Some(date) <==>
        OnlyDateAtTop(rows, base, rows[i].imageIndex, date)
      {
        KnownDateMeans(text, rows, base, rows[i].imageIndex, date);
      }
      assert after[i] == FilledRow(base, i);
      hide KnownDate, OnlyDateAtTop, AtTop, LeadingEvent, Sourced, FromLeading;
    }
    hide LeadingFilled, FromLeading;
  }

  lemma TowardsIsNearest(rows: seq<Row>, image: nat, step: int)
    requires step == 1 || step == -1
    ensures NearestDate(rows, image, step, Towards(rows, image, step))
  {
    var date := Towards(rows, image, step);
    if date.Some? {
      TowardsFinds(rows, image, step);
      var k :| Reaches(rows, image, step, k);
      TowardsMeans(rows, image, step, k);
      LastDividerMeans(rows, Away(image, step, k));
      hide Towards, LastDividerDate, IsLastDivider;
      var d :| 0 <= d < |rows| && IsLastDivider(rows, Away(image, step, k), d) && rows[d].date == date;
      assert NearestDivider(rows, image, step, k, d);
    } else {
      forall k: nat ensures !Reaches(rows, image, step, k) {
        if Reaches(rows, image, step, k) { TowardsMeans(rows, image, step, k); }
      }
    }
  }

  lemma UnderAboveIs(base: seq<Row>, before: seq<Row>, above: int, i: nat, image: nat)
    requires (above == 1 || above == -1) && i < |before| && |base| == |before| && base[i].imageIndex == image
    ensures Redated(LeadingEvent(base, i), Towards(base, image, above), Towards(base, image, -above), before[i],
      UnderAboveRow(base, before, above, i))
  {
    hide Towards, LeadingEvent;
  }

  lemma DividerIsTaken(
    text: Text, rows: seq<Row>, base: seq<Row>, before: seq<Row>, after: seq<Row>, above: int, i: nat)
    requires (above == 1 || above == -1) && Sourced(text, rows, base) && |before| == |rows| == |after| && i < |rows|
    requires i < |before| && after[i] == UnderAboveRow(base, before, above, i)
    ensures DividerTaken(rows, above, before, after, i)
  {
    hide Sourced, Towards, NearestDate, AtTop, LeadingEvent, UnderAboveRow, Redated;
    SourcedLength(text, rows, base);
    AtTopStays(text, rows, base, i);
    var image := rows[i].imageIndex;
    UnderAboveIs(base, before, above, i, image);
    TowardsStays(text, rows, base, image, above);
    TowardsStays(text, rows, base, image, -above);
    TowardsIsNearest(rows, image, above);
    TowardsIsNearest(rows, image, -above);
    var right, wrong := Towards(rows, image, above), Towards(rows, image, -above);
    assert NearestDate(rows, image, above, right) && NearestDate(rows, image, -above, wrong);
  }

  lemma DividersAreTaken(text: Text, rows: seq<Row>, base: seq<Row>, before: seq<Row>)
    requires Sourced(text, rows, base) && Sourced(text, rows, before)
    ensures DividerPass(text, rows, before, FromAbove(text, base, before))
  {
    var after := FromAbove(text, base, before);
    SourcedLength(text, rows, before);
    AboveStays(text, rows, base, before);
    DirectionMeans(text, rows);
    hide PairsAbove, PairsBelow, AboveOffset, Sourced, DividerTaken, UnderAboveRow;
    var above := AboveOffset(text, base, before);
    if above.Some? {
      forall i | 0 <= i < |rows| ensures DividerTaken(rows, above.value, before, after, i) {
        assert after[i] == UnderAboveRow(base, before, above.value, i);
        DividerIsTaken(text, rows, base, before, after, above.value, i);
      }
    }
  }

  /**
   * Inference is four passes, each of which does what is said of it: entries repeated in a neighbouring
   * screenshot, tops of screenshots with one known date, tops of screenshots under the divider above, and
   * entries anchored under their own divider elsewhere.
   */
  lemma InferenceMeans(text: Text, rows: seq<Row>)
    requires DistinctRows(rows)
    ensures exists twinned, filled, placed ::
      && TwinPass(text, rows, twinned)
      && LeadingPass(rows, twinned, filled)
      && DividerPass(text, rows, filled, placed)
      && AnchorPass(text, placed, Inferred(text, rows))
  {
    var twinned := FromTwins(text, rows);
    var filled := FromLeading(twinned);
    var placed := FromAbove(text, twinned, filled);
    assert Inferred(text, rows) == FromAnchors(text, placed);
    hide *;
    FromTwinsSourced(text, rows);
    FromLeadingSourced(text, rows, twinned);
    FromAboveSourced(text, rows, twinned, filled);
    TwinsAreFilled(text, rows);
    LeadingIsFilled(text, rows, twinned);
    DividersAreTaken(text, rows, twinned, filled);
    IdsStay(text, rows, placed);
    AnchorsAreTaken(text, placed);
  }

  lemma IdsStay(text: Text, rows: seq<Row>, now: seq<Row>)
    requires Sourced(text, rows, now) && DistinctRows(rows)
    ensures DistinctRows(now)
  {
    SourcedLength(text, rows, now);
    forall i | 0 <= i < |rows| ensures now[i].rowId == rows[i].rowId {
      RowFacts(text, rows, now, i);
      FactsOfRow(rows[i], now[i]);
    }
    hide Sourced;
  }
}
