/** The four passes as they run: one list of rows, updated in place. */
module InferDatesLoops {
  import opened Sequences
  import opened ImportRows
  import opened ImportScreens
  import opened InferDates

  function DatesOf(rows: seq<Row>, list: seq<nat>): set<Option<string>> {
    set i | i in list && i < |rows| :: rows[i].date
  }

  lemma OneDateOnly(rows: seq<Row>, list: seq<nat>)
    requires InRange(rows, list)
    ensures |DatesOf(rows, list)| == 1 <==> OneDate(rows, list)
  {
    var dates := DatesOf(rows, list);
    if list == [] {
      assert dates == {};
    } else {
      assert list[0] in list;
      var first := rows[list[0]].date;
      assert first in dates;
      if |dates| == 1 {
        assert |dates - {first}| == 0;
        assert dates == {first};
        forall i | i in list ensures i < |rows| && rows[i].date == first { assert rows[i].date in dates; }
      }
      if OneDate(rows, list) { assert dates == {first}; }
    }
  }

  method FillFromTwins(text: Text, rows: seq<Row>) returns (now: seq<Row>)
    ensures now == FromTwins(text, rows)
  {
    var groups := TwinIndex(text, rows);
    GroupsAreInRange(text, rows);
    assert FromTwins(text, rows) == FillGroups(rows, groups, |groups|);
    now := rows;
    hide TwinGroups, FromTwins, FillFromTwin, IsDatedNeighbour, LinkLater, Filter, OneDate;
    for g := 0 to |groups|
      invariant now == FillGroups(rows, groups, g)
    {
      var members := groups[g].members;
      assert InRange(now, members) by { assert InRange(rows, members); }
      ghost var before := now;
      for k := 0 to |members|
        invariant |now| == |rows| && InRange(before, members) && now == FillMembers(before, members, k)
      {
        assert members[k] in members;
        now := FillOne(now, members, members[k]);
      }
    }
  }

  method FillOne(rows: seq<Row>, members: seq<nat>, i: nat) returns (now: seq<Row>)
    requires i < |rows| && InRange(rows, members)
    ensures now == FillFromTwin(rows, members, i)
  {
    now := rows;
    if rows[i].date.None? {
      var dated := Filter(members, IsDatedNeighbour(rows, i));
      OneDateOnly(rows, dated);
      if |DatesOf(rows, dated)| == 1 {
        now := now[i := Dated(now[i], rows[dated[0]].date.value)];
        now := LinkLater(now, i, dated[0]);
      }
    }
  }

  // ---- passes 2 and 3: screenshot by screenshot ---------------------------------------------------------

  ghost predicate LaidOut(rows: seq<Row>, images: seq<nat>, screens: map<nat, Screen>) {
    ScreensOf(rows, screens) && EachOnce(images) && (forall m :: m in images <==> Present(rows, m))
  }

  ghost predicate ScreensOf(rows: seq<Row>, screens: map<nat, Screen>) {
    (forall m :: m in screens <==> Present(rows, m)) && (forall m :: m in screens ==> screens[m] == ScreenAt(rows, m))
  }

  ghost predicate SameImages(a: seq<Row>, b: seq<Row>) {
    |a| == |b| && forall i :: 0 <= i < |a| ==> a[i].imageIndex == b[i].imageIndex
  }

  /** The rows of the screenshots in `done`, and those in `extra`, already are as in `target`. */
  ghost predicate Halfway(before: seq<Row>, target: seq<Row>, now: seq<Row>, done: seq<nat>, extra: seq<nat>) {
    |before| == |target| == |now| &&
    forall i: nat :: i < |now| ==> now[i] == if before[i].imageIndex in done || i in extra then target[i] else before[i]
  }

  lemma RowDone(before: seq<Row>, target: seq<Row>, now: seq<Row>, done: seq<nat>, list: seq<nat>, k: nat)
    requires k < |list| && list[k] < |now| && Halfway(before, target, now, done, list[..k])
    ensures Halfway(before, target, now[list[k] := target[list[k]]], done, list[..k + 1])
  {
    assert list[..k + 1] == list[..k] + [list[k]];
  }

  lemma RowUntouched(before: seq<Row>, target: seq<Row>, now: seq<Row>, done: seq<nat>, list: seq<nat>, k: nat)
    requires k < |list| && list[k] < |before| && Halfway(before, target, now, done, list[..k])
    requires before[list[k]].imageIndex !in done && forall a, b :: 0 <= a < b < |list| ==> list[a] != list[b]
    ensures now[list[k]] == before[list[k]]
  {
  }

  lemma ImageDone(before: seq<Row>, target: seq<Row>, now: seq<Row>, done: seq<nat>, image: nat, leading: seq<nat>)
    requires Halfway(before, target, now, done, leading)
    requires forall i: nat :: i < |before| && before[i].imageIndex == image && i !in leading ==> target[i] == before[i]
    requires forall i :: i in leading ==> i < |before| && before[i].imageIndex == image
    ensures Halfway(before, target, now, done + [image], [])
  {
  }

  lemma AllDone(before: seq<Row>, target: seq<Row>, now: seq<Row>, images: seq<nat>, screens: map<nat, Screen>)
    requires Halfway(before, target, now, images, []) && LaidOut(before, images, screens)
    ensures now == target
  {
    forall i | 0 <= i < |now| ensures now[i] == target[i] { assert Present(before, before[i].imageIndex); }
  }

  lemma LeadingList(rows: seq<Row>, image: nat)
    ensures var leading := ScreenAt(rows, image).leading;
      && (forall i :: i in leading ==> i < |rows| && rows[i].imageIndex == image)
      && (forall a, b :: 0 <= a < b < |leading| ==> leading[a] != leading[b])
  {
    ImageRowsMean(rows, image);
    OnePosition(rows, ImageRows(rows, image));
    forall i | i in ScreenAt(rows, image).leading ensures i < |rows| && rows[i].imageIndex == image {
      LeadingMeans(rows, image, i);
    }
    hide ImageRows, FirstDivider;
  }

  lemma KnownDateNow(base: seq<Row>, now: seq<Row>, image: nat, dated: seq<nat>)
    requires var leading := ScreenAt(base, image).leading;
      dated == Filter(leading, IsDatedEvent(now)) && forall i :: i in leading ==>
        i < |base| && i < |now| && now[i] == base[i]
    ensures |DatesOf(now, dated)| == 1 ==>
      dated != [] && dated[0] < |now| && KnownDate(base, image).Some? && KnownDate(base, image) == now[dated[0]].date
    ensures |DatesOf(now, dated)| != 1 ==> KnownDate(base, image).None?
  {
    var leading := ScreenAt(base, image).leading;
    hide ScreenAt;
    FilterAgrees<nat>(leading, IsDatedEvent(now), IsDatedEvent(base));
    forall i | i in dated ensures i < |now| && now[i] == base[i] && now[i].date.Some?
    { FilterMember<nat>(leading, IsDatedEvent(now), i); }
    hide Filter, DatesOf;
    OneDateOnly(now, dated);
    if dated != [] { assert dated[0] in dated; }
    assert OneDate(now, dated) <==> OneDate(base, dated);
  }

  lemma FilledLeadingRow(base: seq<Row>, i: nat, image: nat)
    requires i < |base| && i in ScreenAt(base, image).leading && base[i].imageIndex == image
    ensures FilledRow(base, i) == if base[i].rowRole != UiMetadata && base[i].date.None? && KnownDate(base, image).Some?
      then Dated(base[i], KnownDate(base, image).value) else base[i]
  {
    hide ScreenAt, KnownDate;
  }

  method FillLeading(
    base: seq<Row>, ghost target: seq<Row>, before: seq<Row>, ghost done: seq<nat>, ghost image: nat, leading: seq<nat>,
    date: string)
    returns (now: seq<Row>)
    requires target == FromLeading(base) && Halfway(base, target, before, done, []) && image !in done
    requires leading == ScreenAt(base, image).leading && KnownDate(base, image) == Some(date)
    ensures Halfway(base, target, now, done, leading)
  {
    now := before;
    LeadingList(base, image);
    UntouchedImage(base, target, now, done, leading, image);
    for k := 0 to |leading|
      invariant |now| == |base| && Halfway(base, target, now, done, leading[..k])
    {
      hide *;
      var i := leading[k];
      assert i in leading;
      RowUntouched(base, target, now, done, leading, k);
      FilledLeadingRow(base, i, image);
      TargetRow(base, i);
      RowDone(base, target, now, done, leading, k);
      ghost var next := now[i := target[i]];
      if now[i].rowRole != UiMetadata && now[i].date.None? { now := now[i := Dated(now[i], date)]; }
      assert now == next;
    }
    assert leading[..|leading|] == leading;
  }

  method FillScreen(
    base: seq<Row>, ghost target: seq<Row>, before: seq<Row>, ghost done: seq<nat>, ghost image: nat, screen: Screen)
    returns (now: seq<Row>)
    requires target == FromLeading(base) && Halfway(base, target, before, done, []) && image !in done &&
      screen == ScreenAt(base, image)
    ensures Halfway(base, target, now, done + [image], [])
  {
    hide *;
    LeadingList(base, image);
    UntouchedImage(base, target, before, done, screen.leading, image);
    var dated := Filter(screen.leading, IsDatedEvent(before));
    KnownDateNow(base, before, image, dated);
    if |DatesOf(before, dated)| == 1 {
      now := FillLeading(base, target, before, done, image, screen.leading, before[dated[0]].date.value);
    } else {
      NothingToFill(base, target, before, done, image);
      now := before;
    }
    ImageFilled(base, target, now, done, image);
  }

  method FillLeadings(base: seq<Row>, images: seq<nat>, screens: map<nat, Screen>) returns (now: seq<Row>)
    requires LaidOut(base, images, screens)
    ensures now == FromLeading(base)
  {
    now := base;
    ghost var target := FromLeading(base);
    StartsHalfway(base, target);
    hide *;
    for n := 0 to |images|
      invariant Halfway(base, target, now, images[..n], [])
    {
      LaidOutAt(base, images, screens, n);
      now := FillScreen(base, target, now, images[..n], images[n], screens[images[n]]);
      TakeOneMore(images, n);
    }
    WholeTake(images);
    AllDone(base, target, now, images, screens);
  }

  lemma StartsHalfway(before: seq<Row>, target: seq<Row>)
    requires |before| == |target|
    ensures Halfway(before, target, before, [], [])
  {
  }

  lemma LaidOutAt(rows: seq<Row>, images: seq<nat>, screens: map<nat, Screen>, n: nat)
    requires LaidOut(rows, images, screens) && n < |images|
    ensures images[n] in screens && screens[images[n]] == ScreenAt(rows, images[n]) && images[n] !in images[..n]
  {
    assert images[n] in images;
  }

  lemma UntouchedImage(before: seq<Row>, target: seq<Row>, now: seq<Row>, done: seq<nat>, leading: seq<nat>, image: nat)
    requires Halfway(before, target, now, done, []) && image !in done
    requires forall i :: i in leading ==> i < |before| && before[i].imageIndex == image
    ensures |now| == |before| && forall i :: i in leading ==> now[i] == before[i]
    ensures Halfway(before, target, now, done, leading[..0])
  {
  }

  lemma TargetRow(base: seq<Row>, i: nat)
    requires i < |base|
    ensures FromLeading(base)[i] == FilledRow(base, i)
  {
  }

  lemma NothingToFill(base: seq<Row>, target: seq<Row>, now: seq<Row>, done: seq<nat>, image: nat)
    requires target == FromLeading(base) && Halfway(base, target, now, done, []) && image !in done &&
      KnownDate(base, image).None?
    ensures Halfway(base, target, now, done, ScreenAt(base, image).leading)
  {
    LeadingList(base, image);
    forall i | i in ScreenAt(base, image).leading ensures target[i] == base[i] { FilledLeadingRow(base, i, image); }
    hide ScreenAt, FromLeading;
  }

  lemma ImageFilled(base: seq<Row>, target: seq<Row>, now: seq<Row>, done: seq<nat>, image: nat)
    requires target == FromLeading(base) && Halfway(base, target, now, done, ScreenAt(base, image).leading)
    ensures Halfway(base, target, now, done + [image], [])
  {
    var leading := ScreenAt(base, image).leading;
    LeadingList(base, image);
    forall i: nat | i < |base| && base[i].imageIndex == image && i !in leading ensures target[i] == base[i] {
      assert !LeadingEvent(base, i);
    }
    hide ScreenAt, FromLeading;
    ImageDone(base, target, now, done, image, leading);
  }

  // ---- pass 3 -------------------------------------------------------------------------------------------

  method PairVoteOf(base: seq<Row>, rows: seq<Row>, screens: map<nat, Screen>, left: nat, right: nat)
    returns (vote: int)
    requires SameImages(base, rows) && left < |rows| && right < |rows|
    requires ScreensOf(base, screens)
    ensures vote == PairVote(base, rows, left)(right)
  {
    hide ScreenAt;
    if rows[right].imageIndex != rows[left].imageIndex + 1 || !CompatibleDirections(rows[left], rows[right])
    { return 0; }
    assert base[left].imageIndex == rows[left].imageIndex && base[right].imageIndex == rows[right].imageIndex;
    assert Present(base, rows[left].imageIndex) && Present(base, rows[right].imageIndex);
    var lower, upper := screens[rows[left].imageIndex], screens[rows[right].imageIndex];
    if left in lower.leading && right in upper.trailing { return 1; }
    if left in lower.trailing && right in upper.leading { return -1; }
    return 0;
  }

  lemma MemberInRange(rows: seq<Row>, members: seq<nat>, k: nat)
    requires InRange(rows, members) && k < |members|
    ensures members[k] < |rows|
  {
    assert members[k] in members;
  }

  method VotesFrom(base: seq<Row>, rows: seq<Row>, screens: map<nat, Screen>, members: seq<nat>, left: nat)
    returns (votes: int)
    requires SameImages(base, rows) && InRange(rows, members) && left < |rows|
    requires ScreensOf(base, screens)
    ensures votes == VotesOf(base, rows, members)(left)
  {
    hide *;
    votes := 0;
    NothingSummed(members, PairVote(base, rows, left));
    for r := 0 to |members|
      invariant votes == Sum(members[..r], PairVote(base, rows, left))
    {
      MemberInRange(rows, members, r);
      SumStep(members, r, PairVote(base, rows, left));
      var vote := PairVoteOf(base, rows, screens, left, members[r]);
      votes := votes + vote;
    }
    assert members[..|members|] == members;
    VotesOfMeans(base, rows, members, left);
  }

  lemma VotesOfMeans(base: seq<Row>, rows: seq<Row>, members: seq<nat>, left: nat)
    ensures VotesOf(base, rows, members)(left) == Sum(members, PairVote(base, rows, left))
  {
    hide Sum, PairVote;
  }

  method VotesWithin(base: seq<Row>, rows: seq<Row>, screens: map<nat, Screen>, group: TwinGroup) returns (votes: int)
    requires SameImages(base, rows) && InRange(rows, group.members)
    requires ScreensOf(base, screens)
    ensures votes == GroupVotes(base, rows)(group)
  {
    var members := group.members;
    hide VotesOf, Sum, SameImages, ScreensOf, InRange;
    votes := 0;
    NothingSummed(members, VotesOf(base, rows, members));
    for l := 0 to |members|
      invariant votes == Sum(members[..l], VotesOf(base, rows, members))
    {
      MemberInRange(rows, members, l);
      SumStep(members, l, VotesOf(base, rows, members));
      var more := VotesFrom(base, rows, screens, members, members[l]);
      votes := votes + more;
    }
    assert members[..|members|] == members;
  }

  method ScreenshotAboveOffset(text: Text, base: seq<Row>, rows: seq<Row>, screens: map<nat, Screen>)
    returns (above: Option<int>)
    requires SameImages(base, rows)
    requires ScreensOf(base, screens)
    ensures above == AboveOffset(text, base, rows)
  {
    var groups := TwinIndex(text, rows);
    GroupsAreInRange(text, rows);
    var votes := 0;
    hide GroupVotes, Sum, SameImages, ScreensOf, InRange, TwinGroups;
    NothingSummed(groups, GroupVotes(base, rows));
    for g := 0 to |groups|
      invariant votes == Sum(groups[..g], GroupVotes(base, rows))
    {
      assert InRange(rows, groups[g].members);
      SumStep(groups, g, GroupVotes(base, rows));
      var more := VotesWithin(base, rows, screens, groups[g]);
      votes := votes + more;
    }
    assert groups[..|groups|] == groups;
    above := if votes > 0 then Some(1) else if votes < 0 then Some(-1) else None;
  }

  lemma UnderAboveLeading(base: seq<Row>, before: seq<Row>, above: int, i: nat, image: nat)
    requires (above == 1 || above == -1) && SameImages(base, before) && i < |base|
    requires base[i].imageIndex == image
    ensures !(i in ScreenAt(base, image).leading && base[i].rowRole != UiMetadata) ==>
      UnderAboveRow(base, before, above, i) == before[i]
    ensures i in ScreenAt(base, image).leading && base[i].rowRole != UiMetadata ==>
      var right, wrong := Towards(base, image, above), Towards(base, image, -above);
      UnderAboveRow(base, before, above, i) ==
        if right.Some? && (before[i].date.None? || (wrong.Some? && wrong != right && before[i].date == wrong))
          then Dated(before[i], right.value) else before[i]
  {
    hide ScreenAt, Towards;
  }

  /** The rows as the third pass leaves them, once it knows which neighbour is above. */
  ghost function UnderAbove(base: seq<Row>, rows: seq<Row>, above: int): (r: seq<Row>)
    requires above == 1 || above == -1
    ensures |r| == |rows| && forall i :: 0 <= i < |rows| ==> r[i] == UnderAboveRow(base, rows, above, i)
  {
    seq(|rows|, i requires 0 <= i < |rows| => UnderAboveRow(base, rows, above, i))
  }

  lemma UnderAboveAt(base: seq<Row>, rows: seq<Row>, above: int, i: nat)
    requires (above == 1 || above == -1) && i < |rows|
    ensures UnderAbove(base, rows, above)[i] == UnderAboveRow(base, rows, above, i)
  {
  }

  lemma OutsideLeading(
    base: seq<Row>, before: seq<Row>, target: seq<Row>, above: int, image: nat, now: seq<Row>, done: seq<nat>)
    requires (above == 1 || above == -1) && SameImages(base, before) && target == UnderAbove(base, before, above)
    requires Halfway(before, target, now, done, ScreenAt(base, image).leading)
    ensures Halfway(before, target, now, done + [image], [])
  {
    LeadingList(base, image);
    var leading := ScreenAt(base, image).leading;
    forall i: nat | i < |before| && before[i].imageIndex == image && i !in leading ensures target[i] == before[i] {
      UnderAboveLeading(base, before, above, i, image);
      UnderAboveAt(base, before, above, i);
    }
    forall i | i in leading ensures i < |before| && before[i].imageIndex == image
    { assert base[i].imageIndex == before[i].imageIndex; }
    hide ScreenAt, UnderAbove, UnderAboveRow;
    ImageDone(before, target, now, done, image, leading);
  }

  lemma NoDividerAbove(
    base: seq<Row>, before: seq<Row>, target: seq<Row>, above: int, image: nat, now: seq<Row>, done: seq<nat>)
    requires (above == 1 || above == -1) && SameImages(base, before) && target == UnderAbove(base, before, above)
    requires Halfway(before, target, now, done, []) && Towards(base, image, above).None?
    ensures Halfway(before, target, now, done, ScreenAt(base, image).leading)
  {
    LeadingList(base, image);
    forall i | i in ScreenAt(base, image).leading ensures i < |before| && target[i] == before[i] {
      UnderAboveLeading(base, before, above, i, image);
      UnderAboveAt(base, before, above, i);
    }
    hide ScreenAt, UnderAbove, UnderAboveRow;
  }

  lemma StartLeading(base: seq<Row>, before: seq<Row>, target: seq<Row>, now: seq<Row>, done: seq<nat>, image: nat)
    requires SameImages(base, before) && Halfway(before, target, now, done, []) && image !in done
    ensures var leading := ScreenAt(base, image).leading;
      && (forall i :: i in leading ==> i < |before| && before[i].imageIndex == image && base[i].imageIndex == image)
      && Halfway(before, target, now, done, leading[..0])
      && (forall a, b :: 0 <= a < b < |leading| ==> leading[a] != leading[b])
  {
    LeadingList(base, image);
    hide ScreenAt;
  }

  method PlaceScreen(
    base: seq<Row>, ghost before: seq<Row>, ghost target: seq<Row>, start: seq<Row>, ghost done: seq<nat>,
    ghost image: nat, screen: Screen,
    ghost above: int, right: string, wrong: Option<string>)
    returns (now: seq<Row>)
    requires (above == 1 || above == -1) && SameImages(base, before) && target == UnderAbove(base, before, above)
    requires Halfway(before, target, start, done, []) && image !in done && screen == ScreenAt(base, image)
    requires Towards(base, image, above) == Some(right) && Towards(base, image, -above) == wrong
    ensures Halfway(before, target, now, done + [image], [])
  {
    var leading := screen.leading;
    now := start;
    StartLeading(base, before, target, now, done, image);
    for k := 0 to |leading|
      invariant |now| == |before| == |base| && Halfway(before, target, now, done, leading[..k])
    {
      hide *;
      var i := leading[k];
      assert i in leading;
      RowUntouched(before, target, now, done, leading, k);
      UnderAboveLeading(base, before, above, i, image);
      UnderAboveAt(base, before, above, i);
      RowDone(before, target, now, done, leading, k);
      ghost var next := now[i := target[i]];
      if base[i].rowRole != UiMetadata && (now[i].date.None? ||
        (wrong.Some? && wrong != Some(right) && now[i].date == wrong)) {
        now := now[i := Dated(now[i], right)];
      }
      assert now == next;
    }
    assert leading[..|leading|] == leading;
    OutsideLeading(base, before, target, above, image, now, done);
  }

  method PlaceLeadings(base: seq<Row>, before: seq<Row>, images: seq<nat>, screens: map<nat, Screen>, above: int)
    returns (now: seq<Row>)
    requires LaidOut(base, images, screens) && SameImages(base, before) && (above == 1 || above == -1)
    ensures now == UnderAbove(base, before, above)
  {
    now := before;
    ghost var target := UnderAbove(base, before, above);
    StartsHalfway(before, target);
    LaidOutAfter(base, before, images, screens);
    hide *;
    for n := 0 to |images|
      invariant Halfway(before, target, now, images[..n], [])
    {
      var m := images[n];
      LaidOutAt(base, images, screens, n);
      ScreensAsLaidOut(base, images, screens);
      var right := LastDividerTowards(base, screens, m, above);
      if right.Some? {
        var wrong := LastDividerTowards(base, screens, m, -above);
        now := PlaceScreen(base, before, target, now, images[..n], m, screens[m], above, right.value, wrong);
      } else {
        NoDividerAbove(base, before, target, above, m, now, images[..n]);
        OutsideLeading(base, before, target, above, m, now, images[..n]);
      }
      TakeOneMore(images, n);
    }
    WholeTake(images);
    AllPlaced(before, target, now, images);
  }

  lemma ScreensAsLaidOut(rows: seq<Row>, images: seq<nat>, screens: map<nat, Screen>)
    requires LaidOut(rows, images, screens)
    ensures ScreensOf(rows, screens)
    ensures forall m :: m in screens <==> Present(rows, m)
    ensures forall m :: m in screens ==> screens[m] == ScreenAt(rows, m)
  {
  }

  ghost predicate AllImages(rows: seq<Row>, images: seq<nat>) {
    forall i :: 0 <= i < |rows| ==> rows[i].imageIndex in images
  }

  lemma LaidOutAfter(base: seq<Row>, before: seq<Row>, images: seq<nat>, screens: map<nat, Screen>)
    requires LaidOut(base, images, screens) && SameImages(base, before)
    ensures AllImages(before, images)
  {
    forall i | 0 <= i < |before| ensures before[i].imageIndex in images {
      assert base[i].imageIndex == before[i].imageIndex;
      assert Present(base, base[i].imageIndex);
    }
  }

  lemma AllPlaced(before: seq<Row>, target: seq<Row>, now: seq<Row>, images: seq<nat>)
    requires Halfway(before, target, now, images, []) && AllImages(before, images)
    ensures now == target
  {
  }

  // ---- pass 4 and the whole -----------------------------------------------------------------------------

  function StandsUnderDivider(screens: map<nat, Screen>, now: seq<Row>): nat -> bool {
    (i: nat) => i < |now| && !now[i].dateInferred && now[i].imageIndex in screens &&
      i !in screens[now[i].imageIndex].leading
  }

  lemma StandsAsSpecified(base: seq<Row>, now: seq<Row>, screens: map<nat, Screen>, i: nat)
    requires ScreensOf(base, screens) && SameImages(base, now)
    ensures StandsUnderDivider(screens, now)(i) <==> UnderOwnDivider(base, now)(i)
  {
    hide ScreenAt;
    if i < |now| {
      assert base[i].imageIndex == now[i].imageIndex;
      assert Present(base, now[i].imageIndex);
    }
  }

  lemma AnchorsAsSpecified(base: seq<Row>, now: seq<Row>, screens: map<nat, Screen>, members: seq<nat>)
    requires ScreensOf(base, screens) && SameImages(base, now)
    ensures Filter(members, StandsUnderDivider(screens, now)) == Filter(members, UnderOwnDivider(base, now))
  {
    forall i | i in members ensures StandsUnderDivider(screens, now)(i) == UnderOwnDivider(base, now)(i)
    { StandsAsSpecified(base, now, screens, i); }
    hide StandsUnderDivider, UnderOwnDivider;
    FilterAgrees<nat>(members, StandsUnderDivider(screens, now), UnderOwnDivider(base, now));
  }

  lemma AnchoredKeepsImages(base: seq<Row>, rows: seq<Row>, anchors: seq<nat>, i: nat)
    requires i < |rows|
    ensures SameImages(rows, Anchored(base, rows, anchors, i))
  {
    hide UnderOwnDivider, OneDate, IsMatch, Filter;
  }

  lemma SameImagesChain(a: seq<Row>, b: seq<Row>, c: seq<Row>)
    requires SameImages(a, b) && SameImages(b, c)
    ensures SameImages(a, c)
  {
  }

  method AnchorOne(base: seq<Row>, rows: seq<Row>, screens: map<nat, Screen>, anchors: seq<nat>, i: nat)
    returns (now: seq<Row>)
    requires ScreensOf(base, screens) && SameImages(base, rows) && i < |rows| && InRange(rows, anchors)
    ensures now == Anchored(base, rows, anchors, i)
  {
    StandsAsSpecified(base, rows, screens, i);
    hide ScreensOf, SameImages, StandsUnderDivider, UnderOwnDivider;
    now := rows;
    if StandsUnderDivider(screens, rows)(i) || (rows[i].relation.Some? && rows[i].relation.value.kind != FxFor)
    { return; }
    var matches := Filter(anchors, IsMatch(rows, i));
    OneDateOnly(rows, matches);
    hide Filter, DatesOf, OneDate;
    if |DatesOf(rows, matches)| != 1 { return; }
    OneDateHead(rows, matches);
    var a := matches[0];
    if rows[a].date.Some? && now[i].date != rows[a].date { now := now[i := Dated(now[i], rows[a].date.value)]; }
    if rows[a].relation == Some(Relation(DuplicateOf, rows[i].rowId)) { return; }
    if now[i].relation.Some? && now[i].relation.value.kind == FxFor {
      if now[a].relation.None? { now := now[a := LinkTo(now[a], rows[i].rowId)]; }
      return;
    }
    now := now[i := LinkTo(now[i], rows[a].rowId)];
  }

  lemma OneDateHead(rows: seq<Row>, list: seq<nat>)
    requires OneDate(rows, list)
    ensures list != [] && list[0] < |rows|
  {
  }

  /** The loop over one group, so far. */
  ghost predicate Anchoring(
    base: seq<Row>, rows: seq<Row>, now: seq<Row>, anchors: seq<nat>, members: seq<nat>, n: nat)
  {
    n <= |members| && InRange(rows, members) && InRange(rows, anchors) &&
    now == AnchorMembers(base, rows, anchors, members, n) && SameImages(base, now)
  }

  lemma AnchoringStep(base: seq<Row>, rows: seq<Row>, now: seq<Row>, anchors: seq<nat>, members: seq<nat>, n: nat)
    requires Anchoring(base, rows, now, anchors, members, n) && n < |members|
    ensures members[n] < |now| && InRange(now, anchors) && SameImages(base, now)
    ensures Anchoring(base, rows, Anchored(base, now, anchors, members[n]), anchors, members, n + 1)
  {
    MemberInRange(rows, members, n);
    SameRange(rows, now, anchors);
    AnchoredKeepsImages(base, now, anchors, members[n]);
    SameImagesChain(base, now, Anchored(base, now, anchors, members[n]));
    hide SameImages, InRange, Anchored;
  }

  lemma AnchoringDone(base: seq<Row>, rows: seq<Row>, now: seq<Row>, members: seq<nat>)
    requires InRange(rows, members) && |members| >= 2
    requires Anchoring(base, rows, now, Filter(members, UnderOwnDivider(base, rows)), members, |members|)
    ensures now == AnchorGroup(base, rows, members) && SameImages(base, now)
  {
    hide SameImages, InRange, Filter, AnchorMembers, UnderOwnDivider;
  }

  method AnchorAll(base: seq<Row>, rows: seq<Row>, screens: map<nat, Screen>, members: seq<nat>) returns (now: seq<Row>)
    requires ScreensOf(base, screens) && SameImages(base, rows) && InRange(rows, members)
    ensures now == AnchorGroup(base, rows, members) && SameImages(base, now)
  {
    hide *;
    now := rows;
    if |members| < 2 {
      LoneMember(base, rows, members);
      return;
    }
    var anchors := Filter(members, StandsUnderDivider(screens, rows));
    AnchorsAsSpecified(base, rows, screens, members);
    AnchorsInRange(rows, members, StandsUnderDivider(screens, rows));
    AnchoringStarts(base, rows, anchors, members);
    for k := 0 to |members|
      invariant Anchoring(base, rows, now, anchors, members, k)
    {
      AnchoringStep(base, rows, now, anchors, members, k);
      now := AnchorOne(base, now, screens, anchors, members[k]);
    }
    AnchoringDone(base, rows, now, members);
  }

  lemma LoneMember(base: seq<Row>, rows: seq<Row>, members: seq<nat>)
    requires InRange(rows, members) && |members| < 2
    ensures AnchorGroup(base, rows, members) == rows
  {
  }

  lemma AnchoringStarts(base: seq<Row>, rows: seq<Row>, anchors: seq<nat>, members: seq<nat>)
    requires InRange(rows, members) && InRange(rows, anchors) && SameImages(base, rows)
    ensures Anchoring(base, rows, rows, anchors, members, 0)
  {
  }

  lemma AnchorsInRange(rows: seq<Row>, members: seq<nat>, p: nat -> bool)
    requires InRange(rows, members)
    ensures InRange(rows, Filter(members, p))
  {
  }

  lemma SameRange(a: seq<Row>, b: seq<Row>, list: seq<nat>)
    requires |a| == |b| && InRange(a, list)
    ensures InRange(b, list)
  {
  }

  method AnchorTwins(text: Text, rows: seq<Row>) returns (now: seq<Row>)
    ensures now == FromAnchors(text, rows)
  {
    var images, screens := LayoutScreenshots(rows);
    var groups := TwinIndex(text, rows);
    GroupsAreInRange(text, rows);
    assert FromAnchors(text, rows) == AnchorGroups(rows, rows, groups, |groups|);
    now := rows;
    assert SameImages(rows, now) && ScreensOf(rows, screens);
    hide TwinGroups, FromAnchors, AnchorGroup, ScreensOf, SameImages, ScreenAt, Present;
    for g := 0 to |groups|
      invariant now == AnchorGroups(rows, rows, groups, g) && SameImages(rows, now)
    {
      assert InRange(rows, groups[g].members);
      SameRange(rows, now, groups[g].members);
      now := AnchorAll(rows, now, screens, groups[g].members);
    }
  }

  lemma FromLeadingKeepsImages(rows: seq<Row>)
    ensures SameImages(rows, FromLeading(rows))
  {
    hide KnownDate, LeadingEvent;
  }

  lemma FromAboveIs(text: Text, base: seq<Row>, rows: seq<Row>)
    ensures var above := AboveOffset(text, base, rows);
      FromAbove(text, base, rows) == if above.None? then rows else UnderAbove(base, rows, above.value)
  {
    hide UnderAboveRow, Sum, TwinGroups;
  }

  /** The rows with every date that can be inferred, as `Inferred` says. */
  method InferImportDates(text: Text, rows: seq<Row>) returns (now: seq<Row>)
    requires DistinctRows(rows)
    ensures now == Inferred(text, rows)
  {
    ghost var inferred := Inferred(text, rows);
    assert inferred == FromAnchors(text, FromAbove(text, FromTwins(text, rows), FromLeading(FromTwins(text, rows))));
    hide *;
    var base := FillFromTwins(text, rows);
    var images, screens := LayoutScreenshots(base);
    ScreensLaidOut(base, images, screens);
    now := FillLeadings(base, images, screens);
    FromLeadingKeepsImages(base);
    FromAboveIs(text, base, now);
    var above := ScreenshotAboveOffset(text, base, now, screens);
    if above.Some? {
      AboveIsUnit(text, base, now);
      now := PlaceLeadings(base, now, images, screens, above.value);
    }
    now := AnchorTwins(text, now);
  }

  lemma ScreensLaidOut(rows: seq<Row>, images: seq<nat>, screens: map<nat, Screen>)
    requires forall m :: m in screens <==> Present(rows, m)
    requires EachOnce(images) && forall m :: m in images <==> Present(rows, m)
    requires forall m :: m in screens ==> screens[m] == ScreenAt(rows, m)
    ensures LaidOut(rows, images, screens) && ScreensOf(rows, screens)
  {
  }
}
