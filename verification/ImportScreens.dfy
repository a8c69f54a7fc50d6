/**
 * What the rows of an import say about their screenshots: repeated entries, date dividers, leading and trailing
 * blocks.
 */
module ImportScreens {
  import opened Sequences
  import opened Sorting
  import opened Decimals
  import opened ImportRows
  import opened ImportChunks

  /** Four digits, two digits, two digits, separated by dashes. */
  predicate IsDateText(s: string) {
    |s| == 10 && s[4] == '-' && s[7] == '-' &&
    forall i :: 0 <= i < 10 && i != 4 && i != 7 ==> IsDigit(s[i])
  }

  predicate IsDivider(r: Row) { r.rowRole == UiMetadata && r.date.Some? && IsDateText(r.date.value) }

  predicate IsTwinCandidate(r: Row) { r.rowRole == FinancialEvent && HasPositiveAmount(r.amount) && r.currency.Some? }

  predicate CompatibleDirections(a: Row, b: Row) {
    a.direction == UnknownDirection || b.direction == UnknownDirection || a.direction == b.direction
  }

  // ---- repeated entries ---------------------------------------------------------------------------------

  type Text = seq<string> -> string

  datatype Key = Key(text: string, amount: int, currency: string)

  function TwinKey(text: Text, r: Row): Key
    requires IsTwinCandidate(r)
  {
    Key(text(r.rawTextLines), r.amount.value, r.currency.value)
  }

  /** The same visible entry: same text, amount and currency. */
  predicate SameTwin(text: Text, a: Row, b: Row) {
    IsTwinCandidate(a) && IsTwinCandidate(b) && TwinKey(text, a) == TwinKey(text, b)
  }

  datatype TwinGroup = TwinGroup(key: Key, members: seq<nat>)

  function AddTwin(groups: seq<TwinGroup>, key: Key, n: nat): seq<TwinGroup> {
    if groups == [] then [TwinGroup(key, [n])]
    else if groups[0].key == key then [TwinGroup(key, groups[0].members + [n])] + groups[1..]
    else [groups[0]] + AddTwin(groups[1..], key, n)
  }

  /** Groups in the order their first member appears, members in the order of the rows. */
  function TwinGroups(text: Text, rows: seq<Row>, n: nat): seq<TwinGroup>
    requires n <= |rows|
  {
    if n == 0 then []
    else if IsTwinCandidate(rows[n - 1]) then AddTwin(TwinGroups(text, rows, n - 1), TwinKey(text, rows[n - 1]), n - 1)
    else TwinGroups(text, rows, n - 1)
  }

  function AsGroups(order: seq<Key>, index: map<Key, seq<nat>>): seq<TwinGroup>
    requires forall k :: k in order ==> k in index
  {
    if order == [] then [] else [TwinGroup(order[0], index[order[0]])] + AsGroups(order[1..], index)
  }

  lemma {:induction false} AsGroupsElsewhere(order: seq<Key>, index: map<Key, seq<nat>>, key: Key, members: seq<nat>)
    requires (forall k :: k in order ==> k in index) && key !in order
    ensures AsGroups(order, index[key := members]) == AsGroups(order, index)
  {
    if order != [] { AsGroupsElsewhere(order[1..], index, key, members); }
  }

  lemma {:induction false} AddToKnownGroup(order: seq<Key>, index: map<Key, seq<nat>>, key: Key, n: nat)
    requires (forall k :: k in order ==> k in index) && EachOnce(order) && key in order
    ensures AsGroups(order, index[key := index[key] + [n]]) == AddTwin(AsGroups(order, index), key, n)
  {
    if order[0] == key {
      AsGroupsElsewhere(order[1..], index, key, index[key] + [n]);
    } else {
      AddToKnownGroup(order[1..], index, key, n);
    }
  }

  lemma {:induction false} AddNewGroup(order: seq<Key>, index: map<Key, seq<nat>>, key: Key, n: nat)
    requires (forall k :: k in order ==> k in index) && key !in order
    ensures AsGroups(order + [key], index[key := [n]]) == AddTwin(AsGroups(order, index), key, n)
  {
    if order == [] {
      assert (order + [key])[1..] == [];
    } else {
      AddNewGroup(order[1..], index, key, n);
      assert (order + [key])[1..] == order[1..] + [key];
    }
  }

  method TwinIndex(text: Text, rows: seq<Row>) returns (groups: seq<TwinGroup>)
    ensures groups == TwinGroups(text, rows, |rows|)
  {
    var order: seq<Key> := [];
    var index: map<Key, seq<nat>> := map[];
    for n := 0 to |rows|
      invariant EachOnce(order) && forall k :: k in index <==> k in order
      invariant AsGroups(order, index) == TwinGroups(text, rows, n)
    {
      if IsTwinCandidate(rows[n]) {
        var key := TwinKey(text, rows[n]);
        if key in index {
          AddToKnownGroup(order, index, key, n);
          index := index[key := index[key] + [n]];
        } else {
          AddNewGroup(order, index, key, n);
          order := order + [key];
          index := index[key := [n]];
        }
      }
    }
    groups := AsGroups(order, index);
  }

  ghost predicate MembersMean(text: Text, rows: seq<Row>, n: nat, group: TwinGroup)
    requires n <= |rows|
  {
    forall i: nat :: i in group.members <==> i < n && IsTwinCandidate(rows[i]) && TwinKey(text, rows[i]) == group.key
  }

  lemma MembersGrow(text: Text, rows: seq<Row>, n: nat, group: TwinGroup)
    requires n < |rows| && MembersMean(text, rows, n, group)
    ensures !(IsTwinCandidate(rows[n]) && TwinKey(text, rows[n]) == group.key) ==> MembersMean(text, rows, n + 1, group)
    ensures IsTwinCandidate(rows[n]) && TwinKey(text, rows[n]) == group.key ==>
      MembersMean(text, rows, n + 1, TwinGroup(group.key, group.members + [n]))
  {
  }

  /** The group of an entry holds exactly the rows that repeat it. */
  ghost predicate GroupsMean(text: Text, rows: seq<Row>, n: nat, groups: seq<TwinGroup>)
    requires n <= |rows|
  {
    && (forall a, b :: 0 <= a < b < |groups| ==> groups[a].key != groups[b].key)
    && (forall g :: 0 <= g < |groups| ==> MembersMean(text, rows, n, groups[g]))
    && (forall i :: 0 <= i < n && IsTwinCandidate(rows[i]) ==>
      exists g :: 0 <= g < |groups| && groups[g].key == TwinKey(text, rows[i]))
  }

  lemma {:induction false} AddTwinAt(groups: seq<TwinGroup>, key: Key, n: nat) returns (at: nat)
    requires forall a, b :: 0 <= a < b < |groups| ==> groups[a].key != groups[b].key
    ensures at <= |groups| && (forall a :: 0 <= a < |groups| ==> (groups[a].key == key <==> a == at))
    ensures AddTwin(groups, key, n) ==
      if at < |groups| then groups[at := TwinGroup(key, groups[at].members + [n])] else groups + [TwinGroup(key, [n])]
  {
    if groups == [] || groups[0].key == key {
      at := 0;
    } else {
      var next := AddTwinAt(groups[1..], key, n);
      at := next + 1;
    }
  }

  lemma GroupKeysDiffer(text: Text, rows: seq<Row>, n: nat, groups: seq<TwinGroup>)
    requires n <= |rows| && GroupsMean(text, rows, n, groups)
    ensures forall a, b :: 0 <= a < b < |groups| ==> groups[a].key != groups[b].key
  {
  }

  lemma GroupsKeep(text: Text, rows: seq<Row>, n: nat, groups: seq<TwinGroup>)
    requires n < |rows| && GroupsMean(text, rows, n, groups) && !IsTwinCandidate(rows[n])
    ensures GroupsMean(text, rows, n + 1, groups)
  {
    forall g | 0 <= g < |groups| ensures MembersMean(text, rows, n + 1, groups[g])
    { MembersGrow(text, rows, n, groups[g]); }
    hide MembersMean, IsTwinCandidate;
  }

  lemma {:induction false} TwinGroupsMean(text: Text, rows: seq<Row>, n: nat)
    requires n <= |rows|
    ensures GroupsMean(text, rows, n, TwinGroups(text, rows, n))
  {
    if n > 0 {
      var before := TwinGroups(text, rows, n - 1);
      assert TwinGroups(text, rows, n) ==
        if IsTwinCandidate(rows[n - 1]) then AddTwin(before, TwinKey(text, rows[n - 1]), n - 1) else before;
      hide *;
      TwinGroupsMean(text, rows, n - 1);
      if IsTwinCandidate(rows[n - 1]) {
        var key := TwinKey(text, rows[n - 1]);
        GroupKeysDiffer(text, rows, n - 1, before);
        var at := AddTwinAt(before, key, n - 1);
        GroupsGrow(text, rows, n - 1, before, AddTwin(before, key, n - 1), at);
      } else {
        GroupsKeep(text, rows, n - 1, before);
      }
    }
  }

  lemma MembersStart(text: Text, rows: seq<Row>, n: nat, before: seq<TwinGroup>)
    requires n < |rows| && GroupsMean(text, rows, n, before) && IsTwinCandidate(rows[n])
    requires forall a :: 0 <= a < |before| ==> before[a].key != TwinKey(text, rows[n])
    ensures MembersMean(text, rows, n + 1, TwinGroup(TwinKey(text, rows[n]), [n]))
  {
    forall i: nat | i < n && IsTwinCandidate(rows[i]) ensures TwinKey(text, rows[i]) != TwinKey(text, rows[n]) {
      var g :| 0 <= g < |before| && before[g].key == TwinKey(text, rows[i]);
    }
  }

  lemma GroupsGrow(text: Text, rows: seq<Row>, n: nat, before: seq<TwinGroup>, after: seq<TwinGroup>, at: nat)
    requires n < |rows| && GroupsMean(text, rows, n, before) && IsTwinCandidate(rows[n])
    requires at <= |before| && forall a :: 0 <= a < |before| ==> (before[a].key == TwinKey(text, rows[n]) <==> a == at)
    requires after == if at < |before| then before[at := TwinGroup(TwinKey(text, rows[n]), before[at].members + [n])]
      else before + [TwinGroup(TwinKey(text, rows[n]), [n])]
    ensures GroupsMean(text, rows, n + 1, after)
  {
    forall g | 0 <= g < |before| ensures MembersMean(text, rows, n + 1, after[g])
    { MembersGrow(text, rows, n, before[g]); }
    if at == |before| { MembersStart(text, rows, n, before); }
    hide MembersMean;
    forall i | 0 <= i < n + 1 && IsTwinCandidate(rows[i])
      ensures exists g :: 0 <= g < |after| && after[g].key == TwinKey(text, rows[i])
    {
      if i == n {
        assert after[at].key == TwinKey(text, rows[i]);
      } else {
        var g :| 0 <= g < |before| && before[g].key == TwinKey(text, rows[i]);
        assert after[g].key == TwinKey(text, rows[i]);
      }
    }
  }

  // ---- the layout of a screenshot -----------------------------------------------------------------------

  datatype Entry = Entry(row: Row, inputOrder: nat)

  function ByScreen(): (Entry, Entry) -> bool {
    (a: Entry, b: Entry) => Before(a.row, b.row) || (!Before(b.row, a.row) && a.inputOrder <= b.inputOrder)
  }

  function Entries(rows: seq<Row>): seq<Entry> { seq(|rows|, i requires 0 <= i < |rows| => Entry(rows[i], i)) }

  function InputOrder(): Entry -> nat { (e: Entry) => e.inputOrder }

  /** The rows from the first screenshot to the last, top to bottom. */
  function ScreenOrdered(rows: seq<Row>): seq<nat> { Map(Sort(Entries(rows), ByScreen()), InputOrder()) }

  predicate ScreenBefore(rows: seq<Row>, i: nat, j: nat)
    requires i < |rows| && j < |rows|
  {
    var a, b := rows[i], rows[j];
    a.imageIndex < b.imageIndex || (a.imageIndex == b.imageIndex &&
      (a.visualOrder < b.visualOrder || (a.visualOrder == b.visualOrder && i < j)))
  }

  predicate Descending(rows: seq<Row>, list: seq<nat>) {
    (forall a :: 0 <= a < |list| ==> list[a] < |rows|) &&
    (forall a, b :: 0 <= a < b < |list| ==> ScreenBefore(rows, list[a], list[b]))
  }

  lemma ByScreenOrders()
    ensures TotalOrder(ByScreen())
  {
  }

  lemma EntriesOnce(rows: seq<Row>, s: seq<Entry>)
    requires multiset(s) == multiset(Entries(rows))
    ensures forall a :: 0 <= a < |s| ==> s[a].inputOrder < |rows| && s[a].row == rows[s[a].inputOrder]
    ensures forall a, b :: 0 <= a < b < |s| ==> s[a].inputOrder != s[b].inputOrder
    ensures forall i :: 0 <= i < |rows| ==> Entry(rows[i], i) in s
  {
    SameElements(s, Entries(rows));
    SameElements(Entries(rows), s);
    forall a | 0 <= a < |s| ensures s[a].inputOrder < |rows| && s[a].row == rows[s[a].inputOrder] {
      assert s[a] in Entries(rows);
    }
    forall a, b | 0 <= a < b < |s| ensures s[a].inputOrder != s[b].inputOrder {
      EntryCountedOnce(rows, s[a]);
      if s[a] == s[b] { TwiceCounted(s, a, b); }
    }
    forall i | 0 <= i < |rows| ensures Entry(rows[i], i) in s {
      assert Entries(rows)[i] in Entries(rows);
    }
  }

  lemma {:induction false} EntryCountedOnce(rows: seq<Row>, e: Entry)
    ensures multiset(Entries(rows))[e] <= 1
  {
    if rows != [] {
      var n := |rows| - 1;
      EntryCountedOnce(rows[..n], e);
      assert Entries(rows) == Entries(rows[..n]) + [Entry(rows[n], n)];
      if e == Entry(rows[n], n) { assert e !in Entries(rows[..n]); }
    }
  }

  lemma {:induction false} ScreenOrderedMeans(rows: seq<Row>)
    ensures Descending(rows, ScreenOrdered(rows))
    ensures forall i: nat :: i in ScreenOrdered(rows) <==> i < |rows|
  {
    var s := Sort(Entries(rows), ByScreen());
    SortKeeps(Entries(rows), ByScreen());
    ByScreenOrders();
    SortOrdered(Entries(rows), ByScreen());
    EntriesOnce(rows, s);
    hide Sort, TotalOrder, Entries, Before;
    var list := ScreenOrdered(rows);
    forall a, b | 0 <= a < b < |list| ensures ScreenBefore(rows, list[a], list[b]) {
      assert ByScreen()(s[a], s[b]);
    }
    forall i: nat | i < |rows| ensures i in list {
      var a :| 0 <= a < |s| && s[a] == Entry(rows[i], i);
      assert list[a] == i;
    }
  }

  function OfImageAt(rows: seq<Row>, image: nat): nat -> bool { (i: nat) => i < |rows| && rows[i].imageIndex == image }

  function ImageRows(rows: seq<Row>, image: nat): seq<nat> { Filter(ScreenOrdered(rows), OfImageAt(rows, image)) }

  function Above(rows: seq<Row>): (nat, nat) -> bool {
    (i: nat, j: nat) => i < |rows| && j < |rows| && ScreenBefore(rows, i, j)
  }

  lemma FilterDescends(rows: seq<Row>, list: seq<nat>, p: nat -> bool)
    requires Descending(rows, list)
    ensures Descending(rows, Filter(list, p))
  {
    hide ScreenBefore;
    FilterOrdered(list, p, Above(rows));
    hide Filter;
    var kept := Filter(list, p);
    forall a | 0 <= a < |kept| ensures kept[a] < |rows| { assert kept[a] in list; }
    forall a, b | 0 <= a < b < |kept| ensures ScreenBefore(rows, kept[a], kept[b])
    { assert Above(rows)(kept[a], kept[b]); }
  }

  /** One screenshot: its rows, those above its first date divider, those below its last, and that divider's date. */
  datatype Screen = Screen(rows: seq<nat>, leading: seq<nat>, trailing: seq<nat>, lastDividerDate: Option<string>)

  predicate IsDividerAt(rows: seq<Row>, i: nat) { i < |rows| && IsDivider(rows[i]) }

  function FirstDivider(rows: seq<Row>, list: seq<nat>): (at: nat)
    ensures at <= |list|
  {
    if list == [] || IsDividerAt(rows, list[0]) then 0 else 1 + FirstDivider(rows, list[1..])
  }

  function AfterLastDivider(rows: seq<Row>, list: seq<nat>): (at: nat)
    ensures at <= |list| && (at > 0 ==> IsDividerAt(rows, list[at - 1]))
  {
    if list == [] then 0 else if IsDividerAt(rows, list[|list| - 1]) then |list|
      else AfterLastDivider(rows, list[..|list| - 1])
  }

  function ScreenOf(rows: seq<Row>, list: seq<nat>): Screen {
    var after := AfterLastDivider(rows, list);
    Screen(list, list[..FirstDivider(rows, list)], if after == 0 then [] else list[after..],
           if after == 0 then None else rows[list[after - 1]].date)
  }

  lemma {:induction false} FirstDividerMeans(rows: seq<Row>, list: seq<nat>)
    ensures var at := FirstDivider(rows, list);
      (forall a :: 0 <= a < at ==> !IsDividerAt(rows, list[a])) && (at < |list| ==> IsDividerAt(rows, list[at]))
  {
    if list != [] && !IsDividerAt(rows, list[0]) { FirstDividerMeans(rows, list[1..]); }
  }

  lemma {:induction false} AfterLastDividerMeans(rows: seq<Row>, list: seq<nat>)
    ensures forall a :: AfterLastDivider(rows, list) <= a < |list| ==> !IsDividerAt(rows, list[a])
  {
    if list != [] && !IsDividerAt(rows, list[|list| - 1]) { AfterLastDividerMeans(rows, list[..|list| - 1]); }
  }

  // What the lists say, without lists.

  predicate LeadingAt(rows: seq<Row>, i: nat)
    requires i < |rows|
  {
    forall j :: 0 <= j < |rows| && IsDivider(rows[j]) && rows[j].imageIndex == rows[i].imageIndex ==>
      ScreenBefore(rows, i, j)
  }

  predicate IsLastDivider(rows: seq<Row>, image: nat, k: nat) {
    k < |rows| && IsDivider(rows[k]) && rows[k].imageIndex == image &&
    forall j :: 0 <= j < |rows| && j != k && IsDivider(rows[j]) && rows[j].imageIndex == image ==>
      ScreenBefore(rows, j, k)
  }

  predicate TrailingAt(rows: seq<Row>, i: nat)
    requires i < |rows|
  {
    exists k :: 0 <= k < |rows| && IsLastDivider(rows, rows[i].imageIndex, k) && ScreenBefore(rows, k, i)
  }

  function ScreenAt(rows: seq<Row>, image: nat): Screen { ScreenOf(rows, ImageRows(rows, image)) }

  function LastDividerDate(rows: seq<Row>, image: nat): Option<string> { ScreenAt(rows, image).lastDividerDate }

  lemma ImageRowsMean(rows: seq<Row>, image: nat)
    ensures Descending(rows, ImageRows(rows, image))
    ensures forall i: nat :: i in ImageRows(rows, image) <==> i < |rows| && rows[i].imageIndex == image
  {
    ScreenOrderedMeans(rows);
    FilterDescends(rows, ScreenOrdered(rows), OfImageAt(rows, image));
    hide ScreenOrdered, Descending, Filter;
    forall i: nat ensures i in ImageRows(rows, image) <==> i < |rows| && rows[i].imageIndex == image {
      FilterMember(ScreenOrdered(rows), OfImageAt(rows, image), i);
    }
  }

  lemma ScreenBeforeStrict(rows: seq<Row>, i: nat, j: nat)
    requires i < |rows| && j < |rows|
    ensures !(ScreenBefore(rows, i, j) && ScreenBefore(rows, j, i))
  {
  }

  lemma OnePosition(rows: seq<Row>, list: seq<nat>)
    requires Descending(rows, list)
    ensures forall a, b :: 0 <= a < b < |list| ==> list[a] != list[b]
  {
    forall a, b | 0 <= a < b < |list| ensures list[a] != list[b] { ScreenBeforeStrict(rows, list[a], list[b]); }
  }

  lemma AboveFirstDivider(rows: seq<Row>, list: seq<nat>, image: nat, at: nat, i: nat)
    requires Descending(rows, list) && forall i: nat :: i in list <==> i < |rows| && rows[i].imageIndex == image
    requires at <= |list| && (forall a :: 0 <= a < at ==> !IsDividerAt(rows, list[a])) &&
      (at < |list| ==> IsDividerAt(rows, list[at]))
    ensures i in list[..at] <==> i < |rows| && rows[i].imageIndex == image && LeadingAt(rows, i)
  {
    OnePosition(rows, list);
    hide ScreenBefore, IsDivider;
    if i in list {
      var a :| 0 <= a < |list| && list[a] == i;
      if a < at {
        forall j | 0 <= j < |rows| && IsDivider(rows[j]) &&
          rows[j].imageIndex == image ensures ScreenBefore(rows, i, j) {
          var b :| 0 <= b < |list| && list[b] == j;
        }
        assert list[..at][a] == i;
      } else {
        assert list[at] in list;
        ScreenBeforeStrict(rows, i, list[at]);
      }
    }
  }

  /** The leading block is what stands above every date divider of the screenshot. */
  lemma {:induction false} LeadingMeans(rows: seq<Row>, image: nat, i: nat)
    ensures i in ScreenAt(rows, image).leading <==> i < |rows| && rows[i].imageIndex == image && LeadingAt(rows, i)
  {
    var list := ImageRows(rows, image);
    ImageRowsMean(rows, image);
    FirstDividerMeans(rows, list);
    assert ScreenAt(rows, image).leading == list[..FirstDivider(rows, list)];
    hide *;
    AboveFirstDivider(rows, list, image, FirstDivider(rows, list), i);
  }

  lemma {:induction false} LastDividerMeans(rows: seq<Row>, image: nat)
    ensures var date := LastDividerDate(rows, image);
      && (date.None? <==> forall k :: 0 <= k < |rows| && rows[k].imageIndex == image ==> !IsDivider(rows[k]))
      && (date.Some? ==> exists k :: 0 <= k < |rows| && IsLastDivider(rows, image, k) && rows[k].date == date)
  {
    var list := ImageRows(rows, image);
    ImageRowsMean(rows, image);
    AfterLastDividerMeans(rows, list);
    hide ImageRows, FirstDivider, AfterLastDivider, Before;
    var after := AfterLastDivider(rows, list);
    if after == 0 {
      forall k | 0 <= k < |rows| && rows[k].imageIndex == image ensures !IsDivider(rows[k]) {
        var a :| 0 <= a < |list| && list[a] == k;
      }
    } else {
      var k := list[after - 1];
      assert k in list;
      forall j | 0 <= j < |rows| && j != k && IsDivider(rows[j]) &&
        rows[j].imageIndex == image ensures ScreenBefore(rows, j, k) {
        var a :| 0 <= a < |list| && list[a] == j;
      }
      assert IsLastDivider(rows, image, k);
    }
  }

  lemma {:induction false} TrailingMeans(rows: seq<Row>, image: nat, i: nat)
    ensures i in ScreenAt(rows, image).trailing <==> i < |rows| && rows[i].imageIndex == image && TrailingAt(rows, i)
  {
    var list := ImageRows(rows, image);
    ImageRowsMean(rows, image);
    AfterLastDividerMeans(rows, list);
    var after := AfterLastDivider(rows, list);
    hide ImageRows, FirstDivider, AfterLastDivider, IsDivider, ScreenBefore;
    if after == 0 {
      NoDividerNoTrailing(rows, list, image, i);
    } else {
      var k := list[after - 1];
      assert k in list;
      forall j | 0 <= j < |rows| && j != k && IsDivider(rows[j]) &&
        rows[j].imageIndex == image ensures ScreenBefore(rows, j, k) {
        var a :| 0 <= a < |list| && list[a] == j;
      }
      assert IsLastDivider(rows, image, k);
      BelowLastDivider(rows, list, image, after, i);
    }
  }

  lemma NoDividerNoTrailing(rows: seq<Row>, list: seq<nat>, image: nat, i: nat)
    requires forall i: nat :: i in list <==> i < |rows| && rows[i].imageIndex == image
    requires forall a :: 0 <= a < |list| ==> !IsDividerAt(rows, list[a])
    ensures !(i < |rows| && rows[i].imageIndex == image && TrailingAt(rows, i))
  {
    hide ScreenBefore, IsDivider;
    forall k | 0 <= k < |rows| && rows[k].imageIndex == image ensures !IsDivider(rows[k]) {
      var a :| 0 <= a < |list| && list[a] == k;
    }
  }

  lemma BelowLastDivider(rows: seq<Row>, list: seq<nat>, image: nat, after: nat, i: nat)
    requires Descending(rows, list) && forall i: nat :: i in list <==> i < |rows| && rows[i].imageIndex == image
    requires 0 < after <= |list| && IsLastDivider(rows, image, list[after - 1])
    ensures i in list[after..] <==> i < |rows| && rows[i].imageIndex == image && TrailingAt(rows, i)
  {
    OnePosition(rows, list);
    hide ScreenBefore, IsDivider;
    var k := list[after - 1];
    if i in list {
      var a :| 0 <= a < |list| && list[a] == i;
      ScreenBeforeStrict(rows, i, k);
      OneLastDivider(rows, image, k);
      if a >= after {
        assert list[after..][a - after] == i;
        assert ScreenBefore(rows, k, i);
      } else {
        assert a == after - 1 || ScreenBefore(rows, i, k);
      }
    }
  }

  lemma OneLastDivider(rows: seq<Row>, image: nat, k: nat)
    requires IsLastDivider(rows, image, k)
    ensures forall j :: 0 <= j < |rows| && IsLastDivider(rows, image, j) ==> j == k
  {
    hide ScreenBefore, IsDivider;
    forall j | 0 <= j < |rows| && IsLastDivider(rows, image, j) ensures j == k { ScreenBeforeStrict(rows, j, k); }
  }

  // ---- all screenshots of a batch -----------------------------------------------------------------------

  ghost predicate Present(rows: seq<Row>, image: nat) { exists i :: 0 <= i < |rows| && rows[i].imageIndex == image }

  /** After walking `list`: one entry per screenshot met, with its rows in that order. */
  ghost predicate ImagesSeen(rows: seq<Row>, list: seq<nat>, byImage: map<nat, seq<nat>>) {
    forall m: nat :: ImageSeen(rows, list, byImage, m)
  }

  ghost predicate ImageSeen(rows: seq<Row>, list: seq<nat>, byImage: map<nat, seq<nat>>, image: nat) {
    if image in byImage then byImage[image] == Filter(list, OfImageAt(rows, image)) != []
      else Filter(list, OfImageAt(rows, image)) == []
  }

  /** The keys of the map, each once, in the order they were added. */
  ghost predicate ImagesListed(images: seq<nat>, byImage: map<nat, seq<nat>>) {
    EachOnce(images) && forall m :: m in byImage <==> m in images
  }

  function WithRow(byImage: map<nat, seq<nat>>, image: nat, i: nat): map<nat, seq<nat>> {
    byImage[image := (if image in byImage then byImage[image] else []) + [i]]
  }

  lemma ImageStep(rows: seq<Row>, list: seq<nat>, i: nat, image: nat)
    requires i < |rows|
    ensures Filter(list + [i], OfImageAt(rows, image)) ==
      if rows[i].imageIndex == image then Filter(list, OfImageAt(rows, image)) + [i]
        else Filter(list, OfImageAt(rows, image))
  {
    assert (list + [i])[..|list|] == list;
  }

  lemma {:induction false} ImageGrows(rows: seq<Row>, list: seq<nat>, i: nat, byImage: map<nat, seq<nat>>, image: nat)
    requires i < |rows| && ImageSeen(rows, list, byImage, image)
    ensures ImageSeen(rows, list + [i], WithRow(byImage, rows[i].imageIndex, i), image)
  {
    ImageStep(rows, list, i, image);
    hide Filter;
  }

  lemma {:induction false} ImagesGrow(rows: seq<Row>, list: seq<nat>, i: nat, byImage: map<nat, seq<nat>>)
    requires i < |rows| && ImagesSeen(rows, list, byImage)
    ensures ImagesSeen(rows, list + [i], WithRow(byImage, rows[i].imageIndex, i))
  {
    hide ImageSeen, WithRow;
    forall k: nat ensures ImageSeen(rows, list + [i], WithRow(byImage, rows[i].imageIndex, i), k) {
      assert ImageSeen(rows, list, byImage, k);
      ImageGrows(rows, list, i, byImage, k);
    }
  }

  lemma {:induction false} ListGrows(images: seq<nat>, byImage: map<nat, seq<nat>>, image: nat, i: nat)
    requires ImagesListed(images, byImage)
    ensures ImagesListed(if image in byImage then images else images + [image], WithRow(byImage, image, i))
  {
  }

  method LayoutScreenshots(rows: seq<Row>) returns (images: seq<nat>, screens: map<nat, Screen>)
    ensures forall m :: m in screens <==> Present(rows, m)
    ensures EachOnce(images) && forall m :: m in images <==> Present(rows, m)
    ensures forall m :: m in screens ==> screens[m] == ScreenAt(rows, m)
  {
    var ordered := ScreenOrdered(rows);
    ScreenOrderedMeans(rows);
    var byImage: map<nat, seq<nat>> := map[];
    images := [];
    NoImages(rows);
    hide *;
    for n := 0 to |ordered|
      invariant ImagesSeen(rows, ordered[..n], byImage) && ImagesListed(images, byImage)
    {
      var i := ordered[n];
      assert i in ordered;
      var m := rows[i].imageIndex;
      ImagesGrow(rows, ordered[..n], i, byImage);
      ListGrows(images, byImage, m, i);
      assert ordered[..n + 1] == ordered[..n] + [i];
      if m !in byImage { images := images + [m]; }
      byImage := WithRow(byImage, m, i);
    }
    assert ordered[..|ordered|] == ordered;
    AllImagesSeen(rows, images, byImage);
    screens := map m | m in byImage :: ScreenOf(rows, byImage[m]);
    ScreensByImage(rows, byImage, screens);
  }

  lemma NoImages(rows: seq<Row>)
    ensures ImagesSeen(rows, [], map[]) && ImagesListed([], map[])
  {
  }

  lemma {:induction false} AllImagesSeen(rows: seq<Row>, images: seq<nat>, byImage: map<nat, seq<nat>>)
    requires ImagesSeen(rows, ScreenOrdered(rows), byImage) && ImagesListed(images, byImage)
    ensures EachOnce(images) && forall m :: m in images <==> Present(rows, m)
    ensures forall m :: m in byImage <==> Present(rows, m)
    ensures forall m :: m in byImage ==> byImage[m] == ImageRows(rows, m)
  {
    forall m ensures m in byImage <==> Present(rows, m) {
      assert ImageSeen(rows, ScreenOrdered(rows), byImage, m);
      PresentMeans(rows, m);
    }
    forall m | m in byImage ensures byImage[m] == ImageRows(rows, m) {
      assert ImageSeen(rows, ScreenOrdered(rows), byImage, m);
    }
    hide Present, Filter, ScreenOrdered;
  }

  lemma PresentMeans(rows: seq<Row>, image: nat)
    ensures Present(rows, image) <==> ImageRows(rows, image) != []
  {
    ImageRowsMean(rows, image);
    hide ImageRows;
    var list := ImageRows(rows, image);
    if i :| 0 <= i < |rows| && rows[i].imageIndex == image { assert i in list; }
    if list != [] { assert list[0] in list; }
  }

  lemma ScreensByImage(rows: seq<Row>, byImage: map<nat, seq<nat>>, screens: map<nat, Screen>)
    requires forall m :: m in byImage ==> byImage[m] == ImageRows(rows, m)
    requires screens == map m | m in byImage :: ScreenOf(rows, byImage[m])
    ensures forall m :: m in screens ==> screens[m] == ScreenAt(rows, m)
  {
    hide ImageRows, ScreenOf;
  }

  // ---- walking to the nearest divider -------------------------------------------------------------------

  function ImageBound(rows: seq<Row>): (bound: nat)
    ensures forall r :: r in rows ==> r.imageIndex < bound
  {
    if rows == [] then 0 else Max(ImageBound(rows[..|rows| - 1]), rows[|rows| - 1].imageIndex + 1)
  }

  /** The date of the nearest screenshot in that direction that has a divider, without leaving a gap. */
  ghost function Towards(rows: seq<Row>, from: nat, step: int): Option<string>
    requires step == 1 || step == -1
    decreases if step == 1 then Max(0, ImageBound(rows) - from) else from
  {
    var next := from + step;
    if next < 0 || !Present(rows, next) then None
    else if LastDividerDate(rows, next).Some? then LastDividerDate(rows, next)
    else Towards(rows, next, step)
  }

  method LastDividerTowards(rows: seq<Row>, screens: map<nat, Screen>, from: nat, step: int)
    returns (date: Option<string>)
    requires step == 1 || step == -1
    requires forall m :: m in screens <==> Present(rows, m)
    requires forall m :: m in screens ==> screens[m] == ScreenAt(rows, m)
    ensures date == Towards(rows, from, step)
  {
    hide ScreenAt, ImageBound;
    var neighbour := from + step;
    while neighbour in screens && screens[neighbour].lastDividerDate.None?
      invariant neighbour - step >= 0 && Towards(rows, neighbour - step, step) == Towards(rows, from, step)
      decreases if step == 1 then Max(0, ImageBound(rows) - neighbour) else neighbour
    {
      assert Present(rows, neighbour);
      var i :| 0 <= i < |rows| && rows[i].imageIndex == neighbour;
      assert rows[i] in rows;
      neighbour := neighbour + step;
    }
    date := if neighbour in screens then screens[neighbour].lastDividerDate else None;
  }

  function Away(from: nat, step: int, k: nat): int { if step == 1 then from + k else from - k }

  /** `k` steps reach a screenshot with a divider, over screenshots that exist and have none. */
  ghost predicate Reaches(rows: seq<Row>, from: nat, step: int, k: nat) {
    k > 0 && Away(from, step, k) >= 0 && Present(rows, Away(from, step, k)) &&
      LastDividerDate(rows, Away(from, step, k)).Some? &&
    forall j: nat :: 1 <= j < k ==> WithoutDivider(rows, Away(from, step, j))
  }

  ghost predicate WithoutDivider(rows: seq<Row>, image: int) {
    image >= 0 && Present(rows, image) && LastDividerDate(rows, image).None?
  }

  lemma ReachesFurther(rows: seq<Row>, from: nat, step: int, k: nat)
    requires (step == 1 || step == -1) && k > 0 && WithoutDivider(rows, from + step)
    ensures Reaches(rows, from + step, step, k) <==> Reaches(rows, from, step, k + 1)
  {
    hide Present, LastDividerDate;
    var next := from + step;
    assert forall j: nat :: j > 0 ==> Away(next, step, j) == Away(from, step, j + 1);
    if Reaches(rows, next, step, k) {
      forall j: nat | 1 <= j < k + 1 ensures WithoutDivider(rows, Away(from, step, j)) {
        if j > 1 { assert WithoutDivider(rows, Away(next, step, j - 1)); }
      }
    }
    if Reaches(rows, from, step, k + 1) {
      forall j: nat | 1 <= j < k ensures WithoutDivider(rows, Away(next, step, j)) {
        assert WithoutDivider(rows, Away(from, step, j + 1));
      }
    }
  }

  /** The walk finds the nearest divider that way, and finds one whenever there is one to find. */
  lemma {:induction false} TowardsMeans(rows: seq<Row>, from: nat, step: int, k: nat)
    requires step == 1 || step == -1
    requires Reaches(rows, from, step, k)
    ensures Towards(rows, from, step) == LastDividerDate(rows, Away(from, step, k))
    decreases k
  {
    hide Present, LastDividerDate;
    assert Away(from, step, 1) == from + step;
    if k > 1 {
      assert WithoutDivider(rows, Away(from, step, 1));
      ReachesFurther(rows, from, step, k - 1);
      assert Away(from, step, k) == Away(from + step, step, k - 1);
      TowardsMeans(rows, from + step, step, k - 1);
    }
  }

  lemma {:induction false} TowardsFinds(rows: seq<Row>, from: nat, step: int)
    requires step == 1 || step == -1
    requires Towards(rows, from, step).Some?
    ensures exists k :: Reaches(rows, from, step, k)
    decreases if step == 1 then Max(0, ImageBound(rows) - from) else from
  {
    var next := from + step;
    assert Away(from, step, 1) == next;
    if LastDividerDate(rows, next).Some? {
      assert Reaches(rows, from, step, 1);
    } else {
      assert ImageBound(rows) > next by {
        var i :| 0 <= i < |rows| && rows[i].imageIndex == next;
        assert rows[i] in rows;
      }
      hide Present, LastDividerDate;
      TowardsFinds(rows, next, step);
      var k :| Reaches(rows, next, step, k);
      ReachesFurther(rows, from, step, k);
    }
  }
}
