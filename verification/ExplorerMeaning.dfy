// What the spending explorer lists: its entries, the rows of a level, one line per transaction and the
// folded statement, in terms of the transactions and entries they are made of.
module ExplorerMeaning {
  import opened Sequences
  import opened Sorting
  import opened Tables
  import opened KeyedTotals
  import opened Ledger
  import opened SpendingReports
  import opened SpendingExplorer
  import opened SpendingBreakdown
  import opened ReportsMeaning

  // ---- entries ------------------------------------------------------------------------------------

  /** What the entry of a contribution carries besides its place in a split. */
  predicate Describes(
    l: Ledger, t: Transaction, e: SpendingEntry, id: EntryRef, envelope: Key, category: Key, amount: Money) {
    && e.id == id && e.txnId == t.id && e.date == t.date && e.place == t.placeId && e.account == t.accountId
    && e.envelope == envelope && GroupIs(l, envelope, e.group) && e.category == category
    && e.amount == Net(t, amount) && e.mixed == {}
  }

  function Listable(l: Ledger): Item -> bool { (i: Item) => !Saved(l, i.envelopeId) && i.amount != 0 }

  /** The contributions of one transaction: its unsaved items with money, or all of it. */
  predicate Contributes(l: Ledger, t: Transaction, entries: seq<SpendingEntry>) {
    if t.kind != Expense then entries == []
    else if t.items != [] then
      var items := Filter(t.items, Listable(l));
      |entries| == |items| && forall k :: 0 <= k < |items| ==>
        Describes(l, t, entries[k], SplitItem(t.id, items[k].id), Some(items[k].envelopeId), items[k].categoryId,
          items[k].amount)
    else if t.amount == 0 || (t.envelopeId.Some? && Saved(l, t.envelopeId.value)) then entries == []
    else
      |entries| == 1 && Describes(l, t, entries[0], WholeTxn(t.id), t.envelopeId, t.categoryId, t.amount)
  }

  lemma ItemEntryDescribes(l: Ledger, t: Transaction, i: Item)
    requires Distinct(l.envelopes, EnvelopeId)
    ensures Describes(l, t, ItemEntry(ContextOf(l), t)(i), SplitItem(t.id, i.id), Some(i.envelopeId), i.categoryId,
      i.amount)
  {
    var c := ContextOf(l);
    GroupMeans(l, Some(i.envelopeId), GroupKey(c, Some(i.envelopeId)));
    hide ContextOf, GroupKey, GroupIs, Distinct;
  }

  lemma TxnEntryDescribes(l: Ledger, t: Transaction)
    requires Distinct(l.envelopes, EnvelopeId)
    ensures Describes(l, t, TxnEntry(ContextOf(l), t), WholeTxn(t.id), t.envelopeId, t.categoryId, t.amount)
  {
    GroupMeans(l, t.envelopeId, GroupKey(ContextOf(l), t.envelopeId));
    hide ContextOf, GroupKey, GroupIs, Distinct;
  }

  lemma SameItemsListed(l: Ledger, items: seq<Item>)
    ensures Filter(items, IsListed(ContextOf(l))) == Filter(items, Listable(l))
  {
    forall i: Item ensures IsListed(ContextOf(l))(i) <==> Listable(l)(i) { SavedMeans(l, i.envelopeId); }
    hide ContextOf, Saved, IsListed, Listable;
    FilterAgrees(items, IsListed(ContextOf(l)), Listable(l));
  }

  lemma ContributionsMean(l: Ledger, t: Transaction)
    requires Distinct(l.envelopes, EnvelopeId)
    ensures Contributes(l, t, EntriesFor(ContextOf(l))(t))
  {
    hide Filter, ContextOf, Saved, IsListed, Listable, Distinct, EntriesFor, Describes, ItemEntry, TxnEntry;
    EntriesForMeans(ContextOf(l), t);
    if t.kind == Expense && t.items != [] {
      SameItemsListed(l, t.items);
      var items := Filter(t.items, Listable(l));
      forall k | 0 <= k < |items|
        ensures Describes(l, t, ItemEntry(ContextOf(l), t)(items[k]), SplitItem(t.id, items[k].id),
          Some(items[k].envelopeId), items[k].categoryId, items[k].amount)
      {
        ItemEntryDescribes(l, t, items[k]);
      }
    } else {
      if t.envelopeId.Some? { SavedMeans(l, t.envelopeId.value); }
      TxnEntryDescribes(l, t);
    }
  }

  /** One more transaction adds its contributions at the end, and nothing else. */
  lemma EntriesMean(l: Ledger, txns: seq<Transaction>, t: Transaction)
    requires Distinct(l.envelopes, EnvelopeId)
    ensures EntriesOf(l.(transactions := [])) == []
    ensures exists more ::
      Contributes(l, t, more) && EntriesOf(l.(transactions := txns + [t])) == EntriesOf(l.(transactions := txns)) + more
  {
    ContributionsMean(l, t);
    FlatMapOneMore(txns, t, EntriesFor(ContextOf(l)));
    hide Contributes, EntriesFor;
  }

  // ---- the rows of a level ------------------------------------------------------------------------

  predicate Under(g: Grouping, k: LevelKey, e: SpendingEntry) {
    match g
    case ByDimension(dim) =>
      k == DimensionKey(
        match dim case ByGroup => e.group case ByEnvelope => e.envelope case ByCategory => e.category
        case ByPlace => e.place)
    case ByAccount => k == AccountKey(e.account)
    case ByMonth => k == MonthKey(e.date.month)
  }

  predicate Later(a: Date, b: Date) { a.month > b.month || (a.month == b.month && a.day > b.day) }

  /** Larger first, then newer, then by id. */
  predicate ListedFirst(idAtMost: IdOrder, a: SpendingEntry, b: SpendingEntry) {
    a.amount > b.amount ||
    (a.amount == b.amount && (Later(a.date, b.date) || (a.date == b.date && idAtMost(a.id, b.id))))
  }

  /** A row is the entries under its key, with their sum. */
  ghost predicate RowStands(entries: seq<SpendingEntry>, g: Grouping, idAtMost: IdOrder, r: ExploreRow) {
    && multiset(r.entries) == multiset(Filter(entries, (e: SpendingEntry) => Under(g, r.key, e))) && r.entries != []
    && r.amount == Sum(r.entries, (e: SpendingEntry) => e.amount)
    && forall i, j :: 0 <= i < j < |r.entries| ==> ListedFirst(idAtMost, r.entries[i], r.entries[j])
  }

  /** One row for every key some entry has: months newest first, other rows largest first. */
  ghost predicate LevelStands(entries: seq<SpendingEntry>, g: Grouping, idAtMost: IdOrder, rows: seq<ExploreRow>) {
    && (forall r :: r in rows ==> RowStands(entries, g, idAtMost, r))
    && (forall e :: e in entries ==> exists r :: r in rows && Under(g, r.key, e))
    && (forall i, j :: 0 <= i < j < |rows| ==> Follows(g, rows[i], rows[j]))
  }

  /** Under another key, and in a level of months an older one, in others with no more money. */
  predicate Follows(g: Grouping, a: ExploreRow, b: ExploreRow) {
    a.key != b.key &&
    if g == ByMonth then a.key.MonthKey? && b.key.MonthKey? && a.key.month > b.key.month else a.amount >= b.amount
  }

  lemma UnderMeans(g: Grouping, k: LevelKey, e: SpendingEntry)
    ensures Under(g, k, e) <==> GroupingKey(g)(e) == k
  {
  }

  lemma OrdersAgree(idAtMost: IdOrder, a: SpendingEntry, b: SpendingEntry)
    ensures LargestEntry(idAtMost)(a, b) <==> ListedFirst(idAtMost, a, b)
  {
    var later, known := !DateAtMost(a.date, b.date), idAtMost(a.id, b.id);
    assert later <==> Later(a.date, b.date);
    assert LargestEntry(idAtMost)(a, b) ==
      (a.amount > b.amount || (a.amount == b.amount && (later || (a.date == b.date && known))));
    hide LargestEntry;
  }

  lemma ListedTransitively(idAtMost: IdOrder, a: SpendingEntry, b: SpendingEntry, c: SpendingEntry)
    requires ListedFirst(idAtMost, a, b) && ListedFirst(idAtMost, b, c)
    requires idAtMost(a.id, b.id) && idAtMost(b.id, c.id) ==> idAtMost(a.id, c.id)
    ensures ListedFirst(idAtMost, a, c)
  {
  }

  lemma ListedTotally(idAtMost: IdOrder, a: SpendingEntry, b: SpendingEntry)
    requires idAtMost(a.id, b.id) || idAtMost(b.id, a.id)
    ensures ListedFirst(idAtMost, a, b) || ListedFirst(idAtMost, b, a)
  {
    assert Later(a.date, b.date) || Later(b.date, a.date) || a.date == b.date;
  }

  lemma LargestIsTotal(idAtMost: IdOrder)
    requires TotalOrder(idAtMost)
    ensures TotalOrder(LargestEntry(idAtMost))
  {
    hide LargestEntry, ListedFirst;
    var le := LargestEntry(idAtMost);
    forall x, y ensures le(x, y) || le(y, x) {
      OrdersAgree(idAtMost, x, y);
      OrdersAgree(idAtMost, y, x);
      ListedTotally(idAtMost, x, y);
    }
    forall x, y, z | le(x, y) && le(y, z) ensures le(x, z) {
      OrdersAgree(idAtMost, x, y);
      OrdersAgree(idAtMost, y, z);
      OrdersAgree(idAtMost, x, z);
      ListedTransitively(idAtMost, x, y, z);
    }
  }

  lemma RowMeans(entries: seq<SpendingEntry>, g: Grouping, idAtMost: IdOrder, k: LevelKey)
    requires TotalOrder(idAtMost) && k in FirstSeen(entries, GroupingKey(g))
    ensures var r := SortedRow(idAtMost)(RowFor(entries, g)(k)); r.key == k && RowStands(entries, g, idAtMost, r)
  {
    var own := Filter(entries, WithKey(GroupingKey(g), k));
    var r := SortedRow(idAtMost)(RowFor(entries, g)(k));
    assert r.key == k && r.entries == Sort(own, LargestEntry(idAtMost));
    SortedRowIsItsEntries(entries, g, idAtMost, k);
    forall e | e in entries ensures WithKey(GroupingKey(g), k)(e) <==> Under(g, k, e) { UnderMeans(g, k, e); }
    FilterAgrees(entries, WithKey(GroupingKey(g), k), (e: SpendingEntry) => Under(g, k, e));
    var x := KeyWasSeen(entries, GroupingKey(g), k);
    FilterMember(entries, WithKey(GroupingKey(g), k), x);
    SortKeeps(own, LargestEntry(idAtMost));
    SameElements(own, r.entries);
    LargestIsTotal(idAtMost);
    SortOrdered(own, LargestEntry(idAtMost));
    SumEqual(r.entries, EntryAmount(), (e: SpendingEntry) => e.amount);
    hide Sort, Filter, Sum, GroupingKey, Under, TotalOrder, FirstSeen, LargestEntry, ListedFirst, SortedRow, RowFor;
    forall i, j | 0 <= i < j < |r.entries| ensures ListedFirst(idAtMost, r.entries[i], r.entries[j]) {
      OrdersAgree(idAtMost, r.entries[i], r.entries[j]);
    }
  }

  lemma RowOrderMeans(g: Grouping, a: ExploreRow, b: ExploreRow)
    requires g == ByMonth ==> a.key.MonthKey? && b.key.MonthKey?
    ensures RowOrder(g)(a, b) <==> if g == ByMonth then a.key.month >= b.key.month else a.amount >= b.amount
  {
  }

  lemma MonthRows(entries: seq<SpendingEntry>, k: LevelKey)
    requires k in FirstSeen(entries, GroupingKey(ByMonth))
    ensures k.MonthKey?
  {
    var e := KeyWasSeen(entries, GroupingKey(ByMonth), k);
  }

  lemma {:induction false} MonthsOrdered(rows: seq<ExploreRow>)
    requires forall r :: r in rows ==> r.key.MonthKey?
    ensures Ordered(Sort(rows, RowOrder(ByMonth)), RowOrder(ByMonth))
  {
    if rows != [] {
      var n := |rows| - 1;
      MonthsOrdered(rows[..n]);
      SortKeeps(rows[..n], RowOrder(ByMonth));
      SameElements(Sort(rows[..n], RowOrder(ByMonth)), rows[..n]);
      assert rows[n] in rows;
      MonthPlaced(Sort(rows[..n], RowOrder(ByMonth)), rows[n]);
    }
  }

  lemma {:induction false} MonthPlaced(rows: seq<ExploreRow>, r: ExploreRow)
    requires Ordered(rows, RowOrder(ByMonth)) && r.key.MonthKey? && forall x :: x in rows ==> x.key.MonthKey?
    ensures Ordered(Place(rows, r, RowOrder(ByMonth)), RowOrder(ByMonth))
  {
    if rows != [] {
      var n := |rows| - 1;
      var placed := Place(rows[..n], r, RowOrder(ByMonth));
      assert rows[n] in rows;
      MonthPlaced(rows[..n], r);
      PlaceKeeps(rows[..n], r, RowOrder(ByMonth));
      SameElements(placed, rows[..n] + [r]);
      forall i | 0 <= i < |placed| && !RowOrder(ByMonth)(rows[n], r) ensures RowOrder(ByMonth)(placed[i], rows[n]) {
        assert placed[i] in rows[..n] + [r];
      }
    }
  }

  lemma AmountsOrdered(rows: seq<ExploreRow>, g: Grouping)
    requires g != ByMonth
    ensures Ordered(Sort(rows, RowOrder(g)), RowOrder(g))
  {
    assert TotalOrder(RowOrder(g));
    SortOrdered(rows, RowOrder(g));
  }

  /** The rows before they are ordered: one for each key, in the order the keys are met. */
  lemma PlainRows(entries: seq<SpendingEntry>, g: Grouping, idAtMost: IdOrder, plain: seq<ExploreRow>)
    requires TotalOrder(idAtMost)
    requires plain == Map(Map(FirstSeen(entries, GroupingKey(g)), RowFor(entries, g)), SortedRow(idAtMost))
    ensures forall r :: r in plain ==>
      RowStands(entries, g, idAtMost, r) && r.key in FirstSeen(entries, GroupingKey(g)) &&
      r == SortedRow(idAtMost)(RowFor(entries, g)(r.key))
    ensures EachOnce(plain)
    ensures forall e :: e in entries ==> exists r :: r in plain && Under(g, r.key, e)
  {
    var keys := FirstSeen(entries, GroupingKey(g));
    FirstSeenOnce(entries, GroupingKey(g));
    hide FirstSeen, GroupingKey, RowFor, SortedRow, RowStands, Under, TotalOrder;
    forall i | 0 <= i < |plain| ensures plain[i].key == keys[i] && RowStands(entries, g, idAtMost, plain[i]) {
      assert keys[i] in keys;
      RowMeans(entries, g, idAtMost, keys[i]);
    }
    forall e | e in entries ensures exists r :: r in plain && Under(g, r.key, e) {
      SeenHasKey(entries, GroupingKey(g), e);
      UnderMeans(g, GroupingKey(g)(e), e);
      var i :| 0 <= i < |keys| && keys[i] == GroupingKey(g)(e);
      assert plain[i] in plain;
    }
  }

  lemma RowsOrdered(entries: seq<SpendingEntry>, g: Grouping, rows: seq<ExploreRow>)
    requires forall r :: r in rows ==> r.key in FirstSeen(entries, GroupingKey(g))
    ensures Ordered(Sort(rows, RowOrder(g)), RowOrder(g))
  {
    hide FirstSeen, GroupingKey, Sort, Ordered;
    if g == ByMonth {
      forall r | r in rows ensures r.key.MonthKey? { MonthRows(entries, r.key); }
      MonthsOrdered(rows);
    } else {
      AmountsOrdered(rows, g);
    }
  }

  lemma RowPair(
    entries: seq<SpendingEntry>, g: Grouping, idAtMost: IdOrder, plain: seq<ExploreRow>, a: ExploreRow, b: ExploreRow)
    requires TotalOrder(idAtMost)
    requires plain == Map(Map(FirstSeen(entries, GroupingKey(g)), RowFor(entries, g)), SortedRow(idAtMost))
    requires a in plain && b in plain && a != b && RowOrder(g)(a, b)
    ensures Follows(g, a, b)
  {
    hide BreakdownOf, FirstSeen, GroupingKey, RowFor, SortedRow, RowStands, Under, TotalOrder, Sort, RowOrder, Map,
      EachOnce;
    PlainRows(entries, g, idAtMost, plain);
    if g == ByMonth {
      MonthRows(entries, a.key);
      MonthRows(entries, b.key);
    }
    RowOrderMeans(g, a, b);
  }

  lemma SortedRows(entries: seq<SpendingEntry>, g: Grouping, plain: seq<ExploreRow>, rows: seq<ExploreRow>)
    requires rows == Sort(plain, RowOrder(g)) && EachOnce(plain)
    requires forall r :: r in plain ==> r.key in FirstSeen(entries, GroupingKey(g))
    ensures forall r :: r in rows <==> r in plain
    ensures forall i, j :: 0 <= i < j < |rows| ==> rows[i] != rows[j] && RowOrder(g)(rows[i], rows[j])
  {
    hide FirstSeen, GroupingKey, Sort, RowOrder;
    SortKeeps(plain, RowOrder(g));
    SameElements(rows, plain);
    SameElements(plain, rows);
    EachOncePermuted(plain, rows);
    RowsOrdered(entries, g, plain);
  }

  lemma BreakdownIs(entries: seq<SpendingEntry>, g: Grouping, idAtMost: IdOrder, plain: seq<ExploreRow>)
    requires plain == Map(Map(FirstSeen(entries, GroupingKey(g)), RowFor(entries, g)), SortedRow(idAtMost))
    ensures BreakdownOf(entries, g, idAtMost) == Sort(plain, RowOrder(g))
  {
  }

  /** A level lists exactly these rows, in this order. */
  lemma LevelMeans(entries: seq<SpendingEntry>, g: Grouping, idAtMost: IdOrder)
    requires TotalOrder(idAtMost)
    ensures LevelStands(entries, g, idAtMost, BreakdownOf(entries, g, idAtMost))
  {
    hide BreakdownOf, FirstSeen, GroupingKey, RowFor, SortedRow, RowStands, Under, TotalOrder, Sort, RowOrder, Map,
      Follows, EachOnce;
    var plain := Map(Map(FirstSeen(entries, GroupingKey(g)), RowFor(entries, g)), SortedRow(idAtMost));
    var rows := BreakdownOf(entries, g, idAtMost);
    BreakdownIs(entries, g, idAtMost, plain);
    PlainRows(entries, g, idAtMost, plain);
    SortedRows(entries, g, plain, rows);
    forall i, j | 0 <= i < j < |rows| ensures Follows(g, rows[i], rows[j]) {
      RowPair(entries, g, idAtMost, plain, rows[i], rows[j]);
    }
    forall r | r in rows ensures RowStands(entries, g, idAtMost, r) {}
    forall e | e in entries ensures exists r :: r in rows && Under(g, r.key, e) {
      var r :| r in plain && Under(g, r.key, e);
      assert r in rows;
    }
  }

  // ---- one line per transaction -------------------------------------------------------------------

  /** The first entry of the transaction, with the money of all and the dimensions in which one differs from it. */
  ghost predicate MergedStands(own: seq<SpendingEntry>, e: SpendingEntry) {
    && own != [] && e == own[0].(id := WholeTxn(own[0].txnId), amount := e.amount, mixed := e.mixed)
    && e.amount == Sum(own, (x: SpendingEntry) => x.amount)
    && (forall d :: d in e.mixed <==> d in own[0].mixed || exists x :: x in own && Differs(own[0], x, d))
  }

  predicate Differs(first: SpendingEntry, x: SpendingEntry, d: Dimension) {
    match d
    case ByGroup => x.group != first.group
    case ByEnvelope => x.envelope != first.envelope
    case ByCategory => x.category != first.category
    case ByPlace => false
  }

  lemma MixedStep(m: SpendingEntry, e: SpendingEntry, first: SpendingEntry)
    requires m == first.(id := m.id, amount := m.amount, mixed := m.mixed)
    ensures MergeInto(m, e) == m.(amount := m.amount + e.amount, mixed := MergeInto(m, e).mixed)
    ensures forall d :: d in MergeInto(m, e).mixed <==> d in m.mixed || Differs(first, e, d)
  {
  }

  lemma {:induction false} MergedMeans(own: seq<SpendingEntry>)
    requires own != []
    ensures MergedStands(own, Merged(own))
  {
    var n := |own| - 1;
    LastSplit(own);
    var amount := (x: SpendingEntry) => x.amount;
    if n == 0 {
      SumOne(own[0], amount);
      assert own == [own[0]];
    } else {
      MergedMeans(own[..n]);
      var m := Merged(own[..n]);
      assert own[..n][0] == own[0] && Merged(own) == MergeInto(m, own[n]);
      MixedStep(m, own[n], own[0]);
      SumOneMore(own[..n], own[n], amount);
      hide MergeInto, Merged, Sum, Differs;
      forall d ensures d in Merged(own).mixed <==> d in own[0].mixed || exists x :: x in own && Differs(own[0], x, d) {
        if d in Merged(own).mixed && !Differs(own[0], own[n], d) && d !in own[0].mixed {
          var x :| x in own[..n] && Differs(own[0], x, d);
          assert x in own;
        }
        assert own[n] in own;
      }
    }
  }

  /** One line for each transaction with entries, in the order of their first entries. */
  ghost predicate MergesStand(entries: seq<SpendingEntry>, merged: seq<SpendingEntry>) {
    && (forall i :: 0 <= i < |merged| ==>
      MergedStands(Filter(entries, (x: SpendingEntry) => x.txnId == merged[i].txnId), merged[i]))
    && (forall e :: e in entries ==> exists i :: 0 <= i < |merged| && merged[i].txnId == e.txnId)
    && (forall i, j :: 0 <= i < j < |merged| ==> MetBefore(entries, merged[i].txnId, merged[j].txnId))
  }

  /** The first transaction has an entry before every entry of the second. */
  predicate MetBefore(entries: seq<SpendingEntry>, a: Id, b: Id) {
    exists p :: 0 <= p < |entries| && entries[p].txnId == a && forall q :: 0 <= q <= p ==> entries[q].txnId != b
  }

  lemma {:induction false} SeenInOrder(entries: seq<SpendingEntry>, i: nat, j: nat)
    requires i < j < |FirstSeen(entries, TxnOf())|
    ensures MetBefore(entries, FirstSeen(entries, TxnOf())[i], FirstSeen(entries, TxnOf())[j])
  {
    var n := |entries| - 1;
    LastSplit(entries);
    var before, keys := FirstSeen(entries[..n], TxnOf()), FirstSeen(entries, TxnOf());
    FirstSeenStep(entries[..n], entries[n], TxnOf());
    if j < |before| {
      SeenInOrder(entries[..n], i, j);
      var p :| 0 <= p < n && entries[..n][p].txnId == before[i] && forall q :: 0 <= q <= p ==>
        entries[..n][q].txnId != before[j];
      assert entries[p].txnId == keys[i] && forall q :: 0 <= q <= p ==> entries[q] == entries[..n][q];
    } else {
      var x := KeyWasSeen(entries[..n], TxnOf(), before[i]);
      var p :| 0 <= p < n && entries[..n][p] == x;
      forall q | 0 <= q <= p ensures entries[q].txnId != keys[j] {
        assert entries[q] == entries[..n][q] && entries[q] in entries[..n];
        SeenHasKey(entries[..n], TxnOf(), entries[q]);
      }
    }
  }

  lemma MergedAtMeans(entries: seq<SpendingEntry>, k: Id)
    requires k in FirstSeen(entries, TxnOf())
    ensures MergedStands(Filter(entries, (x: SpendingEntry) => x.txnId == k), MergedAt(entries)(k))
    ensures MergedAt(entries)(k).txnId == k
  {
    var x := KeyWasSeen(entries, TxnOf(), k);
    var own := Filter(entries, WithKey(TxnOf(), k));
    FilterMember(entries, WithKey(TxnOf(), k), x);
    MergedMeans(own);
    FilterMember(entries, WithKey(TxnOf(), k), own[0]);
    FilterAgrees(entries, WithKey(TxnOf(), k), (x: SpendingEntry) => x.txnId == k);
    assert MergedAt(entries)(k) == Merged(own);
    hide Filter, Merged, FirstSeen;
  }

  lemma MergeMeans(entries: seq<SpendingEntry>)
    ensures MergesStand(entries, MergeAll(entries))
  {
    var keys, merged := FirstSeen(entries, TxnOf()), MergeAll(entries);
    assert |merged| == |keys| && forall i :: 0 <= i < |keys| ==> merged[i] == MergedAt(entries)(keys[i]);
    hide Filter, MergeAll, MergedAt, MergedStands, FirstSeen, MetBefore;
    forall i | 0 <= i < |merged|
      ensures merged[i].txnId == keys[i]
      ensures MergedStands(Filter(entries, (x: SpendingEntry) => x.txnId == merged[i].txnId), merged[i])
    {
      assert keys[i] in keys;
      MergedAtMeans(entries, keys[i]);
    }
    forall e | e in entries ensures exists i :: 0 <= i < |merged| && merged[i].txnId == e.txnId {
      SeenHasKey(entries, TxnOf(), e);
      var i :| 0 <= i < |keys| && keys[i] == e.txnId;
      assert merged[i].txnId == e.txnId;
    }
    forall i, j | 0 <= i < j < |merged| ensures MetBefore(entries, merged[i].txnId, merged[j].txnId) {
      SeenInOrder(entries, i, j);
    }
  }

  // ---- folded lines -------------------------------------------------------------------------------

  predicate SameLine<K(==)>(foldKey: SpendingEntry -> Option<K>, a: SpendingEntry, b: SpendingEntry) {
    foldKey(a).Some? && foldKey(a) == foldKey(b)
  }

  /** Repeated at one place with one amount, or alike in all that a line shows. */
  lemma FoldKeysMean(nameOf: SpendingEntry -> Option<string>, a: SpendingEntry, b: SpendingEntry)
    ensures SameLine(PlaceAndAmount(), a, b) <==> a.place.Some? && a.place == b.place && a.amount == b.amount
    ensures SameLine(IdenticalLineKey(nameOf), a, b) <==>
      a.mixed == {} && b.mixed == {} && (nameOf(a).Some? || a.place.Some?) && nameOf(a) == nameOf(b) &&
      a.place == b.place && a.envelope == b.envelope && a.category == b.category && a.account == b.account &&
      a.amount == b.amount
  {
  }

  /** The payments that read as this one. */
  ghost function Repeated<K>(
    merged: seq<SpendingEntry>, foldKey: SpendingEntry -> Option<K>, e: SpendingEntry): seq<SpendingEntry>
  {
    Filter(merged, (x: SpendingEntry) => SameLine(foldKey, e, x))
  }

  /** Three or more such payments are one line that shows the first; any other payment is a line of its own. */
  ghost predicate LineStands<K>(merged: seq<SpendingEntry>, foldKey: SpendingEntry -> Option<K>, l: Line) {
    var repeated := Repeated(merged, foldKey, l.entry);
    && l.entry in merged && l.amount == l.entry.amount * l.count
    && if |repeated| >= 3 then l.count == |repeated| && l.entry == repeated[0] else l.count == 1
  }

  ghost predicate HasLine<K>(
    merged: seq<SpendingEntry>, foldKey: SpendingEntry -> Option<K>, e: SpendingEntry, l: Line)
  {
    if |Repeated(merged, foldKey, e)| >= 3 then SameLine(foldKey, e, l.entry) else l.entry == e
  }

  predicate LineBefore(a: Line, b: Line) {
    a.amount > b.amount || (a.amount == b.amount && !Later(b.entry.date, a.entry.date))
  }

  function LineCount(): Line -> int { (l: Line) => l.count }

  ghost predicate AllStand<K>(merged: seq<SpendingEntry>, foldKey: SpendingEntry -> Option<K>, lines: seq<Line>) {
    forall l :: l in lines ==> LineStands(merged, foldKey, l)
  }

  ghost predicate AllListed<K>(merged: seq<SpendingEntry>, foldKey: SpendingEntry -> Option<K>, lines: seq<Line>) {
    forall e :: e in merged ==> exists l :: l in lines && HasLine(merged, foldKey, e, l)
  }

  predicate InLineOrder(lines: seq<Line>) {
    forall i, j :: 0 <= i < j < |lines| ==> LineBefore(lines[i], lines[j])
  }

  /** The lines stand for every payment once, largest first, newer before older. */
  ghost predicate LinesStand<K>(merged: seq<SpendingEntry>, foldKey: SpendingEntry -> Option<K>, lines: seq<Line>) {
    && AllStand(merged, foldKey, lines) && AllListed(merged, foldKey, lines)
    && Sum(lines, LineCount()) == |merged| && InLineOrder(lines)
  }

  lemma {:induction false} FlatMember<A(!new), B>(s: seq<A>, g: A -> seq<B>, y: B)
    ensures y in FlatMap(s, g) <==> exists x :: x in s && y in g(x)
  {
    if s != [] {
      FlatMember(s[..|s| - 1], g, y);
      LastSplit(s);
    }
  }

  lemma KeyedGroup<K(!new)>(merged: seq<SpendingEntry>, foldKey: SpendingEntry -> Option<K>, e: SpendingEntry)
    requires foldKey(e).Some?
    ensures Filter(Filter(merged, Folds(foldKey)), WithKey(foldKey, foldKey(e))) == Repeated(merged, foldKey, e)
  {
    FilterWithin(merged, Folds(foldKey), WithKey(foldKey, foldKey(e)));
    FilterAgrees(merged, WithKey(foldKey, foldKey(e)), (x: SpendingEntry) => SameLine(foldKey, e, x));
    hide Filter;
  }

  lemma LoneHasNone<K(!new)>(merged: seq<SpendingEntry>, foldKey: SpendingEntry -> Option<K>, e: SpendingEntry)
    requires foldKey(e).None?
    ensures Repeated(merged, foldKey, e) == []
  {
    FilterNone(merged, (x: SpendingEntry) => SameLine(foldKey, e, x));
  }

  /** The lines of one group. */
  lemma GroupStandsAsLines<K(!new)>(
    merged: seq<SpendingEntry>, foldKey: SpendingEntry -> Option<K>, e: SpendingEntry, group: seq<SpendingEntry>)
    requires foldKey(e).Some? && e in merged && group == Repeated(merged, foldKey, e)
    ensures forall l :: l in LinesOf(group) ==> LineStands(merged, foldKey, l)
    ensures exists l :: l in LinesOf(group) && HasLine(merged, foldKey, e, l)
  {
    var same := (x: SpendingEntry) => SameLine(foldKey, e, x);
    FilterMember(merged, same, e);
    forall x | x in group ensures x in merged && SameLine(foldKey, e, x) && Repeated(merged, foldKey, x) == group {
      FilterMember(merged, same, x);
      FilterAgrees(merged, (y: SpendingEntry) => SameLine(foldKey, x, y), same);
    }
    hide Filter, Repeated;
    assert group[0] in group;
    if |group| >= 3 {
      assert LinesOf(group)[0] in LinesOf(group);
    } else {
      var i :| 0 <= i < |group| && group[i] == e;
      assert LinesOf(group)[i] in LinesOf(group);
    }
  }

  /** Before the lines are ordered. */
  lemma UnsortedStand<K(!new)>(merged: seq<SpendingEntry>, foldKey: SpendingEntry -> Option<K>, l: Line)
    requires l in UnsortedLines(merged, foldKey)
    ensures LineStands(merged, foldKey, l)
  {
    var loose, keyed := Filter(merged, Loose(foldKey)), Filter(merged, Folds(foldKey));
    var singles := Map(loose, SingleLine());
    FlatMember(FirstSeen(keyed, foldKey), LinesAt(keyed, foldKey), l);
    hide Filter, FlatMap, FirstSeen, LinesOf;
    if l in singles {
      var i :| 0 <= i < |singles| && singles[i] == l;
      FilterMember(merged, Loose(foldKey), loose[i]);
      LoneHasNone(merged, foldKey, loose[i]);
    } else {
      var k :| k in FirstSeen(keyed, foldKey) && l in LinesAt(keyed, foldKey)(k);
      var e := KeyWasSeen(keyed, foldKey, k);
      FilterMember(merged, Folds(foldKey), e);
      KeyedGroup(merged, foldKey, e);
      GroupStandsAsLines(merged, foldKey, e, Repeated(merged, foldKey, e));
    }
  }

  lemma EveryPaymentHasALine<K(!new)>(merged: seq<SpendingEntry>, foldKey: SpendingEntry -> Option<K>, e: SpendingEntry)
    requires e in merged
    ensures exists l :: l in UnsortedLines(merged, foldKey) && HasLine(merged, foldKey, e, l)
  {
    var loose, keyed := Filter(merged, Loose(foldKey)), Filter(merged, Folds(foldKey));
    hide Filter, FlatMap, FirstSeen, LinesOf, Repeated;
    if foldKey(e).None? {
      LoneHasNone(merged, foldKey, e);
      FilterMember(merged, Loose(foldKey), e);
      var i :| 0 <= i < |loose| && loose[i] == e;
      var l := Line(e, 1, e.amount);
      assert Map(loose, SingleLine())[i] == l;
      assert l in UnsortedLines(merged, foldKey) && HasLine(merged, foldKey, e, l);
    } else {
      FilterMember(merged, Folds(foldKey), e);
      SeenHasKey(keyed, foldKey, e);
      KeyedGroup(merged, foldKey, e);
      var group := Repeated(merged, foldKey, e);
      GroupStandsAsLines(merged, foldKey, e, group);
      var l :| l in LinesOf(group) && HasLine(merged, foldKey, e, l);
      assert LinesAt(keyed, foldKey)(foldKey(e)) == LinesOf(group);
      FlatMember(FirstSeen(keyed, foldKey), LinesAt(keyed, foldKey), l);
      assert l in UnsortedLines(merged, foldKey);
    }
  }

  function One(): SpendingEntry -> int { (e: SpendingEntry) => 1 }

  lemma {:induction false} OnesCount<T>(s: seq<T>, f: T -> int)
    requires forall x :: x in s ==> f(x) == 1
    ensures Sum(s, f) == |s|
  {
    if s != [] { OnesCount(s[..|s| - 1], f); }
  }

  lemma GroupCounts(group: seq<SpendingEntry>)
    ensures Sum(LinesOf(group), LineCount()) == |group|
  {
    if |group| >= 3 {
      SumOne(Line(group[0], |group|, group[0].amount * |group|), LineCount());
    } else {
      SumMap(group, SingleLine(), LineCount(), One());
      OnesCount(group, One());
    }
  }

  lemma LinesCount<K(!new)>(merged: seq<SpendingEntry>, foldKey: SpendingEntry -> Option<K>)
    ensures Sum(UnsortedLines(merged, foldKey), LineCount()) == |merged|
  {
    var loose, keyed := Filter(merged, Loose(foldKey)), Filter(merged, Folds(foldKey));
    var keys := FirstSeen(keyed, foldKey);
    DisjointSum(merged, Any(), Loose(foldKey), Folds(foldKey), One());
    FilterAll(merged, Any());
    OnesCount(merged, One());
    hide Filter, Sum, FlatMap, FirstSeen, LinesOf, TotalAt;
    SumMap(loose, SingleLine(), LineCount(), One());
    forall k | k in keys ensures Sum(LinesAt(keyed, foldKey)(k), LineCount()) == TotalAt(keyed, foldKey, One())(k) {
      var group := Filter(keyed, WithKey(foldKey, k));
      GroupCounts(group);
      OnesCount(group, One());
      TotalIs(keyed, foldKey, k);
    }
    FlatSum(keys, LinesAt(keyed, foldKey), LineCount(), TotalAt(keyed, foldKey, One()));
    PartitionSum(keyed, foldKey, One());
    SumConcat(Map(loose, SingleLine()), FlatMap(keys, LinesAt(keyed, foldKey)), LineCount());
  }

  lemma TotalIs<K(!new)>(keyed: seq<SpendingEntry>, foldKey: SpendingEntry -> Option<K>, k: Option<K>)
    ensures TotalAt(keyed, foldKey, One())(k) == Sum(Filter(keyed, WithKey(foldKey, k)), One())
  {
    hide Filter, Sum;
  }

  lemma LineOrderMeans(a: Line, b: Line)
    ensures LineOrder()(a, b) <==> LineBefore(a, b)
  {
  }

  lemma SortedLines(plain: seq<Line>, lines: seq<Line>)
    requires lines == Sort(plain, LineOrder())
    ensures (forall l :: l in lines <==> l in plain) && Sum(lines, LineCount()) == Sum(plain, LineCount())
    ensures forall i, j :: 0 <= i < j < |lines| ==> LineBefore(lines[i], lines[j])
  {
    assert TotalOrder(LineOrder());
    hide LineOrder, LineBefore, TotalOrder, Sort;
    SortOrdered(plain, LineOrder());
    SortKeeps(plain, LineOrder());
    SameElements(lines, plain);
    SameElements(plain, lines);
    SortSum(plain, LineOrder(), LineCount());
    forall i, j | 0 <= i < j < |lines| ensures LineBefore(lines[i], lines[j]) { LineOrderMeans(lines[i], lines[j]); }
  }

  /** The statement of a section is just these lines, whatever key folds them. */
  lemma StatementMeans<K(!new)>(merged: seq<SpendingEntry>, foldKey: SpendingEntry -> Option<K>)
    ensures LinesStand(merged, foldKey, Sort(UnsortedLines(merged, foldKey), LineOrder()))
  {
    hide UnsortedLines, Sort, LineStands, HasLine, LineOrder, LineBefore, Sum;
    var plain := UnsortedLines(merged, foldKey);
    var lines := Sort(plain, LineOrder());
    SortedLines(plain, lines);
    LinesCount(merged, foldKey);
    forall l | l in lines ensures LineStands(merged, foldKey, l) { UnsortedStand(merged, foldKey, l); }
    forall e | e in merged ensures exists l :: l in lines && HasLine(merged, foldKey, e, l) {
      EveryPaymentHasALine(merged, foldKey, e);
    }
  }

  // ---- the grouping a level opens with ------------------------------------------------------------

  predicate Fixed(f: ExploreFilter, dim: Dimension) { exists i :: 0 <= i < |f.path| && f.path[i].dim == dim }

  /** A fixed envelope leaves nothing for its group to split. */
  predicate StillSplits(f: ExploreFilter, dim: Dimension) {
    !Fixed(f, dim) && (dim == ByGroup ==> !Fixed(f, ByEnvelope))
  }

  /** Envelope, then down from group over envelope and category to place, then the list. */
  function Natural(f: ExploreFilter): Option<Dimension> {
    if f.path == [] then Some(ByEnvelope)
    else
      match f.path[|f.path| - 1].dim
      case ByGroup => Some(ByEnvelope)
      case ByEnvelope => Some(ByCategory)
      case ByCategory => Some(ByPlace)
      case ByPlace => None
  }

  lemma FixedMeans(f: ExploreFilter, dim: Dimension)
    ensures Narrowed(f, dim) <==> Fixed(f, dim)
  {
    if s :| s in f.path && s.dim == dim {
      var i :| 0 <= i < |f.path| && f.path[i] == s;
    }
    if i :| 0 <= i < |f.path| && f.path[i].dim == dim { assert f.path[i] in f.path; }
  }

  lemma PathDimsStep(f: ExploreFilter, dim: Dimension, dims: seq<Dimension>)
    ensures PathDims(f, [dim] + dims) ==
      (if StillSplits(f, dim) then [OpenBy(ByDimension(dim))] else []) + PathDims(f, dims)
  {
    FixedMeans(f, dim);
    FixedMeans(f, ByEnvelope);
    hide Narrowed, Fixed;
    assert ([dim] + dims)[1..] == dims;
  }

  function FirstOpen(f: ExploreFilter, dims: seq<Dimension>): Opening {
    if dims == [] then OpenList
    else if StillSplits(f, dims[0]) then OpenBy(ByDimension(dims[0])) else FirstOpen(f, dims[1..])
  }

  lemma {:induction false} PathDimsMean(f: ExploreFilter, dims: seq<Dimension>)
    ensures forall o :: o in PathDims(f, dims) <==>
      o.OpenBy? && o.g.ByDimension? && o.g.dim in dims && StillSplits(f, o.g.dim)
    ensures FirstOpen(f, dims) == if PathDims(f, dims) == [] then OpenList else PathDims(f, dims)[0]
  {
    if dims != [] {
      PathDimsMean(f, dims[1..]);
      PathDimsStep(f, dims[0], dims[1..]);
      assert dims == [dims[0]] + dims[1..];
      hide StillSplits, PathDims;
    }
  }

  /** The natural next dimension if it still splits, else the first that does, else the list. */
  lemma DefaultMeans(f: ExploreFilter, spansMonths: bool)
    ensures DefaultGrouping(f, spansMonths) ==
      if Natural(f) == None then OpenList
      else if StillSplits(f, Natural(f).value) then OpenBy(ByDimension(Natural(f).value))
      else FirstOpen(f, [ByEnvelope, ByGroup, ByCategory, ByPlace])
  {
    hide StillSplits, PathDims, AvailableGroupings, FirstDim, FirstOpen, OtherOpenings;
    var all := [ByEnvelope, ByGroup, ByCategory, ByPlace];
    var dims, rest := PathDims(f, all), OtherOpenings(f, spansMonths);
    Availability(f, spansMonths, all);
    AllDims(all);
    PathDimsMean(f, all);
    OtherOpeningsMean(f, spansMonths);
    FirstOfDims(dims, rest);
    var next := if Natural(f) == None then OpenList else OpenBy(ByDimension(Natural(f).value));
    assert next in dims + rest <==> Natural(f) == None || StillSplits(f, Natural(f).value);
    DefaultIs(f, spansMonths, next);
  }

  lemma DefaultIs(f: ExploreFilter, spansMonths: bool, next: Opening)
    requires next == if Natural(f) == None then OpenList else OpenBy(ByDimension(Natural(f).value))
    ensures DefaultGrouping(f, spansMonths) ==
      if next in AvailableGroupings(f, spansMonths) then next else FirstDim(AvailableGroupings(f, spansMonths))
  {
    hide AvailableGroupings, FirstDim;
  }

  lemma Availability(f: ExploreFilter, spansMonths: bool, all: seq<Dimension>)
    requires all == [ByEnvelope, ByGroup, ByCategory, ByPlace]
    ensures AvailableGroupings(f, spansMonths) == PathDims(f, all) + OtherOpenings(f, spansMonths)
  {
    hide PathDims;
  }

  lemma AllDims(all: seq<Dimension>)
    requires all == [ByEnvelope, ByGroup, ByCategory, ByPlace]
    ensures forall d: Dimension :: d in all
  {
    assert all[0] == ByEnvelope && all[1] == ByGroup && all[2] == ByCategory && all[3] == ByPlace;
    forall d: Dimension ensures d in all {
      match d case ByEnvelope => case ByGroup => case ByCategory => case ByPlace =>
    }
  }

  function OtherOpenings(f: ExploreFilter, spansMonths: bool): seq<Opening> {
    (if |f.accounts| != 1 then [OpenBy(ByAccount)] else []) + ((if spansMonths then [OpenBy(ByMonth)] else []) +
      [OpenList])
  }

  lemma OtherOpeningsMean(f: ExploreFilter, spansMonths: bool)
    ensures var rest := OtherOpenings(f, spansMonths);
      OpenList in rest && forall o :: o in rest ==> o.OpenList? || !o.g.ByDimension?
  {
    var rest := OtherOpenings(f, spansMonths);
    assert rest[|rest| - 1] == OpenList;
  }

  lemma {:induction false} FirstOfDims(dims: seq<Opening>, rest: seq<Opening>)
    requires forall o :: o in dims ==> o.OpenBy? && o.g.ByDimension?
    requires forall o :: o in rest ==> o.OpenList? || !o.g.ByDimension?
    ensures FirstDim(dims + rest) == if dims == [] then OpenList else dims[0]
  {
    if dims == [] {
      assert dims + rest == rest;
      NoDims(rest);
    } else {
      assert (dims + rest)[0] == dims[0] && dims[0] in dims;
    }
  }

  lemma {:induction false} NoDims(rest: seq<Opening>)
    requires forall o :: o in rest ==> o.OpenList? || !o.g.ByDimension?
    ensures FirstDim(rest) == OpenList
  {
    if rest != [] {
      assert rest[0] in rest;
      NoDims(rest[1..]);
    }
  }
}
