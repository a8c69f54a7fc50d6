/** What the explorer makes of its entries: levels, one line per transaction, folded repeats. */
module SpendingBreakdown {
  import opened Sequences
  import opened Sorting
  import opened KeyedTotals
  import opened Ledger
  import opened SpendingReports
  import opened SpendingExplorer

  datatype Grouping = ByDimension(dim: Dimension) | ByAccount | ByMonth

  datatype LevelKey = DimensionKey(key: Key) | AccountKey(account: Id) | MonthKey(month: Month)

  function GroupingKey(g: Grouping): SpendingEntry -> LevelKey {
    (e: SpendingEntry) =>
      match g
      case ByDimension(dim) => DimensionKey(DimKey(e, dim))
      case ByAccount => AccountKey(e.account)
      case ByMonth => MonthKey(e.date.month)
  }

  predicate DateAtMost(a: Date, b: Date) { a.month < b.month || (a.month == b.month && a.day <= b.day) }

  /** The order of entry ids as text. */
  type IdOrder = (EntryRef, EntryRef) -> bool

  function LargestEntry(idAtMost: IdOrder): (SpendingEntry, SpendingEntry) -> bool {
    (a: SpendingEntry, b: SpendingEntry) =>
      a.amount > b.amount ||
      (a.amount == b.amount && (!DateAtMost(a.date, b.date) || (a.date == b.date && idAtMost(a.id, b.id))))
  }

  function SortLargest(entries: seq<SpendingEntry>, idAtMost: IdOrder): seq<SpendingEntry> {
    Sort(entries, LargestEntry(idAtMost))
  }

  // ---- levels -------------------------------------------------------------------------------------------

  datatype ExploreRow = ExploreRow(key: LevelKey, amount: Money, entries: seq<SpendingEntry>)

  function RowFor(entries: seq<SpendingEntry>, g: Grouping): LevelKey -> ExploreRow {
    (k: LevelKey) => ExploreRow(k, TotalAt(entries, GroupingKey(g), EntryAmount())(k),
      Filter(entries, WithKey(GroupingKey(g), k)))
  }

  function SortedRow(idAtMost: IdOrder): ExploreRow -> ExploreRow {
    (r: ExploreRow) => r.(entries := SortLargest(r.entries, idAtMost))
  }

  function RowOrder(g: Grouping): (ExploreRow, ExploreRow) -> bool {
    (a: ExploreRow, b: ExploreRow) =>
      if g == ByMonth && a.key.MonthKey? && b.key.MonthKey? then a.key.month >= b.key.month else a.amount >= b.amount
  }

  function BreakdownOf(entries: seq<SpendingEntry>, g: Grouping, idAtMost: IdOrder): seq<ExploreRow> {
    Sort(Map(Map(FirstSeen(entries, GroupingKey(g)), RowFor(entries, g)), SortedRow(idAtMost)), RowOrder(g))
  }

  ghost predicate RowsKept(
    entries: seq<SpendingEntry>, g: Grouping, order: seq<LevelKey>, rows: map<LevelKey, ExploreRow>)
  {
    order == FirstSeen(entries, GroupingKey(g)) && (forall k :: k in rows <==> k in order) &&
    forall k :: k in rows ==> rows[k] == RowFor(entries, g)(k)
  }

  lemma RowStep(entries: seq<SpendingEntry>, e: SpendingEntry, g: Grouping, k: LevelKey)
    ensures var before := RowFor(entries, g)(k);
      RowFor(entries + [e], g)(k) ==
        if GroupingKey(g)(e) == k then ExploreRow(k, before.amount + e.amount, before.entries + [e]) else before
  {
    TotalStep(entries, e, GroupingKey(g), EntryAmount(), k);
    FilterOneMore(entries, e, WithKey(GroupingKey(g), k));
    hide Filter, TotalAt, GroupingKey;
  }

  lemma NoRow(entries: seq<SpendingEntry>, g: Grouping, k: LevelKey)
    requires k !in FirstSeen(entries, GroupingKey(g))
    ensures RowFor(entries, g)(k) == ExploreRow(k, 0, [])
  {
    NotSeen(entries, GroupingKey(g), EntryAmount(), k);
    hide Filter, TotalAt, GroupingKey, FirstSeen;
  }

  lemma RowsStep(
    entries: seq<SpendingEntry>, e: SpendingEntry, g: Grouping, order: seq<LevelKey>, rows: map<LevelKey, ExploreRow>)
    requires RowsKept(entries, g, order, rows)
    ensures var k := GroupingKey(g)(e);
      var row := if k in rows then rows[k] else ExploreRow(k, 0, []);
      RowsKept(entries + [e], g, if k in rows then order
        else order + [k], rows[k := ExploreRow(k, row.amount + e.amount, row.entries + [e])])
  {
    var k := GroupingKey(g)(e);
    FirstSeenStep(entries, e, GroupingKey(g));
    if k !in rows { NoRow(entries, g, k); }
    hide RowFor, GroupingKey, FirstSeen;
    forall j: LevelKey ensures RowFor(entries + [e], g)(j) ==
      if k == j then ExploreRow(j, RowFor(entries, g)(j).amount + e.amount, RowFor(entries, g)(j).entries + [e])
        else RowFor(entries, g)(j)
    {
      RowStep(entries, e, g, j);
    }
  }

  lemma NoRows(g: Grouping)
    ensures RowsKept([], g, [], map[])
  {
  }

  function RowIn(rows: map<LevelKey, ExploreRow>): LevelKey -> ExploreRow {
    (k: LevelKey) => if k in rows then rows[k] else ExploreRow(k, 0, [])
  }

  lemma RowsDone(entries: seq<SpendingEntry>, g: Grouping, order: seq<LevelKey>, rows: map<LevelKey, ExploreRow>)
    requires RowsKept(entries, g, order, rows)
    ensures Map(order, RowIn(rows)) == Map(FirstSeen(entries, GroupingKey(g)), RowFor(entries, g))
  {
    hide RowFor, FirstSeen, GroupingKey;
    MapAgrees(order, RowIn(rows), RowFor(entries, g));
  }

  method BreakdownEntries(entries: seq<SpendingEntry>, g: Grouping, idAtMost: IdOrder) returns (list: seq<ExploreRow>)
    ensures list == BreakdownOf(entries, g, idAtMost)
  {
    var rows: map<LevelKey, ExploreRow>, order: seq<LevelKey> := map[], [];
    NoRows(g);
    assert entries[..0] == [];
    for i := 0 to |entries|
      invariant RowsKept(entries[..i], g, order, rows)
    {
      hide *;
      var e := entries[i];
      var key := GroupingKey(g)(e);
      RowsStep(entries[..i], e, g, order, rows);
      TakeOneMore(entries, i);
      var row := if key in rows then rows[key] else ExploreRow(key, 0, []);
      if key !in rows { order := order + [key]; }
      rows := rows[key := ExploreRow(key, row.amount + e.amount, row.entries + [e])];
    }
    WholeTake(entries);
    RowsDone(entries, g, order, rows);
    list := Sort(Map(Map(order, RowIn(rows)), SortedRow(idAtMost)), RowOrder(g));
  }

  function RowMoney(): ExploreRow -> int { (r: ExploreRow) => r.amount }

  /** A row stands for exactly the entries with its key, and its amount is theirs. */
  ghost predicate RowIsItsEntries(entries: seq<SpendingEntry>, g: Grouping, r: ExploreRow) {
    r.amount == Sum(r.entries, EntryAmount()) && multiset(r.entries) ==
      multiset(Filter(entries, WithKey(GroupingKey(g), r.key)))
  }

  lemma SortedRowIsItsEntries(entries: seq<SpendingEntry>, g: Grouping, idAtMost: IdOrder, k: LevelKey)
    ensures RowIsItsEntries(entries, g, SortedRow(idAtMost)(RowFor(entries, g)(k)))
  {
    var own := Filter(entries, WithKey(GroupingKey(g), k));
    SortKeeps(own, LargestEntry(idAtMost));
    SortSum(own, LargestEntry(idAtMost), EntryAmount());
    assert TotalAt(entries, GroupingKey(g), EntryAmount())(k) == Sum(own, EntryAmount());
    var r := SortedRow(idAtMost)(RowFor(entries, g)(k));
    assert r.key == k && r.entries == Sort(own, LargestEntry(idAtMost)) && r.amount == Sum(own, EntryAmount());
    hide Sort, Filter, Sum, GroupingKey, LargestEntry, TotalAt, WithKey, RowFor, SortedRow;
  }

  /** A level loses no money: its rows add up to the entries it was made of, and so does each row. */
  lemma {:induction false} BreakdownConserves(entries: seq<SpendingEntry>, g: Grouping, idAtMost: IdOrder)
    ensures Sum(BreakdownOf(entries, g, idAtMost), RowMoney()) == Sum(entries, EntryAmount())
    ensures forall r :: r in BreakdownOf(entries, g, idAtMost) ==> RowIsItsEntries(entries, g, r)
    ensures |BreakdownOf(entries, g, idAtMost)| == |FirstSeen(entries, GroupingKey(g))|
  {
    var keys := FirstSeen(entries, GroupingKey(g));
    var plain := Map(keys, RowFor(entries, g));
    var rows := Map(plain, SortedRow(idAtMost));
    SortSum(rows, RowOrder(g), RowMoney());
    SortKeeps(rows, RowOrder(g));
    SameElements(BreakdownOf(entries, g, idAtMost), rows);
    PartitionSum(entries, GroupingKey(g), EntryAmount());
    assert BreakdownOf(entries, g, idAtMost) == Sort(rows, RowOrder(g));
    hide Sort, Filter, Sum, FirstSeen, GroupingKey, TotalAt, SortLargest, RowIsItsEntries, BreakdownOf;
    SumMap(plain, SortedRow(idAtMost), RowMoney(), RowMoney());
    SumMap(keys, RowFor(entries, g), RowMoney(), TotalAt(entries, GroupingKey(g), EntryAmount()));
    forall r | r in rows ensures RowIsItsEntries(entries, g, r) {
      var i :| 0 <= i < |rows| && rows[i] == r;
      SortedRowIsItsEntries(entries, g, idAtMost, keys[i]);
    }
  }

  // ---- one line per transaction -------------------------------------------------------------------------

  function TxnOf(): SpendingEntry -> Id { (e: SpendingEntry) => e.txnId }

  function MergeInto(m: SpendingEntry, e: SpendingEntry): SpendingEntry {
    m.(amount := m.amount + e.amount, mixed := m.mixed + set d | d in {ByGroup, ByEnvelope, ByCategory} &&
      DimKey(m, d) != DimKey(e, d))
  }

  const NO_ENTRY := SpendingEntry(WholeTxn(0), 0, Date(0, 0), None, None, None, None, 0, 0, {})

  /** The first entry under its transaction's id, with the amounts and differences of the others. */
  function Merged(group: seq<SpendingEntry>): SpendingEntry {
    if group == [] then NO_ENTRY
    else if |group| == 1 then group[0].(id := WholeTxn(group[0].txnId))
    else MergeInto(Merged(group[..|group| - 1]), group[|group| - 1])
  }

  function MergedAt(entries: seq<SpendingEntry>): Id -> SpendingEntry {
    (k: Id) => Merged(Filter(entries, WithKey(TxnOf(), k)))
  }

  function MergeAll(entries: seq<SpendingEntry>): seq<SpendingEntry> {
    Map(FirstSeen(entries, TxnOf()), MergedAt(entries))
  }

  ghost predicate MergesKept(entries: seq<SpendingEntry>, order: seq<Id>, byTxn: map<Id, SpendingEntry>) {
    order == FirstSeen(entries, TxnOf()) && (forall k :: k in byTxn <==> k in order) &&
    forall k :: k in byTxn ==> byTxn[k] == MergedAt(entries)(k)
  }

  lemma MergedStep(group: seq<SpendingEntry>, e: SpendingEntry)
    ensures group == [] ==> Merged(group + [e]) == e.(id := WholeTxn(e.txnId))
    ensures group != [] ==> Merged(group + [e]) == MergeInto(Merged(group), e)
  {
    hide MergeInto;
    assert (group + [e])[..|group|] == group;
  }

  lemma MergedAtStep(entries: seq<SpendingEntry>, e: SpendingEntry, k: Id)
    ensures e.txnId != k ==> MergedAt(entries + [e])(k) == MergedAt(entries)(k)
    ensures e.txnId == k && k in FirstSeen(entries, TxnOf()) ==>
      MergedAt(entries + [e])(k) == MergeInto(MergedAt(entries)(k), e)
    ensures e.txnId == k && k !in FirstSeen(entries, TxnOf()) ==>
      MergedAt(entries + [e])(k) == e.(id := WholeTxn(e.txnId))
  {
    var group := Filter(entries, WithKey(TxnOf(), k));
    FilterOneMore(entries, e, WithKey(TxnOf(), k));
    if k in FirstSeen(entries, TxnOf()) {
      var x := KeyWasSeen(entries, TxnOf(), k);
      FilterMember(entries, WithKey(TxnOf(), k), x);
    } else {
      NotSeen(entries, TxnOf(), EntryAmount(), k);
    }
    MergedStep(group, e);
    hide Filter, Merged, MergeInto, FirstSeen;
  }

  lemma MergesStep(entries: seq<SpendingEntry>, e: SpendingEntry, order: seq<Id>, byTxn: map<Id, SpendingEntry>)
    requires MergesKept(entries, order, byTxn)
    ensures var k := e.txnId;
      MergesKept(entries + [e], if k in byTxn then order else order + [k],
                 byTxn[k := if k in byTxn then MergeInto(byTxn[k], e) else e.(id := WholeTxn(k))])
  {
    FirstSeenStep(entries, e, TxnOf());
    hide MergedAt, FirstSeen, MergeInto;
    forall k: Id
      ensures e.txnId != k ==> MergedAt(entries + [e])(k) == MergedAt(entries)(k)
      ensures e.txnId == k && k in FirstSeen(entries, TxnOf()) ==>
        MergedAt(entries + [e])(k) == MergeInto(MergedAt(entries)(k), e)
      ensures e.txnId == k && k !in FirstSeen(entries, TxnOf()) ==>
        MergedAt(entries + [e])(k) == e.(id := WholeTxn(e.txnId))
    {
      MergedAtStep(entries, e, k);
    }
  }

  lemma NoMerges()
    ensures MergesKept([], [], map[])
  {
  }

  function MergeIn(byTxn: map<Id, SpendingEntry>): Id -> SpendingEntry {
    (k: Id) => if k in byTxn then byTxn[k] else NO_ENTRY
  }

  lemma MergesDone(entries: seq<SpendingEntry>, order: seq<Id>, byTxn: map<Id, SpendingEntry>)
    requires MergesKept(entries, order, byTxn)
    ensures Map(order, MergeIn(byTxn)) == MergeAll(entries)
  {
    hide MergedAt, FirstSeen;
    MapAgrees(order, MergeIn(byTxn), MergedAt(entries));
  }

  method MergeByTransaction(entries: seq<SpendingEntry>) returns (merged: seq<SpendingEntry>)
    ensures merged == MergeAll(entries)
  {
    hide *;
    var byTxn: map<Id, SpendingEntry>, order: seq<Id> := map[], [];
    NoMerges();
    TakeNone(entries);
    for i := 0 to |entries|
      invariant MergesKept(entries[..i], order, byTxn)
    {
      var e := entries[i];
      MergesStep(entries[..i], e, order, byTxn);
      TakeOneMore(entries, i);
      if e.txnId !in byTxn {
        order := order + [e.txnId];
        byTxn := byTxn[e.txnId := e.(id := WholeTxn(e.txnId))];
      } else {
        byTxn := byTxn[e.txnId := MergeInto(byTxn[e.txnId], e)];
      }
    }
    WholeTake(entries);
    MergesDone(entries, order, byTxn);
    merged := Map(order, MergeIn(byTxn));
  }

  lemma TakeNone<T>(s: seq<T>)
    ensures s[..0] == []
  {
  }

  lemma {:induction false} MergedAmount(group: seq<SpendingEntry>)
    ensures Merged(group).amount == Sum(group, EntryAmount())
    ensures group != [] ==> Merged(group).txnId == group[0].txnId && Merged(group).id == WholeTxn(group[0].txnId)
  {
    if |group| > 1 {
      MergedAmount(group[..|group| - 1]);
    } else if |group| == 1 {
      SumOne(group[0], EntryAmount());
      assert group == [group[0]];
    }
  }

  /** Merging keeps the money and leaves one line per transaction. */
  lemma {:induction false} MergeConserves(entries: seq<SpendingEntry>)
    ensures Sum(MergeAll(entries), EntryAmount()) == Sum(entries, EntryAmount())
    ensures Map(MergeAll(entries), TxnOf()) == FirstSeen(entries, TxnOf()) && EachOnce(FirstSeen(entries, TxnOf()))
  {
    var keys := FirstSeen(entries, TxnOf());
    FirstSeenOnce(entries, TxnOf());
    PartitionSum(entries, TxnOf(), EntryAmount());
    forall k ensures EntryAmount()(MergedAt(entries)(k)) == TotalAt(entries, TxnOf(), EntryAmount())(k) {
      MergedAmount(Filter(entries, WithKey(TxnOf(), k)));
    }
    forall i | 0 <= i < |keys| ensures MergeAll(entries)[i].txnId == keys[i] {
      var k := keys[i];
      var x := KeyWasSeen(entries, TxnOf(), k);
      var group := Filter(entries, WithKey(TxnOf(), k));
      FilterMember(entries, WithKey(TxnOf(), k), x);
      MergedAmount(group);
      FilterMember(entries, WithKey(TxnOf(), k), group[0]);
      hide Merged, Filter, FirstSeen;
    }
    hide Filter, Sum, FirstSeen, TotalAt, MergedAt, EachOnce;
    SumMap(keys, MergedAt(entries), EntryAmount(), TotalAt(entries, TxnOf(), EntryAmount()));
  }

  // ---- folding repeated lines ---------------------------------------------------------------------------

  datatype Line = Line(entry: SpendingEntry, count: nat, amount: Money)

  function SingleLine(): SpendingEntry -> Line { (e: SpendingEntry) => Line(e, 1, e.amount) }

  /** Three or more payments become one line. */
  function LinesOf(group: seq<SpendingEntry>): seq<Line> {
    if |group| >= 3 then [Line(group[0], |group|, group[0].amount * |group|)] else Map(group, SingleLine())
  }

  function Folds<K>(foldKey: SpendingEntry -> Option<K>): SpendingEntry -> bool {
    (e: SpendingEntry) => foldKey(e).Some?
  }

  function Loose<K>(foldKey: SpendingEntry -> Option<K>): SpendingEntry -> bool {
    (e: SpendingEntry) => foldKey(e).None?
  }

  function LinesAt<K(==)>(keyed: seq<SpendingEntry>, foldKey: SpendingEntry -> Option<K>): Option<K> -> seq<Line> {
    (k: Option<K>) => LinesOf(Filter(keyed, WithKey(foldKey, k)))
  }

  function LineOrder(): (Line, Line) -> bool {
    (a: Line, b: Line) => a.amount > b.amount || (a.amount == b.amount && DateAtMost(b.entry.date, a.entry.date))
  }

  function UnsortedLines<K(==)>(merged: seq<SpendingEntry>, foldKey: SpendingEntry -> Option<K>): seq<Line> {
    var keyed := Filter(merged, Folds(foldKey));
    Map(Filter(merged, Loose(foldKey)), SingleLine()) + FlatMap(FirstSeen(keyed, foldKey), LinesAt(keyed, foldKey))
  }

  function LineAmount(): Line -> int { (l: Line) => l.amount }

  /** Payments that fold together have the same amount. */
  ghost predicate FoldsEqualAmounts<K(!new)>(foldKey: SpendingEntry -> Option<K>) {
    forall a, b :: foldKey(a).Some? && foldKey(a) == foldKey(b) ==> a.amount == b.amount
  }

  lemma {:induction false} SumConst(group: seq<SpendingEntry>, amount: Money)
    requires forall e :: e in group ==> e.amount == amount
    ensures Sum(group, EntryAmount()) == amount * |group|
  {
    if group != [] {
      var n := |group| - 1;
      SumConst(group[..n], amount);
      assert amount * |group| == amount * n + amount;
    }
  }

  lemma LinesKeepAmount(group: seq<SpendingEntry>)
    requires forall e :: e in group ==> e.amount == group[0].amount
    ensures Sum(LinesOf(group), LineAmount()) == Sum(group, EntryAmount())
  {
    if |group| >= 3 {
      SumConst(group, group[0].amount);
      SumOne(Line(group[0], |group|, group[0].amount * |group|), LineAmount());
    } else {
      SumMap(group, SingleLine(), LineAmount(), EntryAmount());
    }
  }

  lemma LinesAtAmount<K(!new)>(keyed: seq<SpendingEntry>, foldKey: SpendingEntry -> Option<K>, k: Option<K>)
    requires FoldsEqualAmounts(foldKey) && forall e :: e in keyed ==> foldKey(e).Some?
    ensures Sum(LinesAt(keyed, foldKey)(k), LineAmount()) == TotalAt(keyed, foldKey, EntryAmount())(k)
  {
    var group := Filter(keyed, WithKey(foldKey, k));
    forall e | e in group ensures e.amount == group[0].amount {
      FilterMember(keyed, WithKey(foldKey, k), e);
      FilterMember(keyed, WithKey(foldKey, k), group[0]);
    }
    hide Filter, LinesOf, FoldsEqualAmounts;
    LinesKeepAmount(group);
  }

  /** Folding keeps the money of the transactions it lists. */
  lemma {:induction false} FoldingConserves<K(!new)>(entries: seq<SpendingEntry>, foldKey: SpendingEntry -> Option<K>)
    requires FoldsEqualAmounts(foldKey)
    ensures Sum(Sort(UnsortedLines(MergeAll(entries), foldKey), LineOrder()), LineAmount()) ==
      Sum(entries, EntryAmount())
  {
    hide *;
    MergeConserves(entries);
    UnsortedConserves(MergeAll(entries), foldKey);
    SortSum(UnsortedLines(MergeAll(entries), foldKey), LineOrder(), LineAmount());
  }

  lemma UnsortedConserves<K(!new)>(merged: seq<SpendingEntry>, foldKey: SpendingEntry -> Option<K>)
    requires FoldsEqualAmounts(foldKey)
    ensures Sum(UnsortedLines(merged, foldKey), LineAmount()) == Sum(merged, EntryAmount())
  {
    var loose, keyed := Filter(merged, Loose(foldKey)), Filter(merged, Folds(foldKey));
    forall e | e in keyed ensures foldKey(e).Some? { FilterMember(merged, Folds(foldKey), e); }
    DisjointSum(merged, Any(), Loose(foldKey), Folds(foldKey), EntryAmount());
    FilterAll(merged, Any());
    hide FoldsEqualAmounts, Filter, Sum, FlatMap, FirstSeen, LinesAt, TotalAt;
    SumMap(loose, SingleLine(), LineAmount(), EntryAmount());
    forall k | k in FirstSeen(keyed, foldKey)
      ensures Sum(LinesAt(keyed, foldKey)(k), LineAmount()) == TotalAt(keyed, foldKey, EntryAmount())(k)
    {
      LinesAtAmount(keyed, foldKey, k);
    }
    FlatSum(FirstSeen(keyed, foldKey), LinesAt(keyed, foldKey), LineAmount(), TotalAt(keyed, foldKey, EntryAmount()));
    PartitionSum(keyed, foldKey, EntryAmount());
    SumConcat(Map(loose, SingleLine()), FlatMap(FirstSeen(keyed, foldKey), LinesAt(keyed, foldKey)), LineAmount());
  }

  function PlaceAndAmount(): SpendingEntry -> Option<(Id, Money)> {
    (e: SpendingEntry) => if e.place.None? then None else Some((e.place.value, e.amount))
  }

  datatype IdenticalKey = IdenticalKey(name: Option<string>, place: Key, envelope: Key, category: Key, account: Id,
    amount: Money)

  function IdenticalLineKey(nameOf: SpendingEntry -> Option<string>): SpendingEntry -> Option<IdenticalKey> {
    (e: SpendingEntry) =>
      if e.mixed != {} || (nameOf(e).None? && e.place.None?) then None
      else Some(IdenticalKey(nameOf(e), e.place, e.envelope, e.category, e.account, e.amount))
  }

  /** Both ways of folding the program uses keep the money. */
  lemma {:induction false} StatementsConserve(entries: seq<SpendingEntry>, nameOf: SpendingEntry -> Option<string>)
    ensures Sum(Sort(UnsortedLines(MergeAll(entries), PlaceAndAmount()), LineOrder()), LineAmount()) ==
      Sum(entries, EntryAmount())
    ensures Sum(Sort(UnsortedLines(MergeAll(entries), IdenticalLineKey(nameOf)), LineOrder()), LineAmount()) ==
      Sum(entries, EntryAmount())
  {
    assert FoldsEqualAmounts(PlaceAndAmount());
    assert FoldsEqualAmounts(IdenticalLineKey(nameOf));
    hide *;
    FoldingConserves(entries, PlaceAndAmount());
    FoldingConserves(entries, IdenticalLineKey(nameOf));
  }

  ghost predicate GroupsKept<K(!new)>(
    merged: seq<SpendingEntry>, foldKey: SpendingEntry -> Option<K>, order: seq<Option<K>>,
    groups: map<Option<K>, seq<SpendingEntry>>, lines: seq<Line>)
  {
    var keyed := Filter(merged, Folds(foldKey));
    && order == FirstSeen(keyed, foldKey) && (forall k :: k in groups <==> k in order)
    && (forall k :: k in groups ==> groups[k] == Filter(keyed, WithKey(foldKey, k)))
    && lines == Map(Filter(merged, Loose(foldKey)), SingleLine())
  }

  lemma LooseStep<K(!new)>(
    merged: seq<SpendingEntry>, e: SpendingEntry, foldKey: SpendingEntry -> Option<K>, order: seq<Option<K>>,
    groups: map<Option<K>, seq<SpendingEntry>>, lines: seq<Line>)
    requires GroupsKept(merged, foldKey, order, groups, lines) && foldKey(e).None?
    ensures GroupsKept(merged + [e], foldKey, order, groups, lines + [Line(e, 1, e.amount)])
  {
    FilterOneMore(merged, e, Folds(foldKey));
    FilterOneMore(merged, e, Loose(foldKey));
    hide Filter, FirstSeen;
    MapConcat(Filter(merged, Loose(foldKey)), [e], SingleLine());
    MapOne(e, SingleLine());
  }

  lemma GroupStep<K(!new)>(
    keyed: seq<SpendingEntry>, e: SpendingEntry, foldKey: SpendingEntry -> Option<K>, k: Option<K>)
    ensures Filter(keyed + [e], WithKey(foldKey, k)) ==
      if k == foldKey(e) then Filter(keyed, WithKey(foldKey, k)) + [e] else Filter(keyed, WithKey(foldKey, k))
  {
    FilterOneMore(keyed, e, WithKey(foldKey, k));
    hide Filter;
  }

  lemma GroupSteps<K(!new)>(keyed: seq<SpendingEntry>, e: SpendingEntry, foldKey: SpendingEntry -> Option<K>)
    ensures forall k: Option<K> ::
      Filter(keyed + [e], WithKey(foldKey, k)) ==
      (if k == foldKey(e) then Filter(keyed, WithKey(foldKey, k)) + [e] else Filter(keyed, WithKey(foldKey, k)))
  {
    hide *;
    forall k: Option<K> ensures Filter(keyed + [e], WithKey(foldKey, k)) ==
      if k == foldKey(e) then Filter(keyed, WithKey(foldKey, k)) + [e] else Filter(keyed, WithKey(foldKey, k))
    {
      GroupStep(keyed, e, foldKey, k);
    }
  }

  lemma KeyedStep<K(!new)>(
    merged: seq<SpendingEntry>, e: SpendingEntry, foldKey: SpendingEntry -> Option<K>, order: seq<Option<K>>,
    groups: map<Option<K>, seq<SpendingEntry>>, lines: seq<Line>)
    requires GroupsKept(merged, foldKey, order, groups, lines) && foldKey(e).Some?
    ensures var k := foldKey(e);
      GroupsKept(merged + [e], foldKey, if k in groups then order else order + [k],
                 groups[k := if k in groups then groups[k] + [e] else [e]], lines)
  {
    var keyed, k := Filter(merged, Folds(foldKey)), foldKey(e);
    FilterOneMore(merged, e, Folds(foldKey));
    FilterOneMore(merged, e, Loose(foldKey));
    FirstSeenStep(keyed, e, foldKey);
    GroupSteps(keyed, e, foldKey);
    hide Filter, FirstSeen, WithKey;
    if k !in groups { NotSeen(keyed, foldKey, EntryAmount(), k); }
  }

  lemma NoGroups<K(!new)>(foldKey: SpendingEntry -> Option<K>)
    ensures GroupsKept([], foldKey, [], map[], [])
  {
  }

  lemma GroupAt<K(!new)>(
    merged: seq<SpendingEntry>, foldKey: SpendingEntry -> Option<K>, order: seq<Option<K>>,
    groups: map<Option<K>, seq<SpendingEntry>>,
    lines: seq<Line>, i: nat)
    requires GroupsKept(merged, foldKey, order, groups, lines) && i < |order|
    ensures order[i] in groups && LinesOf(groups[order[i]]) ==
      LinesAt(Filter(merged, Folds(foldKey)), foldKey)(order[i])
  {
    hide Filter, FirstSeen, LinesOf;
  }

  lemma GroupsOrder<K(!new)>(
    merged: seq<SpendingEntry>, foldKey: SpendingEntry -> Option<K>, order: seq<Option<K>>,
    groups: map<Option<K>, seq<SpendingEntry>>, lines: seq<Line>)
    requires GroupsKept(merged, foldKey, order, groups, lines)
    ensures UnsortedLines(merged, foldKey) == lines + FlatMap(order, LinesAt(Filter(merged, Folds(foldKey)), foldKey))
  {
    hide Filter, FirstSeen, LinesAt, FlatMap;
  }

  lemma GroupLines<K(!new)>(
    lines: seq<Line>, keyed: seq<SpendingEntry>, foldKey: SpendingEntry -> Option<K>, order: seq<Option<K>>, i: nat)
    requires i < |order|
    ensures (lines + FlatMap(order[..i], LinesAt(keyed, foldKey))) + LinesAt(keyed, foldKey)(order[i]) == lines +
      FlatMap(order[..i + 1], LinesAt(keyed, foldKey))
  {
    FlatMapStep(order, i, LinesAt(keyed, foldKey));
    hide LinesAt, FlatMap;
  }

  lemma NoLines<K(!new)>(
    lines: seq<Line>, keyed: seq<SpendingEntry>, foldKey: SpendingEntry -> Option<K>, order: seq<Option<K>>)
    ensures lines + FlatMap(order[..0], LinesAt(keyed, foldKey)) == lines
  {
  }

  method StatementLines<K(==, !new)>(entries: seq<SpendingEntry>, foldKey: SpendingEntry -> Option<K>)
    returns (sorted: seq<Line>)
    ensures sorted == Sort(UnsortedLines(MergeAll(entries), foldKey), LineOrder())
  {
    hide *;
    var merged := MergeByTransaction(entries);
    var groups: map<Option<K>, seq<SpendingEntry>>, order: seq<Option<K>>, lines: seq<Line> := map[], [], [];
    NoGroups(foldKey);
    TakeNone(merged);
    for i := 0 to |merged|
      invariant GroupsKept(merged[..i], foldKey, order, groups, lines)
    {
      var e := merged[i];
      var k := foldKey(e);
      TakeOneMore(merged, i);
      if k.None? {
        LooseStep(merged[..i], e, foldKey, order, groups, lines);
        lines := lines + [Line(e, 1, e.amount)];
      } else {
        KeyedStep(merged[..i], e, foldKey, order, groups, lines);
        if k in groups {
          groups := groups[k := groups[k] + [e]];
        } else {
          order := order + [k];
          groups := groups[k := [e]];
        }
      }
    }
    WholeTake(merged);
    ghost var loose, keyed := lines, Filter(merged, Folds(foldKey));
    NoLines(loose, keyed, foldKey, order);
    for i := 0 to |order|
      invariant lines == loose + FlatMap(order[..i], LinesAt(keyed, foldKey))
    {
      GroupAt(merged, foldKey, order, groups, loose, i);
      GroupLines(loose, keyed, foldKey, order, i);
      lines := lines + LinesOf(groups[order[i]]);
    }
    WholeTake(order);
    GroupsOrder(merged, foldKey, order, groups, loose);
    sorted := Sort(lines, LineOrder());
  }

  // ---- filters and the level that opens -----------------------------------------------------------------

  datatype Step = Step(dim: Dimension, key: Key)

  datatype ExploreFilter = ExploreFilter(from: Date, to: Date, accounts: seq<Id>, path: seq<Step>)

  function Passes(f: ExploreFilter): SpendingEntry -> bool {
    (e: SpendingEntry) =>
      DateAtMost(f.from, e.date) && DateAtMost(e.date, f.to) && (f.accounts == [] || e.account in f.accounts) &&
      forall s :: s in f.path ==> DimKey(e, s.dim) == s.key
  }

  /** The range starts before every entry of its first month and ends after every entry of its last. */
  predicate CoversMonths(entries: seq<SpendingEntry>, f: ExploreFilter) {
    forall e :: e in entries ==>
      (e.date.month == f.from.month ==> f.from.day <= e.date.day) &&
        (e.date.month == f.to.month ==> e.date.day <= f.to.day)
  }

  /**
   * An unnarrowed filter is the report's range if, and for a range that is not reversed only if, it covers its
   * months.
   */
  lemma {:induction false} WholeMonths(entries: seq<SpendingEntry>, f: ExploreFilter)
    requires f.accounts == [] && f.path == []
    ensures
      var shown, reported := Filter(entries, Passes(f)), Filter(entries, EntryInMonths(f.from.month, f.to.month));
      && (CoversMonths(entries, f) ==> shown == reported)
      && (f.from.month <= f.to.month && shown == reported ==> CoversMonths(entries, f))
  {
    var inMonths := EntryInMonths(f.from.month, f.to.month);
    if CoversMonths(entries, f) { FilterAgrees(entries, Passes(f), inMonths); }
    if f.from.month <= f.to.month && Filter(entries, Passes(f)) == Filter(entries, inMonths) {
      forall e | e in entries && inMonths(e) ensures Passes(f)(e) {
        FilterMember(entries, inMonths, e);
        FilterMember(entries, Passes(f), e);
      }
    }
  }

  /** What the explorer's own filter shows is what the report shows, key by key and in all. */
  lemma {:induction false} FilteredAgreesWithReport(ledger: Ledger, f: ExploreFilter, dim: Dimension, key: Key)
    requires f.accounts == [] && f.path == [] && CoversMonths(EntriesOf(ledger), f)
    ensures TotalAt(Filter(EntriesOf(ledger), Passes(f)), EntryKey(dim), EntryAmount())(key) ==
      ReportTotal(ledger, f.from.month, f.to.month, dim, key)
    ensures Sum(Filter(EntriesOf(ledger), Passes(f)), EntryAmount()) ==
      Sum(Filter(ledger.transactions, InMonths(f.from.month, f.to.month)), Spending(ContextOf(ledger)))
    ensures f.from.month == f.to.month ==>
      Sum(Filter(EntriesOf(ledger), Passes(f)), EntryAmount()) == PointOf(ledger, f.from.month).expense
  {
    hide *;
    WholeMonths(EntriesOf(ledger), f);
    ExplorerAgreesWithReport(ledger, f.from.month, f.to.month, dim, key);
    ExplorerAgreesWithCashflow(ledger, f.from.month, f.to.month);
  }

  datatype Opening = OpenList | OpenBy(g: Grouping)

  predicate Narrowed(f: ExploreFilter, dim: Dimension) { exists s :: s in f.path && s.dim == dim }

  function PathDims(f: ExploreFilter, dims: seq<Dimension>): seq<Opening> {
    if dims == [] then []
    else
      (if !Narrowed(f, dims[0]) && !(dims[0] == ByGroup && Narrowed(f, ByEnvelope)) then [OpenBy(ByDimension(dims[0]))]
        else []) +
      PathDims(f, dims[1..])
  }

  function AvailableGroupings(f: ExploreFilter, spansMonths: bool): seq<Opening> {
    PathDims(f, [ByEnvelope, ByGroup, ByCategory, ByPlace])
    + (if |f.accounts| != 1 then [OpenBy(ByAccount)] else []) + (if spansMonths then [OpenBy(ByMonth)] else []) +
      [OpenList]
  }

  function NextOf(dim: Dimension): Opening {
    match dim
    case ByGroup => OpenBy(ByDimension(ByEnvelope))
    case ByEnvelope => OpenBy(ByDimension(ByCategory))
    case ByCategory => OpenBy(ByDimension(ByPlace))
    case ByPlace => OpenList
  }

  function FirstDim(available: seq<Opening>): Opening {
    if available == [] then OpenList
    else if available[0].OpenBy? && available[0].g.ByDimension? then available[0]
    else FirstDim(available[1..])
  }

  function DefaultGrouping(f: ExploreFilter, spansMonths: bool): Opening {
    var available := AvailableGroupings(f, spansMonths);
    var next := if f.path == [] then OpenBy(ByDimension(ByEnvelope)) else NextOf(f.path[|f.path| - 1].dim);
    if next in available then next else FirstDim(available)
  }

  lemma {:induction false} PathDimsAreOpen(f: ExploreFilter, dims: seq<Dimension>, o: Opening)
    requires o in PathDims(f, dims)
    ensures o.OpenBy? && o.g.ByDimension? && !Narrowed(f, o.g.dim)
  {
    if o in PathDims(f, dims[1..]) { PathDimsAreOpen(f, dims[1..], o); }
  }

  lemma {:induction false} FirstDimIsThere(available: seq<Opening>)
    ensures FirstDim(available) == OpenList || FirstDim(available) in available
  {
    if available != [] { FirstDimIsThere(available[1..]); }
  }

  /** A level never opens by a dimension the path already fixes. */
  lemma {:induction false} DefaultIsOpen(f: ExploreFilter, spansMonths: bool)
    ensures var o := DefaultGrouping(f, spansMonths); o.OpenBy? && o.g.ByDimension? ==> !Narrowed(f, o.g.dim)
  {
    var o := DefaultGrouping(f, spansMonths);
    var available := AvailableGroupings(f, spansMonths);
    FirstDimIsThere(available);
    if o.OpenBy? && o.g.ByDimension? {
      assert o in available;
      PathDimsAreOpen(f, [ByEnvelope, ByGroup, ByCategory, ByPlace], o);
    }
  }

  function OpenDims(f: ExploreFilter): set<Dimension> {
    set d | d in {ByGroup, ByEnvelope, ByCategory, ByPlace} && !Narrowed(f, d)
  }

  lemma NarrowingShrinks(f: ExploreFilter, dim: Dimension, key: Key)
    requires !Narrowed(f, dim)
    ensures OpenDims(f.(path := f.path + [Step(dim, key)])) < OpenDims(f)
  {
    var g := f.(path := f.path + [Step(dim, key)]);
    assert Step(dim, key) in g.path;
    forall d | Narrowed(f, d) ensures Narrowed(g, d) {
      var s :| s in f.path && s.dim == d;
      assert s in g.path;
    }
    assert dim in OpenDims(f) && dim !in OpenDims(g);
  }

  /** Fixing a dimension all entries share keeps every one of them. */
  lemma {:induction false} SingleKeyNarrows(entries: seq<SpendingEntry>, f: ExploreFilter, dim: Dimension, key: Key)
    requires FirstSeen(Filter(entries, Passes(f)), GroupingKey(ByDimension(dim))) == [DimensionKey(key)]
    ensures Filter(entries, Passes(f.(path := f.path + [Step(dim, key)]))) == Filter(entries, Passes(f))
  {
    var g := f.(path := f.path + [Step(dim, key)]);
    var list := Filter(entries, Passes(f));
    forall e | e in entries ensures Passes(g)(e) == Passes(f)(e) {
      if Passes(f)(e) {
        FilterMember(entries, Passes(f), e);
        SeenHasKey(list, GroupingKey(ByDimension(dim)), e);
        assert DimKey(e, dim) == key;
      }
      assert Step(dim, key) in g.path;
      assert forall s :: s in f.path ==> s in g.path;
    }
    hide Filter, FirstSeen, Passes;
    FilterAgrees(entries, Passes(g), Passes(f));
  }

  lemma OneRow(list: seq<SpendingEntry>, dim: Dimension, idAtMost: IdOrder)
    requires |BreakdownOf(list, ByDimension(dim), idAtMost)| == 1
    ensures var k := BreakdownOf(list, ByDimension(dim), idAtMost)[0].key;
      k.DimensionKey? && FirstSeen(list, GroupingKey(ByDimension(dim))) == [k]
  {
    var g := ByDimension(dim);
    var keys := FirstSeen(list, GroupingKey(g));
    var rows := Map(Map(keys, RowFor(list, g)), SortedRow(idAtMost));
    BreakdownConserves(list, g, idAtMost);
    assert rows == [rows[0]] && Sort(rows, RowOrder(g)) == rows by { assert Sort([], RowOrder(g)) == []; }
    var x := KeyWasSeen(list, GroupingKey(g), keys[0]);
    hide Sort, FirstSeen, RowIsItsEntries;
    assert keys == [keys[0]];
  }

  /** A level of a single row is passed over: its key joins the path and no entry is lost. */
  lemma PassedOver(entries: seq<SpendingEntry>, f: ExploreFilter, dim: Dimension, idAtMost: IdOrder)
    requires !Narrowed(f, dim) && |BreakdownOf(Filter(entries, Passes(f)), ByDimension(dim), idAtMost)| == 1
    ensures var k := BreakdownOf(Filter(entries, Passes(f)), ByDimension(dim), idAtMost)[0].key;
      && k.DimensionKey?
      && var deeper := f.(path := f.path + [Step(dim, k.key)]);
         Filter(entries, Passes(deeper)) == Filter(entries, Passes(f)) && OpenDims(deeper) < OpenDims(f)
  {
    hide *;
    var list := Filter(entries, Passes(f));
    var k := BreakdownOf(list, ByDimension(dim), idAtMost)[0].key;
    OneRow(list, dim, idAtMost);
    SingleKeyNarrows(entries, f, dim, k.key);
    NarrowingShrinks(f, dim, k.key);
  }

  lemma PathGrows(f: ExploreFilter, passed: seq<Step>, step: Step)
    ensures f.(path := f.path + passed).(path := (f.path + passed) + [step]) == f.(path := f.path + (passed + [step]))
  {
    assert (f.path + passed) + [step] == f.path + (passed + [step]);
  }

  /** The grouping a level opens with. Levels of a single row are passed over, and passing over them hides
      no entry: the longer path still selects exactly what the given filter selects. */
  method OpeningGrouping(entries: seq<SpendingEntry>, f: ExploreFilter, spansMonths: bool, idAtMost: IdOrder)
    returns (opening: Opening, ghost passed: seq<Step>)
    ensures var cur := f.(path := f.path + passed);
      && opening == DefaultGrouping(cur, spansMonths)
      && Filter(entries, Passes(cur)) == Filter(entries, Passes(f))
    ensures opening.OpenBy? && opening.g.ByDimension? ==>
      |FirstSeen(Filter(entries, Passes(f)), GroupingKey(opening.g))| != 1
  {
    var list := Filter(entries, Passes(f));
    var cur := f;
    passed := [];
    assert f.(path := f.path + []) == f;
    hide *;
    while true
      invariant cur == f.(path := f.path + passed)
      invariant Filter(entries, Passes(cur)) == list
      decreases OpenDims(cur)
    {
      opening := DefaultGrouping(cur, spansMonths);
      DefaultIsOpen(cur, spansMonths);
      if !(opening.OpenBy? && opening.g.ByDimension?) { return; }
      var rows := BreakdownEntries(list, opening.g, idAtMost);
      BreakdownConserves(list, opening.g, idAtMost);
      if |rows| != 1 { return; }
      PassedOver(entries, cur, opening.g.dim, idAtMost);
      var step := Step(opening.g.dim, rows[0].key.key);
      PathGrows(f, passed, step);
      cur := cur.(path := cur.path + [step]);
      passed := passed + [step];
    }
  }
}
