// What the spending reports count, transaction by transaction: only expenses, refunds against them,
// and nothing that goes into a savings envelope.
module ReportsMeaning {
  import opened Sequences
  import opened Sorting
  import opened Tables
  import opened KeyedTotals
  import opened Ledger
  import opened SpendingReports

  // ---- one transaction ----------------------------------------------------------------------------

  /** The envelope holds savings: money put there is not spent. */
  predicate Saved(l: Ledger, envelope: Id) {
    exists i :: 0 <= i < |l.envelopes| && l.envelopes[i].id == envelope && l.envelopes[i].isSavings
  }

  predicate InGroup(l: Ledger, envelope: Id, group: Id) {
    exists i :: 0 <= i < |l.envelopes| && l.envelopes[i].id == envelope && l.envelopes[i].groupId == group
  }

  predicate Listed(l: Ledger, envelope: Id) { exists i :: 0 <= i < |l.envelopes| && l.envelopes[i].id == envelope }

  /** The group a reference to an envelope counts for: none without a listed envelope. */
  predicate GroupIs(l: Ledger, envelope: Key, group: Key) {
    if group.Some? then envelope.Some? && InGroup(l, envelope.value, group.value)
    else envelope.None? || !Listed(l, envelope.value)
  }

  /** A refund takes back what an expense spends. */
  function Net(t: Transaction, amount: Money): Money { if t.isRefund then 0 - amount else amount }

  predicate ItemCounts(l: Ledger, t: Transaction, dim: Dimension, key: Key, i: Item) {
    !Saved(l, i.envelopeId) &&
    match dim
    case ByCategory => i.categoryId == key
    case ByEnvelope => key == Some(i.envelopeId)
    case ByGroup => GroupIs(l, Some(i.envelopeId), key)
    case ByPlace => t.placeId == key
  }

  predicate WholeCounts(l: Ledger, t: Transaction, dim: Dimension, key: Key) {
    !(t.envelopeId.Some? && Saved(l, t.envelopeId.value)) &&
    match dim
    case ByCategory => t.categoryId == key
    case ByEnvelope => t.envelopeId == key
    case ByGroup => GroupIs(l, t.envelopeId, key)
    case ByPlace => t.placeId == key
  }

  /** What a transaction spends at a key of a dimension: of a split its items there, else all of it or nothing. */
  function SpentAt(l: Ledger, dim: Dimension, key: Key): Transaction -> Money {
    (t: Transaction) =>
      if t.kind != Expense then 0
      else if t.items != [] then
        Net(t, Sum(Filter(t.items, (i: Item) => ItemCounts(l, t, dim, key, i)), (i: Item) => i.amount))
      else if WholeCounts(l, t, dim, key) then Net(t, t.amount) else 0
  }

  function Spent(l: Ledger): Transaction -> Money {
    (t: Transaction) =>
      if t.kind != Expense then 0
      else if t.items != [] then
        Net(t, Sum(Filter(t.items, (i: Item) => !Saved(l, i.envelopeId)), (i: Item) => i.amount))
      else if t.envelopeId.Some? && Saved(l, t.envelopeId.value) then 0 else Net(t, t.amount)
  }

  // ---- the specification counts the same ----------------------------------------------------------

  lemma SavedMeans(l: Ledger, envelope: Id)
    ensures envelope in ContextOf(l).savings <==> Saved(l, envelope)
  {
    hide GroupsById;
    if Saved(l, envelope) {
      var i :| 0 <= i < |l.envelopes| && l.envelopes[i].id == envelope && l.envelopes[i].isSavings;
      assert l.envelopes[i] in l.envelopes;
    }
  }

  lemma {:induction false} GroupsMean(envelopes: seq<Envelope>, e: Id)
    requires Distinct(envelopes, EnvelopeId)
    ensures e in GroupsById(envelopes) <==> exists i :: 0 <= i < |envelopes| && envelopes[i].id == e
    ensures forall i :: 0 <= i < |envelopes| && envelopes[i].id == e ==>
      GroupsById(envelopes)[e] == envelopes[i].groupId
  {
    if envelopes != [] {
      var n := |envelopes| - 1;
      GroupsMean(envelopes[..n], e);
      assert forall i :: 0 <= i < n ==> envelopes[..n][i] == envelopes[i];
      if e in GroupsById(envelopes[..n]) {
        var i :| 0 <= i < n && envelopes[..n][i].id == e;
        assert envelopes[i].id == e;
      }
      assert forall i :: 0 <= i < n ==> EnvelopeId(envelopes[i]) != EnvelopeId(envelopes[n]);
    }
  }

  lemma GroupMeans(l: Ledger, envelope: Key, group: Key)
    requires Distinct(l.envelopes, EnvelopeId)
    ensures GroupKey(ContextOf(l), envelope) == group <==> GroupIs(l, envelope, group)
  {
    if envelope.Some? { GroupsMean(l.envelopes, envelope.value); }
    hide GroupsById;
  }

  lemma PartIs(c: Context, t: Transaction, dim: Dimension, i: Item)
    ensures ItemPart(c, t, dim)(i) == Part(ItemKey(c, i, dim, t.placeId), Net(t, i.amount))
  {
  }

  /** One more item, selected twice over: as an item, then by its part. */
  lemma SelectedTwice<A, B>(s: seq<A>, x: A, p: A -> bool, f: A -> B, h: B -> bool, g: B -> int)
    ensures Sum(Filter(Map(Filter(s + [x], p), f), h), g)
         == Sum(Filter(Map(Filter(s, p), f), h), g) + if p(x) && h(f(x)) then g(f(x)) else 0
  {
    FilterOneMore(s, x, p);
    hide Filter, Sum, Map;
    if p(x) {
      var parts := Map(Filter(s, p), f);
      MapOneMore(Filter(s, p), x, f);
      FilterOneMore(parts, f(x), h);
      if h(f(x)) { SumOneMore(Filter(parts, h), f(x), g); }
    }
  }

  lemma SelectedOnce<A>(s: seq<A>, x: A, p: A -> bool, f: A -> int)
    ensures Sum(Filter(s + [x], p), f) == Sum(Filter(s, p), f) + if p(x) then f(x) else 0
  {
    FilterOneMore(s, x, p);
    hide Filter, Sum;
    if p(x) { SumOneMore(Filter(s, p), x, f); }
  }

  lemma ItemAtKey(l: Ledger, t: Transaction, dim: Dimension, key: Key, x: Item)
    requires Distinct(l.envelopes, EnvelopeId)
    ensures var c := ContextOf(l);
      var part := ItemPart(c, t, dim)(x);
      (IsSpending(c)(x) && SpendingReports.HasKey(key)(part) <==> ItemCounts(l, t, dim, key, x)) &&
      PartAmount()(part) == Net(t, x.amount)
  {
    SavedMeans(l, x.envelopeId);
    GroupMeans(l, Some(x.envelopeId), key);
    PartIs(ContextOf(l), t, dim, x);
    hide ContextOf, ItemPart, Distinct, GroupKey, GroupIs, Saved;
  }

  /** The parts of a split at a key are its counted items there. */
  lemma {:induction false} ItemsAtKey(
    l: Ledger, t: Transaction, dim: Dimension, key: Key, items: seq<Item>, counts: Item -> bool)
    requires Distinct(l.envelopes, EnvelopeId)
    requires forall i :: counts(i) <==> ItemCounts(l, t, dim, key, i)
    ensures var c := ContextOf(l);
      Sum(Filter(Map(Filter(items, IsSpending(c)), ItemPart(c, t, dim)), SpendingReports.HasKey(key)), PartAmount()) ==
      Net(t, Sum(Filter(items, counts), (i: Item) => i.amount))
  {
    if items == [] {
      NothingAtKey(l, t, dim, key, counts);
    } else {
      hide *;
      var n, c := |items| - 1, ContextOf(l);
      ItemsAtKey(l, t, dim, key, items[..n], counts);
      LastSplit(items);
      ItemAtKey(l, t, dim, key, items[n]);
      SelectedTwice(items[..n], items[n], IsSpending(c), ItemPart(c, t, dim), SpendingReports.HasKey(key),
        PartAmount());
      SelectedOnce(items[..n], items[n], counts, (i: Item) => i.amount);
      NetAdds(t, Sum(Filter(items[..n], counts), (i: Item) => i.amount), items[n].amount);
    }
  }

  lemma NothingAtKey(l: Ledger, t: Transaction, dim: Dimension, key: Key, counts: Item -> bool)
    ensures var c := ContextOf(l);
      Sum(Filter(Map(Filter([], IsSpending(c)), ItemPart(c, t, dim)), SpendingReports.HasKey(key)), PartAmount()) ==
      Net(t, Sum(Filter([], counts), (i: Item) => i.amount))
  {
  }

  lemma NetAdds(t: Transaction, a: Money, b: Money)
    ensures Net(t, a + b) == Net(t, a) + Net(t, b)
  {
  }

  lemma MapOneMore<A, B>(s: seq<A>, x: A, f: A -> B)
    ensures Map(s + [x], f) == Map(s, f) + [f(x)]
  {
  }

  lemma SpentIs(l: Ledger, t: Transaction)
    ensures Spending(ContextOf(l))(t) == Spent(l)(t)
  {
    var c := ContextOf(l);
    forall i: Item ensures IsSpending(c)(i) <==> !Saved(l, i.envelopeId) { SavedMeans(l, i.envelopeId); }
    if t.envelopeId.Some? { SavedMeans(l, t.envelopeId.value); }
    FilterAgrees(t.items, IsSpending(c), (i: Item) => !Saved(l, i.envelopeId));
    SumEqual(Filter(t.items, IsSpending(c)), AmountOf(), (i: Item) => i.amount);
    hide ContextOf, Saved, Filter, Sum, IsSpending;
  }

  lemma TxnKeyIs(l: Ledger, t: Transaction, dim: Dimension, key: Key)
    requires Distinct(l.envelopes, EnvelopeId)
    ensures WholeCounts(l, t, dim, key) <==>
      !(t.envelopeId.Some? && t.envelopeId.value in ContextOf(l).savings) && TxnKey(ContextOf(l), t, dim) == key
  {
    if t.envelopeId.Some? { SavedMeans(l, t.envelopeId.value); }
    GroupMeans(l, t.envelopeId, key);
    hide ContextOf, Saved, GroupKey, GroupIs;
  }

  lemma PlaceAmount(l: Ledger, t: Transaction, key: Key, counts: Item -> bool)
    requires forall i :: counts(i) <==> ItemCounts(l, t, ByPlace, key, i)
    ensures var c := ContextOf(l);
      Sum(Filter(t.items, counts), (i: Item) => i.amount) ==
      if t.placeId == key then Sum(Filter(t.items, IsSpending(c)), AmountOf()) else 0
  {
    var c := ContextOf(l);
    forall i: Item ensures IsSpending(c)(i) <==> !Saved(l, i.envelopeId) { SavedMeans(l, i.envelopeId); }
    if t.placeId == key {
      FilterAgrees(t.items, IsSpending(c), counts);
      SumEqual(Filter(t.items, counts), AmountOf(), (i: Item) => i.amount);
    } else {
      FilterNone(t.items, counts);
    }
    hide ContextOf, Saved, Filter, IsSpending;
  }

  lemma OnePart(p: Part, key: Key)
    ensures Sum(Filter([p], SpendingReports.HasKey(key)), PartAmount()) == if p.key == key then p.amount else 0
    ensures Sum(Filter([], SpendingReports.HasKey(key)), PartAmount()) == 0
  {
    assert [] + [p] == [p];
    SelectedOnce([], p, SpendingReports.HasKey(key), PartAmount());
  }

  lemma NetIs(t: Transaction, amount: Money)
    ensures Sign(t) * amount == Net(t, amount)
  {
  }

  /** What the specification counts at a key is what the transaction spends there. */
  lemma SpentAtIs(l: Ledger, dim: Dimension, key: Key, t: Transaction)
    requires Distinct(l.envelopes, EnvelopeId)
    ensures SpendingAt(ContextOf(l), dim, key)(t) == SpentAt(l, dim, key)(t)
  {
    var c, counts := ContextOf(l), (i: Item) => ItemCounts(l, t, dim, key, i);
    assert SpendingAt(c, dim, key)(t) ==
      Sum(Filter(ExpenseByDimension(c, t, dim), SpendingReports.HasKey(key)), PartAmount());
    hide SpendingAt;
    var spending := Sum(Filter(t.items, IsSpending(c)), AmountOf());
    OnePart(Part(t.placeId, Sign(t) * spending), key);
    OnePart(Part(TxnKey(c, t, dim), Sign(t) * t.amount), key);
    NetIs(t, spending);
    NetIs(t, t.amount);
    TxnKeyIs(l, t, dim, key);
    if dim == ByPlace { PlaceAmount(l, t, key, counts); } else { ItemsAtKey(l, t, dim, key, t.items, counts); }
    hide ContextOf, ItemCounts, WholeCounts, TxnKey, Sign, Filter, Sum, Map, IsSpending, Distinct, PartAmount,
      SpendingReports.HasKey;
  }

  // ---- the reports --------------------------------------------------------------------------------

  function Within(from: Month, to: Month): Transaction -> bool { (t: Transaction) => from <= t.date.month <= to }

  /** What all transactions of those months spend at a key. */
  function TotalAtKey(l: Ledger, from: Month, to: Month, dim: Dimension, key: Key): Money {
    Sum(Filter(l.transactions, Within(from, to)), SpentAt(l, dim, key))
  }

  function TotalSpent(l: Ledger, from: Month, to: Month): Money {
    Sum(Filter(l.transactions, Within(from, to)), Spent(l))
  }

  lemma TotalsMean(l: Ledger, from: Month, to: Month, dim: Dimension)
    requires Distinct(l.envelopes, EnvelopeId)
    ensures forall key :: ReportTotal(l, from, to, dim, key) == TotalAtKey(l, from, to, dim, key)
    ensures Sum(Filter(l.transactions, InMonths(from, to)), Spending(ContextOf(l))) == TotalSpent(l, from, to)
  {
    FilterAgrees(l.transactions, InMonths(from, to), Within(from, to));
    var txns := Filter(l.transactions, Within(from, to));
    hide Filter, Spending, SpendingAt, Spent, SpentAt, ContextOf, Sum, InMonths, Within, Distinct;
    forall key ensures ReportTotal(l, from, to, dim, key) == TotalAtKey(l, from, to, dim, key) {
      forall t | t in txns ensures SpendingAt(ContextOf(l), dim, key)(t) == SpentAt(l, dim, key)(t) {
        SpentAtIs(l, dim, key, t);
      }
      SumEqual(txns, SpendingAt(ContextOf(l), dim, key), SpentAt(l, dim, key));
    }
    forall t | t in txns ensures Spending(ContextOf(l))(t) == Spent(l)(t) { SpentIs(l, t); }
    SumEqual(txns, Spending(ContextOf(l)), Spent(l));
  }

  /** One row for every key with money, largest first, with its share of everything spent in those months. */
  ghost predicate ReportStands(l: Ledger, from: Month, to: Month, dim: Dimension, rows: seq<SpendingRow>) {
    && (forall r :: r in rows ==> r.amount == TotalAtKey(l, from, to, dim, r.key) != 0)
    && (forall key :: TotalAtKey(l, from, to, dim, key) != 0 ==> exists r :: r in rows && r.key == key)
    && (forall i, j :: 0 <= i < j < |rows| ==> rows[i].amount >= rows[j].amount && rows[i].key != rows[j].key)
    && Sum(rows, RowAmount()) == TotalSpent(l, from, to)
    && (forall r :: r in rows ==>
      r.share == if TotalSpent(l, from, to) > 0 then r.amount as real / TotalSpent(l, from, to) as real else 0.0)
  }

  lemma SharesStand(l: Ledger, from: Month, to: Month, dim: Dimension)
    ensures var parts := PartsOf(ContextOf(l), l.transactions, from, to, dim);
      var total := Sum(Filter(l.transactions, InMonths(from, to)), Spending(ContextOf(l)));
      && Ordered(ReportOf(parts), LargestFirst())
      && forall r :: r in ReportOf(parts) ==> r.share == Share(r.amount, total)
  {
    var parts := PartsOf(ContextOf(l), l.transactions, from, to, dim);
    RowsMean(FirstSeen(parts, PartKey()), TotalAt(parts, PartKey(), PartAmount()), Sum(parts, PartAmount()));
    PartsTotal(ContextOf(l), l.transactions, from, to, dim);
    hide RowsOf, PartsOf, Sum, TotalAt, FirstSeen, Share, Ordered, ContextOf, Spending, Filter;
  }

  lemma RowsOnce(keys: seq<Key>, at: Key -> int, total: Money)
    requires EachOnce(keys)
    ensures var rows := RowsOf(keys, at, total);
      forall i, j :: 0 <= i < j < |rows| ==> rows[i].key != rows[j].key
  {
    var all, rows := Map(keys, RowAt(at, total)), RowsOf(keys, at, total);
    var kept := Filter(all, IsNonZero());
    forall i, j | 0 <= i < j < |all| ensures all[i] != all[j] { assert all[i].key == keys[i] && all[j].key == keys[j]; }
    FilterEachOnce(all, IsNonZero());
    SortKeeps(kept, LargestFirst());
    EachOncePermuted(kept, rows);
    SameElements(rows, kept);
    hide Filter, Sort, Share;
    forall r | r in rows ensures r == RowAt(at, total)(r.key) {
      FilterMember(all, IsNonZero(), r);
      var i :| 0 <= i < |all| && all[i] == r;
    }
    forall i, j | 0 <= i < j < |rows| ensures rows[i].key != rows[j].key { assert rows[i] in rows && rows[j] in rows; }
  }

  lemma ReportOnce(l: Ledger, from: Month, to: Month, dim: Dimension)
    ensures var rows := ReportOf(PartsOf(ContextOf(l), l.transactions, from, to, dim));
      forall i, j :: 0 <= i < j < |rows| ==> rows[i].key != rows[j].key
  {
    var parts := PartsOf(ContextOf(l), l.transactions, from, to, dim);
    FirstSeenOnce(parts, PartKey());
    RowsOnce(FirstSeen(parts, PartKey()), TotalAt(parts, PartKey(), PartAmount()), Sum(parts, PartAmount()));
    hide RowsOf, PartsOf, Sum, TotalAt, FirstSeen, ContextOf, EachOnce;
  }

  /** The report by any dimension, over the transactions of the ledger. */
  lemma ReportMeans(l: Ledger, from: Month, to: Month, dim: Dimension)
    requires Distinct(l.envelopes, EnvelopeId)
    ensures ReportStands(l, from, to, dim, ReportOf(PartsOf(ContextOf(l), l.transactions, from, to, dim)))
  {
    EveryDimensionAddsUp(l, from, to, dim);
    TotalsMean(l, from, to, dim);
    SharesStand(l, from, to, dim);
    ReportOnce(l, from, to, dim);
    hide ReportOf, PartsOf, Sum, Filter, ContextOf, Spending, TotalAtKey, TotalSpent, ReportTotal, Distinct;
  }

  /** A month of the cash flow is its income and what it spends. */
  lemma CashflowMeans(l: Ledger, month: Month)
    ensures var p := PointOf(l, month);
      && p.month == month && p.expense == TotalSpent(l, month, month) && p.net == p.income - p.expense
      && p.income == Sum(Filter(l.transactions, (t: Transaction) => t.date.month == month && t.kind == Income),
                         (t: Transaction) => t.amount)
  {
    FilterAgrees(l.transactions, InMonths(month, month), Within(month, month));
    var txns := Filter(l.transactions, Within(month, month));
    forall t | t in txns ensures Spending(ContextOf(l))(t) == Spent(l)(t) { SpentIs(l, t); }
    SumEqual(txns, Spending(ContextOf(l)), Spent(l));
    IncomeOnly(l.transactions, month);
    hide Filter, Sum, Spending, Spent, ContextOf;
  }

  lemma {:induction false} IncomeOnly(txns: seq<Transaction>, month: Month)
    ensures Sum(Filter(txns, InMonths(month, month)), IncomeOf()) ==
      Sum(Filter(txns, (t: Transaction) => t.date.month == month && t.kind == Income), (t: Transaction) => t.amount)
  {
    if txns != [] {
      var n := |txns| - 1;
      var earned, amount := (t: Transaction) => t.date.month == month && t.kind == Income, (t: Transaction) => t.amount;
      IncomeOnly(txns[..n], month);
      LastSplit(txns);
      SelectedOnce(txns[..n], txns[n], InMonths(month, month), IncomeOf());
      SelectedOnce(txns[..n], txns[n], earned, amount);
      hide Filter, Sum;
    }
  }

  /** A day's total is what its transactions spend. */
  lemma DayMeans(l: Ledger, date: Date)
    ensures DaySpending(l, date) == Sum(Filter(l.transactions, (t: Transaction) => t.date == date), Spent(l))
  {
    FilterAgrees(l.transactions, OnDate(date), (t: Transaction) => t.date == date);
    var txns := Filter(l.transactions, OnDate(date));
    forall t | t in txns ensures Spending(ContextOf(l))(t) == Spent(l)(t) { SpentIs(l, t); }
    SumEqual(txns, Spending(ContextOf(l)), Spent(l));
    hide Filter, Sum, Spending, Spent, ContextOf;
  }
}
