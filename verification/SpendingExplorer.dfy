/** The spending explorer: one entry per contribution, filtered, grouped, merged and folded without losing money. */
module SpendingExplorer {
  import opened Sequences
  import opened KeyedTotals
  import opened Ledger
  import opened SpendingReports

  datatype EntryRef = WholeTxn(txn: Id) | SplitItem(txn: Id, item: ItemId)

  datatype SpendingEntry = SpendingEntry(
    id: EntryRef, txnId: Id, date: Date, group: Key, envelope: Key, category: Key, place: Key, account: Id,
    amount: Money,
    mixed: set<Dimension>)

  function DimKey(e: SpendingEntry, dim: Dimension): Key {
    match dim
    case ByGroup => e.group
    case ByEnvelope => e.envelope
    case ByCategory => e.category
    case ByPlace => e.place
  }

  function EntryKey(dim: Dimension): SpendingEntry -> Key { (e: SpendingEntry) => DimKey(e, dim) }

  function EntryAmount(): SpendingEntry -> int { (e: SpendingEntry) => e.amount }

  // ---- entries ------------------------------------------------------------------------------------------

  function IsListed(c: Context): Item -> bool { (i: Item) => i.envelopeId !in c.savings && i.amount != 0 }

  function ItemEntry(c: Context, t: Transaction): Item -> SpendingEntry {
    (i: Item) => SpendingEntry(
      SplitItem(t.id, i.id), t.id, t.date, GroupKey(c, Some(i.envelopeId)), Some(i.envelopeId), i.categoryId, t.placeId,
        t.accountId,
      Sign(t) * i.amount, {})
  }

  function TxnEntry(c: Context, t: Transaction): SpendingEntry {
    SpendingEntry(WholeTxn(t.id), t.id, t.date, GroupKey(c, t.envelopeId), t.envelopeId, t.categoryId, t.placeId,
      t.accountId,
                  Sign(t) * t.amount, {})
  }

  function EntriesFor(c: Context): Transaction -> seq<SpendingEntry> {
    (t: Transaction) =>
      if t.kind != Expense then []
      else if t.items != [] then Map(Filter(t.items, IsListed(c)), ItemEntry(c, t))
      else if !(t.envelopeId.Some? && t.envelopeId.value in c.savings) && t.amount != 0 then [TxnEntry(c, t)]
      else []
  }

  method SpendingEntries(ledger: Ledger) returns (out: seq<SpendingEntry>)
    ensures out == FlatMap(ledger.transactions, EntriesFor(ContextOf(ledger)))
  {
    var c, txns := ContextOf(ledger), ledger.transactions;
    hide *;
    out := [];
    NoEntries(txns, EntriesFor(c));
    for i := 0 to |txns|
      invariant out == FlatMap(txns[..i], EntriesFor(c))
    {
      var t := txns[i];
      FlatMapStep(txns, i, EntriesFor(c));
      EntriesForMeans(c, t);
      if t.kind == Expense {
        if t.items != [] {
          ghost var before := out;
          NothingListed(before, c, t);
          for k := 0 to |t.items|
            invariant out == before + Map(Filter(t.items[..k], IsListed(c)), ItemEntry(c, t))
          {
            var item := t.items[k];
            ListedStep(before, c, t, k);
            if item.envelopeId !in c.savings && item.amount != 0 { out := out + [ItemEntry(c, t)(item)]; }
          }
          WholeTake(t.items);
        } else if !(t.envelopeId.Some? && t.envelopeId.value in c.savings) && t.amount != 0 {
          out := out + [TxnEntry(c, t)];
        }
      }
    }
    WholeTake(txns);
  }

  lemma NoEntries<A, B>(s: seq<A>, g: A -> seq<B>)
    ensures FlatMap(s[..0], g) == []
  {
  }

  lemma FlatMapStep<A, B>(s: seq<A>, i: nat, g: A -> seq<B>)
    requires i < |s|
    ensures FlatMap(s[..i + 1], g) == FlatMap(s[..i], g) + g(s[i])
    ensures g(s[i]) == [] ==> FlatMap(s[..i + 1], g) == FlatMap(s[..i], g)
  {
    assert s[..i + 1] == s[..i] + [s[i]];
    FlatMapOneMore(s[..i], s[i], g);
  }

  lemma EntriesForMeans(c: Context, t: Transaction)
    ensures t.kind != Expense ==> EntriesFor(c)(t) == []
    ensures t.kind == Expense && t.items != [] ==>
      EntriesFor(c)(t) == Map(Filter(t.items, IsListed(c)), ItemEntry(c, t))
    ensures t.kind == Expense && t.items == [] ==>
      EntriesFor(c)(t) == if !(t.envelopeId.Some? && t.envelopeId.value in c.savings) && t.amount != 0
        then [TxnEntry(c, t)] else []
  {
    hide Filter, Map, TxnEntry;
  }

  lemma NothingListed(before: seq<SpendingEntry>, c: Context, t: Transaction)
    ensures before == before + Map(Filter(t.items[..0], IsListed(c)), ItemEntry(c, t))
  {
  }

  lemma ListedStep(before: seq<SpendingEntry>, c: Context, t: Transaction, k: nat)
    requires k < |t.items|
    ensures var item, f := t.items[k], ItemEntry(c, t);
      before + Map(Filter(t.items[..k + 1], IsListed(c)), f) ==
        if item.envelopeId !in c.savings && item.amount != 0
        then (before + Map(Filter(t.items[..k], IsListed(c)), f)) + [f(item)]
        else before + Map(Filter(t.items[..k], IsListed(c)), f)
  {
    FilterStep(t.items, k, IsListed(c));
    hide Filter;
    var f := ItemEntry(c, t);
    MapConcat(Filter(t.items[..k], IsListed(c)), [t.items[k]], f);
    hide ItemEntry, Map;
    MapOne(t.items[k], f);
  }

  lemma MapOne<A, B>(x: A, f: A -> B)
    ensures Map([x], f) == [f(x)]
  {
  }

  // ---- agreement with the reports -----------------------------------------------------------------------

  function ItemSpendingAt(c: Context, t: Transaction, dim: Dimension, key: Key): Item -> int {
    (i: Item) => if i.envelopeId !in c.savings && ItemKey(c, i, dim, t.placeId) == key then Sign(t) * i.amount else 0
  }

  lemma ItemEntryKey(c: Context, t: Transaction, dim: Dimension, i: Item)
    ensures EntryKey(dim)(ItemEntry(c, t)(i)) == ItemKey(c, i, dim, t.placeId) &&
      EntryAmount()(ItemEntry(c, t)(i)) == Sign(t) * i.amount
  {
  }

  lemma {:induction false} EntryItems(c: Context, t: Transaction, dim: Dimension, key: Key, items: seq<Item>)
    ensures Sum(Filter(Map(Filter(items, IsListed(c)), ItemEntry(c, t)), WithKey(EntryKey(dim), key)), EntryAmount())
      == Sum(items, ItemSpendingAt(c, t, dim, key))
  {
    if items != [] {
      var n := |items| - 1;
      EntryItems(c, t, dim, key, items[..n]);
      EntryItemStep(c, t, dim, key, items[..n], items[n]);
      LastSplit(items);
      SumOneMore(items[..n], items[n], ItemSpendingAt(c, t, dim, key));
    }
  }

  lemma EntryItemStep(c: Context, t: Transaction, dim: Dimension, key: Key, items: seq<Item>, i: Item)
    ensures Sum(Filter(Map(Filter(items + [i], IsListed(c)), ItemEntry(c, t)), WithKey(EntryKey(dim), key)),
      EntryAmount())
      == Sum(Filter(Map(Filter(items, IsListed(c)), ItemEntry(c, t)), WithKey(EntryKey(dim), key)), EntryAmount())
        + ItemSpendingAt(c, t, dim, key)(i)
  {
    var f, p := ItemEntry(c, t), WithKey(EntryKey(dim), key);
    ItemEntryKey(c, t, dim, i);
    FilterOneMore(items, i, IsListed(c));
    assert ItemSpendingAt(c, t, dim, key)(i) == if IsListed(c)(i) && p(f(i)) then Sign(t) * i.amount else 0;
    hide Filter, Sum, EntryKey, ItemEntry, ItemKey, ItemSpendingAt, WithKey, Map, EntryAmount;
    if IsListed(c)(i) {
      var listed := Filter(items, IsListed(c));
      MapConcat(listed, [i], f);
      MapOne(i, f);
      FilterOneMore(Map(listed, f), f(i), p);
      if p(f(i)) { SumOneMore(Filter(Map(listed, f), p), f(i), EntryAmount()); }
    }
  }

  lemma {:induction false} PartItems(c: Context, t: Transaction, dim: Dimension, key: Key, items: seq<Item>)
    ensures Sum(Filter(Map(Filter(items, IsSpending(c)), ItemPart(c, t, dim)), HasKey(key)), PartAmount())
      == Sum(items, ItemSpendingAt(c, t, dim, key))
  {
    if items != [] {
      var n := |items| - 1;
      PartItems(c, t, dim, key, items[..n]);
      PartItemStep(c, t, dim, key, items[..n], items[n]);
      LastSplit(items);
      SumOneMore(items[..n], items[n], ItemSpendingAt(c, t, dim, key));
    }
  }

  lemma PartItemStep(c: Context, t: Transaction, dim: Dimension, key: Key, items: seq<Item>, i: Item)
    ensures Sum(Filter(Map(Filter(items + [i], IsSpending(c)), ItemPart(c, t, dim)), HasKey(key)), PartAmount())
      == Sum(Filter(Map(Filter(items, IsSpending(c)), ItemPart(c, t, dim)), HasKey(key)), PartAmount())
        + ItemSpendingAt(c, t, dim, key)(i)
  {
    var f, p := ItemPart(c, t, dim), HasKey(key);
    FilterOneMore(items, i, IsSpending(c));
    assert ItemSpendingAt(c, t, dim, key)(i) == if IsSpending(c)(i) && p(f(i)) then PartAmount()(f(i)) else 0;
    hide Filter, Sum, ItemPart, ItemKey, ItemSpendingAt, HasKey, Map, PartAmount;
    if IsSpending(c)(i) {
      var spending := Filter(items, IsSpending(c));
      MapConcat(spending, [i], f);
      MapOne(i, f);
      FilterOneMore(Map(spending, f), f(i), p);
      if p(f(i)) { SumOneMore(Filter(Map(spending, f), p), f(i), PartAmount()); }
    }
  }

  lemma {:induction false} PlaceItems(c: Context, t: Transaction, key: Key, items: seq<Item>)
    ensures Sum(items, ItemSpendingAt(c, t, ByPlace, key)) == if t.placeId == key
      then Sign(t) * Sum(Filter(items, IsSpending(c)), AmountOf()) else 0
  {
    if items != [] {
      var n := |items| - 1;
      PlaceItems(c, t, key, items[..n]);
      LastSplit(items);
      FilterOneMore(items[..n], items[n], IsSpending(c));
      SumOneMore(items[..n], items[n], ItemSpendingAt(c, t, ByPlace, key));
      hide Filter;
      if IsSpending(c)(items[n]) { SumOneMore(Filter(items[..n], IsSpending(c)), items[n], AmountOf()); }
    }
  }

  lemma OneEntry(e: SpendingEntry, dim: Dimension, key: Key)
    ensures Sum(Filter([e], WithKey(EntryKey(dim), key)), EntryAmount()) == if DimKey(e, dim) == key then e.amount
      else 0
  {
    FilterOneMore([], e, WithKey(EntryKey(dim), key));
    assert [] + [e] == [e];
    SumOne(e, EntryAmount());
  }

  lemma OnePart(p: Part, key: Key)
    ensures Sum(Filter([p], HasKey(key)), PartAmount()) == if p.key == key then p.amount else 0
  {
    FilterOneMore([], p, HasKey(key));
    assert [] + [p] == [p];
    SumOne(p, PartAmount());
  }

  lemma TxnEntryKey(c: Context, t: Transaction, dim: Dimension)
    ensures DimKey(TxnEntry(c, t), dim) == TxnKey(c, t, dim) && TxnEntry(c, t).amount == Sign(t) * t.amount
  {
  }

  lemma PlaceAgrees(c: Context, t: Transaction, key: Key)
    requires t.kind == Expense && t.items != []
    ensures SpendingAt(c, ByPlace, key)(t) == if t.placeId == key
      then Sign(t) * Sum(Filter(t.items, IsSpending(c)), AmountOf()) else 0
  {
    var amount := Sum(Filter(t.items, IsSpending(c)), AmountOf());
    var parts := ExpenseByDimension(c, t, ByPlace);
    assert parts == if amount != 0 then [Part(t.placeId, Sign(t) * amount)] else [];
    hide Filter, Sum, ExpenseByDimension;
    if amount != 0 {
      OnePart(Part(t.placeId, Sign(t) * amount), key);
    } else {
      NoParts(key);
    }
  }

  lemma NoParts(key: Key)
    ensures Sum(Filter([], HasKey(key)), PartAmount()) == 0
  {
  }

  lemma ItemsAgree(c: Context, t: Transaction, dim: Dimension, key: Key)
    requires t.kind == Expense && t.items != [] && dim != ByPlace
    ensures SpendingAt(c, dim, key)(t) == Sum(Filter(Map(Filter(t.items, IsSpending(c)), ItemPart(c, t, dim)),
      HasKey(key)), PartAmount())
  {
    hide Filter, Map, Sum, ItemPart;
  }

  lemma SplitAgrees(c: Context, t: Transaction, dim: Dimension, key: Key)
    requires t.kind == Expense && t.items != []
    ensures SpendingAt(c, dim, key)(t) == Sum(t.items, ItemSpendingAt(c, t, dim, key))
  {
    hide *;
    if dim == ByPlace {
      PlaceItems(c, t, key, t.items);
      PlaceAgrees(c, t, key);
    } else {
      PartItems(c, t, dim, key, t.items);
      ItemsAgree(c, t, dim, key);
    }
  }

  /** One transaction contributes the same to the explorer and to the report, whatever the key. */
  lemma TxnAgrees(c: Context, t: Transaction, dim: Dimension, key: Key)
    ensures Sum(Filter(EntriesFor(c)(t), WithKey(EntryKey(dim), key)), EntryAmount()) == SpendingAt(c, dim, key)(t)
  {
    EntriesForMeans(c, t);
    if t.kind == Expense && t.items != [] {
      hide *;
      EntryItems(c, t, dim, key, t.items);
      SplitAgrees(c, t, dim, key);
    } else if t.kind == Expense {
      OneEntry(TxnEntry(c, t), dim, key);
      OnePart(Part(TxnKey(c, t, dim), Sign(t) * t.amount), key);
      TxnEntryKey(c, t, dim);
      hide TxnEntry, TxnKey, EntriesFor, WithKey, EntryKey;
    }
  }

  function EntriesOf(ledger: Ledger): seq<SpendingEntry> { FlatMap(ledger.transactions, EntriesFor(ContextOf(ledger))) }

  function EntryInMonths(from: Month, to: Month): SpendingEntry -> bool {
    (e: SpendingEntry) => from <= e.date.month <= to
  }

  function Both<T>(p: T -> bool, q: T -> bool): T -> bool { (x: T) => p(x) && q(x) }

  lemma {:induction false} FilterBoth<T>(s: seq<T>, p: T -> bool, q: T -> bool)
    ensures Filter(Filter(s, p), q) == Filter(s, Both(p, q))
  {
    if s != [] {
      var n := |s| - 1;
      FilterBoth(s[..n], p, q);
      LastSplit(s);
      FilterOneMore(s[..n], s[n], p);
      FilterOneMore(s[..n], s[n], Both(p, q));
      hide Filter;
      if p(s[n]) { FilterOneMore(Filter(s[..n], p), s[n], q); }
    }
  }

  lemma EntryDates(c: Context, t: Transaction, e: SpendingEntry)
    requires e in EntriesFor(c)(t)
    ensures e.date == t.date && e.txnId == t.id && e.place == t.placeId && e.account == t.accountId
  {
    EntriesForMeans(c, t);
    if t.kind == Expense && t.items != [] {
      var listed := Filter(t.items, IsListed(c));
      var i :| 0 <= i < |listed| && ItemEntry(c, t)(listed[i]) == e;
    }
  }

  function KeyedIn(c: Context, from: Month, to: Month, dim: Dimension, key: Key): Transaction -> int {
    (t: Transaction) => if from <= t.date.month <= to then SpendingAt(c, dim, key)(t) else 0
  }

  lemma EntriesWithin(c: Context, t: Transaction, from: Month, to: Month, q: SpendingEntry -> bool)
    ensures Filter(EntriesFor(c)(t), Both(EntryInMonths(from, to), q)) == if from <= t.date.month <= to
      then Filter(EntriesFor(c)(t), q) else []
  {
    var entries := EntriesFor(c)(t);
    hide EntriesFor;
    forall e | e in entries ensures e.date == t.date { EntryDates(c, t, e); }
    if from <= t.date.month <= to {
      FilterAgrees(entries, Both(EntryInMonths(from, to), q), q);
    } else {
      FilterNone(entries, Both(EntryInMonths(from, to), q));
    }
  }

  /** The explorer's total for a key is the report's, for every dimension and every range of months. */
  lemma {:induction false} ExplorerAgreesWithReport(ledger: Ledger, from: Month, to: Month, dim: Dimension, key: Key)
    ensures TotalAt(Filter(EntriesOf(ledger), EntryInMonths(from, to)), EntryKey(dim), EntryAmount())(key) ==
      ReportTotal(ledger, from, to, dim, key)
  {
    var c, txns := ContextOf(ledger), ledger.transactions;
    var inMonths, withKey := EntryInMonths(from, to), WithKey(EntryKey(dim), key);
    hide Filter, Sum, EntriesFor, SpendingAt, ContextOf, EntryKey, Both, EntryInMonths, WithKey, FlatMap;
    FilterBoth(EntriesOf(ledger), inMonths, withKey);
    forall t | t in txns ensures Sum(Filter(EntriesFor(c)(t), Both(inMonths, withKey)), EntryAmount()) ==
      KeyedIn(c, from, to, dim, key)(t) {
      EntriesWithin(c, t, from, to, withKey);
      TxnAgrees(c, t, dim, key);
      NoMoney(EntryAmount());
    }
    FlatFilterSum(txns, EntriesFor(c), Both(inMonths, withKey), EntryAmount(), KeyedIn(c, from, to, dim, key));
    SumWhere(txns, InMonths(from, to), SpendingAt(c, dim, key), KeyedIn(c, from, to, dim, key));
  }

  lemma NoMoney<T>(f: T -> int)
    ensures Sum([], f) == 0
  {
  }

  lemma {:induction false} TxnEntriesSum(c: Context, t: Transaction)
    ensures Sum(EntriesFor(c)(t), EntryAmount()) == Spending(c)(t)
  {
    // All entries of a transaction carry its place.
    var entries := EntriesFor(c)(t);
    TxnAgrees(c, t, ByPlace, t.placeId);
    forall e | e in entries ensures WithKey(EntryKey(ByPlace), t.placeId)(e) { EntryDates(c, t, e); }
    FilterAll(entries, WithKey(EntryKey(ByPlace), t.placeId));
    var parts := ExpenseByDimension(c, t, ByPlace);
    forall p | p in parts ensures HasKey(t.placeId)(p) {}
    FilterAll(parts, HasKey(t.placeId));
    PartsAddUp(c, t, ByPlace);
    hide EntriesFor, ExpenseByDimension, Spending;
  }

  function SpentIn(c: Context, from: Month, to: Month): Transaction -> int {
    (t: Transaction) => if from <= t.date.month <= to then Spending(c)(t) else 0
  }

  function Any<T>(): T -> bool { (x: T) => true }

  /**
   * All the explorer shows for a range of months is the spending of those months; for one month, the cash-flow
   * expense.
   */
  lemma {:induction false} ExplorerAgreesWithCashflow(ledger: Ledger, from: Month, to: Month)
    ensures Sum(Filter(EntriesOf(ledger), EntryInMonths(from, to)), EntryAmount())
      == Sum(Filter(ledger.transactions, InMonths(from, to)), Spending(ContextOf(ledger)))
    ensures from == to ==>
      Sum(Filter(EntriesOf(ledger), EntryInMonths(from, to)), EntryAmount()) == PointOf(ledger, from).expense
  {
    var c, txns := ContextOf(ledger), ledger.transactions;
    var inMonths := EntryInMonths(from, to);
    hide Filter, Sum, EntriesFor, Spending, ContextOf, Both, EntryInMonths, FlatMap;
    forall t | t in txns ensures Sum(Filter(EntriesFor(c)(t), inMonths), EntryAmount()) == SpentIn(c, from, to)(t) {
      EntriesWithin(c, t, from, to, Any());
      BothAny(EntriesFor(c)(t), inMonths);
      TxnEntriesSum(c, t);
      NoMoney(EntryAmount());
    }
    FlatFilterSum(txns, EntriesFor(c), inMonths, EntryAmount(), SpentIn(c, from, to));
    SumWhere(txns, InMonths(from, to), Spending(c), SpentIn(c, from, to));
  }

  lemma BothAny<T>(s: seq<T>, p: T -> bool)
    ensures Filter(s, Both(p, Any())) == Filter(s, p) && Filter(s, Any()) == s
  {
    FilterAgrees(s, Both(p, Any()), p);
    FilterAll(s, Any());
  }
}
