/** The spending reports: by dimension, by month and by day, all counting the same money. */
module SpendingReports {
  import opened Sequences
  import opened Sorting
  import opened KeyedTotals
  import opened Ledger

  type Key = Option<Id>

  datatype Dimension = ByCategory | ByEnvelope | ByGroup | ByPlace

  /** What the ledger says about envelopes: their groups, and which of them hold savings. */
  datatype Context = Context(groupOf: map<Id, Id>, savings: set<Id>)

  function GroupsById(envelopes: seq<Envelope>): map<Id, Id> {
    if envelopes == [] then map[]
    else GroupsById(envelopes[..|envelopes| - 1])[envelopes[|envelopes| - 1].id := envelopes[|envelopes| - 1].groupId]
  }

  function ContextOf(ledger: Ledger): Context {
    Context(GroupsById(ledger.envelopes), set e | e in ledger.envelopes && e.isSavings :: e.id)
  }

  function GroupKey(c: Context, envelope: Key): Key {
    if envelope.Some? && envelope.value in c.groupOf then Some(c.groupOf[envelope.value]) else None
  }

  function Sign(t: Transaction): int { if t.isRefund then -1 else 1 }

  function IsSpending(c: Context): Item -> bool { (i: Item) => i.envelopeId !in c.savings }

  function AmountOf(): Item -> int { (i: Item) => i.amount }

  function ItemKey(c: Context, i: Item, dim: Dimension, place: Key): Key {
    match dim
    case ByCategory => i.categoryId
    case ByEnvelope => Some(i.envelopeId)
    case ByGroup => GroupKey(c, Some(i.envelopeId))
    case ByPlace => place
  }

  function TxnKey(c: Context, t: Transaction, dim: Dimension): Key {
    match dim
    case ByCategory => t.categoryId
    case ByEnvelope => t.envelopeId
    case ByGroup => GroupKey(c, t.envelopeId)
    case ByPlace => t.placeId
  }

  datatype Part = Part(key: Key, amount: Money)

  function ItemPart(c: Context, t: Transaction, dim: Dimension): Item -> Part {
    (i: Item) => Part(ItemKey(c, i, dim, t.placeId), Sign(t) * i.amount)
  }

  function ExpenseByDimension(c: Context, t: Transaction, dim: Dimension): seq<Part> {
    if t.kind != Expense then []
    else if t.items != [] then
      var items := Filter(t.items, IsSpending(c));
      if dim == ByPlace then
        var amount := Sum(items, AmountOf());
        if amount != 0 then [Part(t.placeId, Sign(t) * amount)] else []
      else Map(items, ItemPart(c, t, dim))
    else if t.envelopeId.Some? && t.envelopeId.value in c.savings then []
    else [Part(TxnKey(c, t, dim), Sign(t) * t.amount)]
  }

  // ---- what the reports are meant to count --------------------------------------------------------------

  /** The money an expense spends: refunds negative, savings envelopes excluded. */
  function Spending(c: Context): Transaction -> int {
    (t: Transaction) =>
      if t.kind != Expense then 0
      else if t.items != [] then Sign(t) * Sum(Filter(t.items, IsSpending(c)), AmountOf())
      else if t.envelopeId.Some? && t.envelopeId.value in c.savings then 0
      else Sign(t) * t.amount
  }

  function PartAmount(): Part -> int { (p: Part) => p.amount }

  function HasKey(key: Key): Part -> bool { (p: Part) => p.key == key }

  function SpendingAt(c: Context, dim: Dimension, key: Key): Transaction -> int {
    (t: Transaction) => Sum(Filter(ExpenseByDimension(c, t, dim), HasKey(key)), PartAmount())
  }

  function InMonths(from: Month, to: Month): Transaction -> bool { (t: Transaction) => from <= t.date.month <= to }

  function OnDate(date: Date): Transaction -> bool { (t: Transaction) => t.date == date }

  function ReportTotal(ledger: Ledger, from: Month, to: Month, dim: Dimension, key: Key): Money {
    Sum(Filter(ledger.transactions, InMonths(from, to)), SpendingAt(ContextOf(ledger), dim, key))
  }

  function MonthSpending(ledger: Ledger, month: Month): Money {
    Sum(Filter(ledger.transactions, InMonths(month, month)), Spending(ContextOf(ledger)))
  }

  function DaySpending(ledger: Ledger, date: Date): Money {
    Sum(Filter(ledger.transactions, OnDate(date)), Spending(ContextOf(ledger)))
  }

  lemma {:induction false} SignedSum(items: seq<Item>, c: Context, t: Transaction, dim: Dimension)
    ensures Sum(Map(items, ItemPart(c, t, dim)), PartAmount()) == Sign(t) * Sum(items, AmountOf())
  {
    if items != [] {
      var n := |items| - 1;
      SignedSum(items[..n], c, t, dim);
      assert Map(items, ItemPart(c, t, dim))[..n] == Map(items[..n], ItemPart(c, t, dim));
    }
  }

  /** However an expense is cut up, its parts add up to what it spends. */
  lemma {:induction false} PartsAddUp(c: Context, t: Transaction, dim: Dimension)
    ensures Sum(ExpenseByDimension(c, t, dim), PartAmount()) == Spending(c)(t)
  {
    if t.kind == Expense && t.items != [] {
      SignedSum(Filter(t.items, IsSpending(c)), c, t, dim);
    }
    var parts := ExpenseByDimension(c, t, dim);
    if |parts| == 1 { SumOne(parts[0], PartAmount()); }
    hide Filter;
  }

  // ---- the report by dimension --------------------------------------------------------------------------

  function PartKey(): Part -> Key { (p: Part) => p.key }

  function PartsFor(c: Context, dim: Dimension): Transaction -> seq<Part> {
    (t: Transaction) => ExpenseByDimension(c, t, dim)
  }

  /** All parts of the expenses of those months, in ledger order. */
  function PartsOf(c: Context, txns: seq<Transaction>, from: Month, to: Month, dim: Dimension): seq<Part> {
    FlatMap(Filter(txns, InMonths(from, to)), PartsFor(c, dim))
  }

  lemma {:induction false} PartsTotal(c: Context, txns: seq<Transaction>, from: Month, to: Month, dim: Dimension)
    ensures Sum(PartsOf(c, txns, from, to, dim), PartAmount()) == Sum(Filter(txns, InMonths(from, to)), Spending(c))
  {
    var s := Filter(txns, InMonths(from, to));
    hide Spending, ExpenseByDimension, Sum, Filter;
    forall t | t in s ensures Sum(PartsFor(c, dim)(t), PartAmount()) == Spending(c)(t) { PartsAddUp(c, t, dim); }
    FlatSum(s, PartsFor(c, dim), PartAmount(), Spending(c));
  }

  lemma {:induction false} PartsAtKey(
    c: Context, txns: seq<Transaction>, from: Month, to: Month, dim: Dimension, key: Key)
    ensures TotalAt(PartsOf(c, txns, from, to, dim), PartKey(), PartAmount())(key) ==
      Sum(Filter(txns, InMonths(from, to)), SpendingAt(c, dim, key))
  {
    var s := Filter(txns, InMonths(from, to));
    hide ExpenseByDimension, Sum, Filter;
    forall t | t in s ensures Sum(Filter(PartsFor(c, dim)(t), WithKey(PartKey(), key)), PartAmount()) ==
      SpendingAt(c, dim, key)(t) {
      FilterAgrees(ExpenseByDimension(c, t, dim), WithKey(PartKey(), key), HasKey(key));
    }
    FlatFilterSum(s, PartsFor(c, dim), WithKey(PartKey(), key), PartAmount(), SpendingAt(c, dim, key));
  }

  datatype SpendingRow = SpendingRow(key: Key, amount: Money, share: real)

  function Share(amount: Money, total: Money): real { if total > 0 then amount as real / total as real else 0.0 }

  function RowAt(amountAt: Key -> int, total: Money): Key -> SpendingRow {
    (k: Key) => SpendingRow(k, amountAt(k), Share(amountAt(k), total))
  }

  function IsNonZero(): SpendingRow -> bool { (r: SpendingRow) => r.amount != 0 }

  function LargestFirst(): (SpendingRow, SpendingRow) -> bool {
    (a: SpendingRow, b: SpendingRow) => a.amount >= b.amount
  }

  /** One row per key with money in it, largest first. */
  function RowsOf(keys: seq<Key>, amountAt: Key -> int, total: Money): seq<SpendingRow> {
    Sort(Filter(Map(keys, RowAt(amountAt, total)), IsNonZero()), LargestFirst())
  }

  function RowAmount(): SpendingRow -> int { (r: SpendingRow) => r.amount }

  lemma {:induction false} MapAgrees<A, B>(s: seq<A>, f: A -> B, g: A -> B)
    requires forall x :: x in s ==> f(x) == g(x)
    ensures Map(s, f) == Map(s, g)
  {
  }

  lemma NonZeroStep(keys: seq<Key>, k: Key, amountAt: Key -> int, total: Money)
    ensures Sum(Filter(Map(keys + [k], RowAt(amountAt, total)), IsNonZero()), RowAmount()) ==
      Sum(Filter(Map(keys, RowAt(amountAt, total)), IsNonZero()), RowAmount()) + amountAt(k)
  {
    var f := RowAt(amountAt, total);
    hide Filter, Sum;
    MapConcat(keys, [k], f);
    assert Map([k], f) == [f(k)];
    FilterOneMore(Map(keys, f), f(k), IsNonZero());
    SumOneMore(Filter(Map(keys, f), IsNonZero()), f(k), RowAmount());
  }

  lemma {:induction false} NonZeroSum(keys: seq<Key>, amountAt: Key -> int, total: Money)
    ensures Sum(Filter(Map(keys, RowAt(amountAt, total)), IsNonZero()), RowAmount()) == Sum(keys, amountAt)
  {
    if keys != [] {
      var n := |keys| - 1;
      LastSplit(keys);
      hide *;
      NonZeroSum(keys[..n], amountAt, total);
      NonZeroStep(keys[..n], keys[n], amountAt, total);
      SumOneMore(keys[..n], keys[n], amountAt);
    }
  }

  /** The rows are exactly the keys with money in them, each once, largest first, and add up to the whole. */
  ghost predicate IsReport(rows: seq<SpendingRow>, keys: seq<Key>, amountAt: Key -> int, total: Money) {
    && (forall r :: r in rows ==>
      r.key in keys && r.amount == amountAt(r.key) != 0 && r.share == Share(r.amount, total))
    && (forall k :: k in keys && amountAt(k) != 0 ==> exists r :: r in rows && r.key == k)
    && Ordered(rows, LargestFirst())
    && Sum(rows, RowAmount()) == Sum(keys, amountAt)
  }

  lemma {:induction false} RowsMean(keys: seq<Key>, amountAt: Key -> int, total: Money)
    ensures IsReport(RowsOf(keys, amountAt, total), keys, amountAt, total)
  {
    var all := Map(keys, RowAt(amountAt, total));
    var kept := Filter(all, IsNonZero());
    var rows := RowsOf(keys, amountAt, total);
    SortKeeps(kept, LargestFirst());
    assert TotalOrder(LargestFirst());
    SortOrdered(kept, LargestFirst());
    SortSum(kept, LargestFirst(), RowAmount());
    NonZeroSum(keys, amountAt, total);
    SameElements(rows, kept);
    SameElements(kept, rows);
    hide Sort, Share, Filter, Sum, TotalOrder, Ordered;
    forall r | r in rows ensures r.key in keys && r.amount == amountAt(r.key) != 0 &&
      r.share == Share(r.amount, total) {
      FilterMember(all, IsNonZero(), r);
      var i :| 0 <= i < |all| && all[i] == r;
      assert keys[i] in keys;
    }
    forall k | k in keys && amountAt(k) != 0 ensures exists r :: r in rows && r.key == k {
      var i :| 0 <= i < |keys| && keys[i] == k;
      assert all[i] in all;
      FilterMember(all, IsNonZero(), all[i]);
    }
  }

  function SumsAt(sums: map<Key, Money>): Key -> int { (k: Key) => if k in sums then sums[k] else 0 }

  method AddParts(ghost before: seq<Part>, parts: seq<Part>, order0: seq<Key>, sums0: map<Key, Money>)
    returns (order: seq<Key>, sums: map<Key, Money>)
    requires Tallied(before, PartKey(), PartAmount(), order0, sums0)
    ensures Tallied(before + parts, PartKey(), PartAmount(), order, sums)
  {
    hide *;
    order, sums := order0, sums0;
    NothingAppended(before, parts);
    for i := 0 to |parts|
      invariant Tallied(before + parts[..i], PartKey(), PartAmount(), order, sums)
    {
      var p := parts[i];
      OneAppended(before, parts, i);
      PartLambdas(p);
      TallyStep(before + parts[..i], p, PartKey(), PartAmount(), order, sums);
      if p.key !in sums { order := order + [p.key]; }
      sums := sums[p.key := (if p.key in sums then sums[p.key] else 0) + p.amount];
    }
    WholeAppended(before, parts);
  }

  lemma PartLambdas(p: Part)
    ensures PartKey()(p) == p.key && PartAmount()(p) == p.amount
  {
  }

  lemma NothingAppended<T>(a: seq<T>, b: seq<T>)
    ensures a + b[..0] == a
  {
  }

  lemma OneAppended<T>(a: seq<T>, b: seq<T>, i: nat)
    requires i < |b|
    ensures a + b[..i + 1] == (a + b[..i]) + [b[i]]
  {
  }

  lemma WholeAppended<T>(a: seq<T>, b: seq<T>)
    ensures a + b[..|b|] == a + b
  {
  }

  function ReportOf(parts: seq<Part>): seq<SpendingRow> {
    RowsOf(FirstSeen(parts, PartKey()), TotalAt(parts, PartKey(), PartAmount()), Sum(parts, PartAmount()))
  }

  /** The rows of a finished tally. */
  method RowsFrom(ghost parts: seq<Part>, order: seq<Key>, sums: map<Key, Money>) returns (rows: seq<SpendingRow>)
    requires Tallied(parts, PartKey(), PartAmount(), order, sums)
    ensures rows == ReportOf(parts)
  {
    TalliedValues(parts, order, sums);
    PartitionSum(parts, PartKey(), PartAmount());
    hide RowAt, TotalAt, FirstSeen, Sum, Tallied, Sort, Filter, SumsAt;
    var total := Sum(order, SumsAt(sums));
    SumEqual(order, SumsAt(sums), TotalAt(parts, PartKey(), PartAmount()));
    RowsAgree(order, SumsAt(sums), TotalAt(parts, PartKey(), PartAmount()), total);
    rows := Sort(Filter(Map(order, RowAt(SumsAt(sums), total)), IsNonZero()), LargestFirst());
  }

  lemma TalliedValues(parts: seq<Part>, order: seq<Key>, sums: map<Key, Money>)
    requires Tallied(parts, PartKey(), PartAmount(), order, sums)
    ensures order == FirstSeen(parts, PartKey())
    ensures forall k :: k in order ==> SumsAt(sums)(k) == TotalAt(parts, PartKey(), PartAmount())(k)
  {
    hide TotalAt, FirstSeen;
  }

  lemma RowsAgree(keys: seq<Key>, f: Key -> int, g: Key -> int, total: Money)
    requires forall k :: k in keys ==> f(k) == g(k)
    ensures Map(keys, RowAt(f, total)) == Map(keys, RowAt(g, total))
  {
    hide Share;
    MapAgrees(keys, RowAt(f, total), RowAt(g, total));
  }

  method ComputeSpendingByDimension(ledger: Ledger, from: Month, to: Month, dim: Dimension)
    returns (rows: seq<SpendingRow>)
    ensures rows == ReportOf(PartsOf(ContextOf(ledger), ledger.transactions, from, to, dim))
  {
    var c := ContextOf(ledger);
    var txns := ledger.transactions;
    var order: seq<Key>, sums: map<Key, Money> := [], map[];
    TallyNothing(PartKey(), PartAmount());
    assert PartsOf(c, txns[..0], from, to, dim) == [];
    for i := 0 to |txns|
      invariant Tallied(PartsOf(c, txns[..i], from, to, dim), PartKey(), PartAmount(), order, sums)
    {
      hide *;
      var t := txns[i];
      PartsStep(c, txns, i, from, to, dim);
      if t.date.month < from || t.date.month > to { continue; }
      order, sums := AddParts(PartsOf(c, txns[..i], from, to, dim), ExpenseByDimension(c, t, dim), order, sums);
    }
    assert txns[..|txns|] == txns;
    rows := RowsFrom(PartsOf(c, txns, from, to, dim), order, sums);
  }

  lemma PartsStep(c: Context, txns: seq<Transaction>, i: nat, from: Month, to: Month, dim: Dimension)
    requires i < |txns|
    ensures PartsOf(c, txns[..i + 1], from, to, dim) ==
      if from <= txns[i].date.month <= to
      then PartsOf(c, txns[..i], from, to, dim) + ExpenseByDimension(c, txns[i], dim)
      else PartsOf(c, txns[..i], from, to, dim)
  {
    FilterStep(txns, i, InMonths(from, to));
    hide Filter, ExpenseByDimension;
    if InMonths(from, to)(txns[i]) { FlatMapOneMore(Filter(txns[..i], InMonths(from, to)), txns[i], PartsFor(c, dim)); }
  }

  /** Every dimension reports the same money: per key as specified, and over all keys the spending of the months. */
  lemma {:induction false} EveryDimensionAddsUp(ledger: Ledger, from: Month, to: Month, dim: Dimension)
    ensures var parts := PartsOf(ContextOf(ledger), ledger.transactions, from, to, dim);
      && Sum(ReportOf(parts), RowAmount()) == Sum(Filter(ledger.transactions, InMonths(from, to)),
        Spending(ContextOf(ledger)))
      && (forall r :: r in ReportOf(parts) ==> r.amount == ReportTotal(ledger, from, to, dim, r.key) != 0)
      && (forall key :: ReportTotal(ledger, from, to, dim, key) != 0 ==>
        exists r :: r in ReportOf(parts) && r.key == key)
  {
    var c, txns := ContextOf(ledger), ledger.transactions;
    var parts := PartsOf(c, txns, from, to, dim);
    var keys, at := FirstSeen(parts, PartKey()), TotalAt(parts, PartKey(), PartAmount());
    RowsMean(keys, at, Sum(parts, PartAmount()));
    PartitionSum(parts, PartKey(), PartAmount());
    PartsTotal(c, txns, from, to, dim);
    assert ReportOf(parts) == RowsOf(keys, at, Sum(parts, PartAmount()));
    assert IsReport(ReportOf(parts), keys, at, Sum(parts, PartAmount()));
    hide ReportOf, RowsOf, PartsOf, Sum, TotalAt, FirstSeen, Share, Ordered, ContextOf, Spending, SpendingAt;
    forall key ensures at(key) == ReportTotal(ledger, from, to, dim, key) { PartsAtKey(c, txns, from, to, dim, key); }
    forall key | at(key) != 0 ensures key in keys {
      if key !in keys { NotSeen(parts, PartKey(), PartAmount(), key); }
    }
  }

  // ---- by month and by day ------------------------------------------------------------------------------

  function IncomeOf(): Transaction -> int { (t: Transaction) => if t.kind == Income then t.amount else 0 }

  datatype CashflowPoint = CashflowPoint(month: Month, income: Money, expense: Money, net: Money)

  function PointOf(ledger: Ledger, month: Month): CashflowPoint {
    var income := Sum(Filter(ledger.transactions, InMonths(month, month)), IncomeOf());
    CashflowPoint(month, income, MonthSpending(ledger, month), income - MonthSpending(ledger, month))
  }

  datatype Flow = Flow(income: Money, expense: Money)

  function FlowOf(c: Context, txns: seq<Transaction>, month: Month): Flow {
    Flow(Sum(Filter(txns, InMonths(month, month)), IncomeOf()), Sum(Filter(txns, InMonths(month, month)), Spending(c)))
  }

  lemma FlowStep(c: Context, txns: seq<Transaction>, i: nat, month: Month)
    requires i < |txns|
    ensures FlowOf(c, txns[..i + 1], month) ==
      if txns[i].date.month == month
      then Flow(FlowOf(c, txns[..i], month).income + IncomeOf()(txns[i]),
        FlowOf(c, txns[..i], month).expense + Spending(c)(txns[i]))
      else FlowOf(c, txns[..i], month)
  {
    var p := InMonths(month, month);
    FilterStep(txns, i, p);
    hide Filter, Sum, Spending;
    if p(txns[i]) {
      SumOneMore(Filter(txns[..i], p), txns[i], IncomeOf());
      SumOneMore(Filter(txns[..i], p), txns[i], Spending(c));
    }
  }

  ghost predicate FlowsOf(c: Context, txns: seq<Transaction>, flows: map<Month, Flow>, first: Month, last: Month) {
    forall m :: (m in flows <==> first <= m <= last) && (m in flows ==> flows[m] == FlowOf(c, txns, m))
  }

  lemma FlowsStep(c: Context, txns: seq<Transaction>, i: nat, flows: map<Month, Flow>, first: Month, last: Month)
    requires i < |txns| && FlowsOf(c, txns[..i], flows, first, last)
    ensures var t := txns[i];
      var m := t.date.month;
      FlowsOf(c, txns[..i + 1],
              if m in flows then flows[m := Flow(flows[m].income + IncomeOf()(t), flows[m].expense + Spending(c)(t))]
                else flows, first, last)
  {
    hide FlowOf;
    forall m ensures FlowOf(c, txns[..i + 1], m) ==
      if txns[i].date.month == m
      then Flow(FlowOf(c, txns[..i], m).income + IncomeOf()(txns[i]),
        FlowOf(c, txns[..i], m).expense + Spending(c)(txns[i]))
      else FlowOf(c, txns[..i], m)
    {
      FlowStep(c, txns, i, m);
    }
    hide Spending, IncomeOf;
  }

  method EmptyFlows(ghost c: Context, ghost txns: seq<Transaction>, first: Month, count: nat)
    returns (flows: map<Month, Flow>)
    ensures FlowsOf(c, txns[..0], flows, first, first + count - 1)
  {
    flows := map[];
    NoFlows(c, txns, first);
    hide *;
    for k := 0 to count
      invariant FlowsOf(c, txns[..0], flows, first, first + k - 1)
    {
      EmptyFlow(c, txns, flows, first, k);
      flows := flows[first + k := Flow(0, 0)];
    }
  }

  /** What an expense spends outside savings. */
  method SpentBy(c: Context, t: Transaction) returns (spent: Money)
    requires t.kind == Expense
    ensures spent == Spending(c)(t)
  {
    TxnFlow(c, t);
    hide *;
    spent := 0;
    if t.items != [] {
      spent := Sign(t) * Sum(Filter(t.items, IsSpending(c)), AmountOf());
    } else if !(t.envelopeId.Some? && t.envelopeId.value in c.savings) {
      spent := Sign(t) * t.amount;
    }
  }

  method AddFlows(c: Context, txns: seq<Transaction>, flows0: map<Month, Flow>, ghost first: Month, ghost last: Month)
    returns (flows: map<Month, Flow>)
    requires FlowsOf(c, txns[..0], flows0, first, last)
    ensures FlowsOf(c, txns, flows, first, last)
  {
    hide *;
    flows := flows0;
    for i := 0 to |txns|
      invariant FlowsOf(c, txns[..i], flows, first, last)
    {
      var t := txns[i];
      var m := t.date.month;
      FlowsStep(c, txns, i, flows, first, last);
      TxnFlow(c, t);
      if t.kind == Transfer || m !in flows {
        NoFlow(flows, m);
      } else if t.kind == Income {
        flows := flows[m := Flow(flows[m].income + t.amount, flows[m].expense + 0)];
      } else {
        var spent := SpentBy(c, t);
        flows := flows[m := Flow(flows[m].income + 0, flows[m].expense + spent)];
      }
    }
    WholeTake(txns);
  }

  /** The last `months` months up to `month`, at least one. */
  method ComputeCashflowSeries(ledger: Ledger, month: Month, months: int := 12) returns (points: seq<CashflowPoint>)
    ensures |points| == Max(1, months) && forall k :: 0 <= k < |points| ==>
      points[k] == PointOf(ledger, month - |points| + 1 + k)
  {
    var count: nat := Max(1, months);
    var first := month - count + 1;
    hide *;
    var flows := EmptyFlows(ContextOf(ledger), ledger.transactions, first, count);
    flows := AddFlows(ContextOf(ledger), ledger.transactions, flows, first, first + count - 1);
    points := [];
    for k := 0 to count
      invariant |points| == k && forall j :: 0 <= j < k ==> points[j] == PointOf(ledger, first + j)
    {
      PointFlow(ledger, flows, first, first + count - 1, first + k);
      var flow := flows[first + k];
      points := points + [CashflowPoint(first + k, flow.income, flow.expense, flow.income - flow.expense)];
    }
  }

  lemma NoFlows(c: Context, txns: seq<Transaction>, first: Month)
    ensures FlowsOf(c, txns[..0], map[], first, first - 1)
  {
  }

  lemma EmptyFlow(c: Context, txns: seq<Transaction>, flows: map<Month, Flow>, first: Month, k: nat)
    requires FlowsOf(c, txns[..0], flows, first, first + k - 1)
    ensures FlowsOf(c, txns[..0], flows[first + k := Flow(0, 0)], first, first + k)
  {
    assert FlowOf(c, txns[..0], first + k) == Flow(0, 0);
    hide FlowOf;
  }

  lemma NoFlow(flows: map<Month, Flow>, m: Month)
    ensures m in flows ==> flows[m := Flow(flows[m].income + 0, flows[m].expense + 0)] == flows
  {
  }

  lemma PointFlow(ledger: Ledger, flows: map<Month, Flow>, first: Month, last: Month, month: Month)
    requires FlowsOf(ContextOf(ledger), ledger.transactions, flows, first, last) && first <= month <= last
    ensures month in flows
    ensures var flow := flows[month];
      PointOf(ledger, month) == CashflowPoint(month, flow.income, flow.expense, flow.income - flow.expense)
  {
    hide Filter, Sum, Spending;
  }

  lemma TxnFlow(c: Context, t: Transaction)
    ensures t.kind == Transfer ==> IncomeOf()(t) == 0 && Spending(c)(t) == 0
    ensures t.kind == Income ==> IncomeOf()(t) == t.amount && Spending(c)(t) == 0
    ensures t.kind == Expense ==> IncomeOf()(t) == 0
    ensures t.kind == Expense && t.items != [] ==>
      Spending(c)(t) == Sign(t) * Sum(Filter(t.items, IsSpending(c)), AmountOf())
    ensures t.kind == Expense && t.items == [] ==>
      Spending(c)(t) == if t.envelopeId.Some? && t.envelopeId.value in c.savings then 0 else Sign(t) * t.amount
  {
  }

  datatype DailyPoint = DailyPoint(date: Date, total: Money)

  ghost predicate DaysOf(c: Context, txns: seq<Transaction>, byDate: map<Date, Money>, month: Month, days: int) {
    forall date: Date ::
      (date in byDate <==> date.month == month && 1 <= date.day <= days) &&
      (date in byDate ==> byDate[date] == Sum(Filter(txns, OnDate(date)), Spending(c)))
  }

  lemma NoDays(c: Context, txns: seq<Transaction>, month: Month)
    ensures DaysOf(c, txns[..0], map[], month, 0)
  {
  }

  lemma EmptyDay(c: Context, txns: seq<Transaction>, byDate: map<Date, Money>, month: Month, d: nat)
    requires DaysOf(c, txns[..0], byDate, month, d)
    ensures DaysOf(c, txns[..0], byDate[Date(month, d + 1) := 0], month, d + 1)
  {
    assert Sum(Filter(txns[..0], OnDate(Date(month, d + 1))), Spending(c)) == 0;
    hide Filter, Sum;
  }

  lemma DateStep(c: Context, txns: seq<Transaction>, i: nat, date: Date)
    requires i < |txns|
    ensures Sum(Filter(txns[..i + 1], OnDate(date)), Spending(c)) ==
      Sum(Filter(txns[..i], OnDate(date)), Spending(c)) + if txns[i].date == date then Spending(c)(txns[i]) else 0
  {
    FilterStep(txns, i, OnDate(date));
    hide Filter, Sum, Spending;
    if OnDate(date)(txns[i]) { SumOneMore(Filter(txns[..i], OnDate(date)), txns[i], Spending(c)); }
  }

  lemma DaysStep(c: Context, txns: seq<Transaction>, i: nat, byDate: map<Date, Money>, month: Month, days: int)
    requires i < |txns| && DaysOf(c, txns[..i], byDate, month, days)
    ensures var date := txns[i].date;
      DaysOf(c, txns[..i + 1], if date in byDate then byDate[date := byDate[date] + Spending(c)(txns[i])]
        else byDate, month, days)
  {
    hide Filter, Sum, Spending;
    forall date ensures Sum(Filter(txns[..i + 1], OnDate(date)), Spending(c)) ==
      Sum(Filter(txns[..i], OnDate(date)), Spending(c)) + if txns[i].date == date then Spending(c)(txns[i]) else 0
    {
      DateStep(c, txns, i, date);
    }
  }

  lemma SameTotal(byDate: map<Date, Money>, date: Date)
    ensures date in byDate ==> byDate[date := byDate[date] + 0] == byDate
  {
  }

  lemma DayTotal(ledger: Ledger, byDate: map<Date, Money>, month: Month, days: int, d: int)
    requires DaysOf(ContextOf(ledger), ledger.transactions, byDate, month, days) && 1 <= d <= days
    ensures Date(month, d) in byDate && byDate[Date(month, d)] == DaySpending(ledger, Date(month, d))
  {
    hide Filter, Sum, Spending;
  }

  /** One total per day of a month of `days` days. */
  method ComputeDailySpending(ledger: Ledger, month: Month, days: nat) returns (points: seq<DailyPoint>)
    ensures |points| == days
    ensures forall d :: 0 <= d < days ==>
      points[d] == DailyPoint(Date(month, d + 1), DaySpending(ledger, Date(month, d + 1)))
  {
    var c, txns := ContextOf(ledger), ledger.transactions;
    hide *;
    var byDate: map<Date, Money> := map[];
    NoDays(c, txns, month);
    for d := 0 to days
      invariant DaysOf(c, txns[..0], byDate, month, d)
    {
      EmptyDay(c, txns, byDate, month, d);
      byDate := byDate[Date(month, d + 1) := 0];
    }
    for i := 0 to |txns|
      invariant DaysOf(c, txns[..i], byDate, month, days)
    {
      var t := txns[i];
      DaysStep(c, txns, i, byDate, month, days);
      if t.date in byDate {
        var amount := Sum(ExpenseByDimension(c, t, ByCategory), PartAmount());
        PartsAddUp(c, t, ByCategory);
        SameTotal(byDate, t.date);
        if amount != 0 { byDate := byDate[t.date := byDate[t.date] + amount]; }
      }
    }
    WholeTake(txns);
    points := [];
    for d := 0 to days
      invariant |points| == d
      invariant forall k :: 0 <= k < d ==>
        points[k] == DailyPoint(Date(month, k + 1), DaySpending(ledger, Date(month, k + 1)))
    {
      DayTotal(ledger, byDate, month, days, d + 1);
      points := points + [DailyPoint(Date(month, d + 1), byDate[Date(month, d + 1)])];
    }
  }

  function SumOfDays(ledger: Ledger, month: Month, days: nat): Money {
    if days == 0 then 0 else SumOfDays(ledger, month, days - 1) + DaySpending(ledger, Date(month, days))
  }

  function InDays(month: Month, days: int): Transaction -> bool {
    (t: Transaction) => t.date.month == month && 1 <= t.date.day <= days
  }

  function OffCalendar(month: Month, days: int): Transaction -> bool {
    (t: Transaction) => t.date.month == month && !(1 <= t.date.day <= days)
  }

  lemma {:induction false} DaysCover(ledger: Ledger, month: Month, days: nat)
    ensures SumOfDays(ledger, month, days) == Sum(Filter(ledger.transactions, InDays(month, days)),
      Spending(ContextOf(ledger)))
  {
    var txns, f := ledger.transactions, Spending(ContextOf(ledger));
    if days == 0 {
      FilterNone(txns, InDays(month, 0));
    } else {
      DaysCover(ledger, month, days - 1);
      DisjointSum(txns, InDays(month, days), InDays(month, days - 1), OnDate(Date(month, days)), f);
      hide Filter, Sum, Spending;
    }
  }

  /** A month's spending is that of its days, plus what carries a day the month does not have. */
  lemma {:induction false} MonthIsItsDays(ledger: Ledger, month: Month, days: nat)
    ensures MonthSpending(ledger, month) ==
      SumOfDays(ledger, month, days) + Sum(Filter(ledger.transactions, OffCalendar(month, days)),
        Spending(ContextOf(ledger)))
    ensures (forall t :: t in ledger.transactions && t.date.month == month ==> 1 <= t.date.day <= days) ==>
      MonthSpending(ledger, month) == SumOfDays(ledger, month, days)
  {
    var txns, f := ledger.transactions, Spending(ContextOf(ledger));
    DaysCover(ledger, month, days);
    DisjointSum(txns, InMonths(month, month), InDays(month, days), OffCalendar(month, days), f);
    if forall t :: t in txns && t.date.month == month ==> 1 <= t.date.day <= days {
      FilterNone(txns, OffCalendar(month, days));
    }
    hide SumOfDays, Spending;
  }

  // ---- one day ------------------------------------------------------------------------------------------

  function SpentOn(c: Context, date: Date): Transaction -> bool {
    (t: Transaction) => t.date == date && Spending(c)(t) != 0
  }

  function DayParts(c: Context, txns: seq<Transaction>, date: Date): seq<Part> {
    FlatMap(Filter(txns, SpentOn(c, date)), PartsFor(c, ByEnvelope))
  }

  lemma {:induction false} DayPartsStep(c: Context, txns: seq<Transaction>, i: nat, date: Date)
    requires i < |txns|
    ensures DayParts(c, txns[..i + 1], date) == DayParts(c, txns[..i], date) + if SpentOn(c, date)(txns[i])
      then PartsFor(c, ByEnvelope)(txns[i]) else []
  {
    FilterStep(txns, i, SpentOn(c, date));
    hide Filter, PartsFor, SpentOn;
    if SpentOn(c, date)(txns[i])
    { FlatMapOneMore(Filter(txns[..i], SpentOn(c, date)), txns[i], PartsFor(c, ByEnvelope)); }
  }

  lemma NoMoreParts(parts: seq<Part>)
    ensures parts + [] == parts
  {
  }

  lemma SpentOnMeans(c: Context, date: Date, t: Transaction)
    ensures PartsFor(c, ByEnvelope)(t) == ExpenseByDimension(c, t, ByEnvelope)
    ensures SpentOn(c, date)(t) <==>
      t.date == date && ExpenseByDimension(c, t, ByEnvelope) != [] &&
        Sum(ExpenseByDimension(c, t, ByEnvelope), PartAmount()) != 0
  {
    PartsAddUp(c, t, ByEnvelope);
    hide ExpenseByDimension, Spending;
  }

  method ComputeDaySpending(ledger: Ledger, date: Date)
    returns (total: Money, txns: seq<Transaction>, rows: seq<SpendingRow>)
    ensures total == DaySpending(ledger, date)
    ensures txns == Filter(ledger.transactions, SpentOn(ContextOf(ledger), date))
    ensures rows == ReportOf(DayParts(ContextOf(ledger), ledger.transactions, date)) && Sum(rows, RowAmount()) == total
  {
    var c, all := ContextOf(ledger), ledger.transactions;
    hide *;
    var order: seq<Key>, sums: map<Key, Money> := [], map[];
    total, txns := 0, [];
    NothingSpent(c, all, date);
    for i := 0 to |all|
      invariant Tallied(DayParts(c, all[..i], date), PartKey(), PartAmount(), order, sums)
      invariant txns == Filter(all[..i], SpentOn(c, date))
      invariant total == Sum(DayParts(c, all[..i], date), PartAmount())
    {
      var t := all[i];
      DayPartsStep(c, all, i, date);
      FilterStep(all, i, SpentOn(c, date));
      SpentOnMeans(c, date, t);
      NoMoreParts(DayParts(c, all[..i], date));
      if t.date == date {
        var parts := ExpenseByDimension(c, t, ByEnvelope);
        var amount := Sum(parts, PartAmount());
        if parts != [] && amount != 0 {
          txns := txns + [t];
          SumConcat(DayParts(c, all[..i], date), parts, PartAmount());
          total := total + amount;
          order, sums := AddParts(DayParts(c, all[..i], date), parts, order, sums);
        }
      }
    }
    WholeTake(all);
    DayPanelAgrees(ledger, date);
    rows := RowsFrom(DayParts(c, all, date), order, sums);
  }

  lemma NothingSpent(c: Context, all: seq<Transaction>, date: Date)
    ensures Tallied(DayParts(c, all[..0], date), PartKey(), PartAmount(), [], map[])
    ensures Filter(all[..0], SpentOn(c, date)) == [] && Sum(DayParts(c, all[..0], date), PartAmount()) == 0
  {
    TallyNothing(PartKey(), PartAmount());
  }

  /** The day panel and the calendar cell never disagree, and the panel's envelopes add up to both. */
  lemma {:induction false} DayPanelAgrees(ledger: Ledger, date: Date)
    ensures var parts := DayParts(ContextOf(ledger), ledger.transactions, date);
      Sum(parts, PartAmount()) == DaySpending(ledger, date) &&
        Sum(ReportOf(parts), RowAmount()) == DaySpending(ledger, date)
  {
    var c, txns := ContextOf(ledger), ledger.transactions;
    var parts := DayParts(c, txns, date);
    var spent := Filter(txns, SpentOn(c, date));
    hide ReportOf, ExpenseByDimension, Spending, ContextOf;
    forall t | t in spent ensures Sum(PartsFor(c, ByEnvelope)(t), PartAmount()) == Spending(c)(t)
    { PartsAddUp(c, t, ByEnvelope); }
    hide Sum, Filter;
    FlatSum(spent, PartsFor(c, ByEnvelope), PartAmount(), Spending(c));
    DisjointSum(txns, OnDate(date), SpentOn(c, date), IdleOn(c, date), Spending(c));
    forall t | t in Filter(txns, IdleOn(c, date)) ensures Spending(c)(t) == 0
    { FilterMember(txns, IdleOn(c, date), t); }
    SumZero(Filter(txns, IdleOn(c, date)), Spending(c));
    ReportSum(parts);
  }

  function IdleOn(c: Context, date: Date): Transaction -> bool {
    (t: Transaction) => t.date == date && Spending(c)(t) == 0
  }

  lemma ReportSum(parts: seq<Part>)
    ensures Sum(ReportOf(parts), RowAmount()) == Sum(parts, PartAmount())
  {
    RowsMean(FirstSeen(parts, PartKey()), TotalAt(parts, PartKey(), PartAmount()), Sum(parts, PartAmount()));
    PartitionSum(parts, PartKey(), PartAmount());
    hide RowsOf, FirstSeen, TotalAt, Sum;
  }
}
