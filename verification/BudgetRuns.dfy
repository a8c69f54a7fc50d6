/** The budget identity over whole runs of sync operations, and what a month inherits from the one before. */
module BudgetRuns {
  import opened Sequences
  import opened Tables
  import opened Ledger
  import opened WellFormedLedger
  import opened Budget
  import opened BudgetIdentity

  // ---- runs -------------------------------------------------------------------------------------

  /** References exist, and a created transaction passed the semantic rule at enqueue time. */
  ghost predicate ValidOp(l: Ledger, op: Op) {
    RefsExist(l, op) && (op.TxnCreate? ==> SemanticsValid(TxnFromCreate(op.txn)))
  }

  ghost predicate ValidRun(l: Ledger, ops: seq<Op>)
    decreases |ops|
  {
    ops == [] || (ValidOp(l, ops[0]) && ValidRun(ApplyOp(l, ops[0]), ops[1..]))
  }

  /** The envelopes an operation removes. */
  function RemovedEnvelopes(l: Ledger, op: Op): set<Id> {
    match op
    case EnvelopeDelete(id) => {id}
    case GroupDelete(id) => EnvelopesOfGroup(l, id)
    case _ => {}
  }

  /** Some items of the split would go and some would stay. */
  predicate StripsPart(t: Transaction, ids: set<Id>) {
    (exists i :: i in t.items && i.envelopeId in ids) && (exists i :: i in t.items && i.envelopeId !in ids)
  }

  predicate LeavesSplits(l: Ledger, op: Op) {
    forall t :: t in l.transactions ==> !StripsPart(t, RemovedEnvelopes(l, op))
  }

  predicate WholeSplitsRun(l: Ledger, ops: seq<Op>)
    decreases |ops|
  {
    ops == [] || (LeavesSplits(l, ops[0]) && WholeSplitsRun(ApplyOp(l, ops[0]), ops[1..]))
  }

  /** A split adds up, and a transfer goes somewhere: what the semantic rule asks of a payload. */
  predicate RowWhole(t: Transaction) {
    (t.kind == Expense && |t.items| > 0 ==> SumItems(t.items) == t.amount) &&
      (t.kind == Transfer ==> t.toAccountId.Some?)
  }

  predicate RowsWhole(l: Ledger) { forall t :: t in l.transactions ==> RowWhole(t) }

  /** A property of rows survives an operation that accepts it row by row. */
  lemma RowsAfter(l: Ledger, op: Op, ok: Transaction -> bool)
    requires forall t :: t in l.transactions ==> ok(t)
    requires op.TxnCreate? ==> ok(TxnFromCreate(op.txn))
    requires op.TxnUpdate? ==> forall t :: t in l.transactions ==> ok(UpdateTxn(op.txn)(t))
    requires forall t :: t in l.transactions ==> ok(ClearTxn(RemovedEnvelopes(l, op))(t))
    requires op.CategoryMerge? ==> forall t :: t in l.transactions ==> ok(Recategorise(op.fromId, op.intoId)(t))
    requires op.PlaceMerge? ==> forall t :: t in l.transactions ==> ok(Replace(op.fromId, op.intoId)(t))
    ensures forall t :: t in ApplyOp(l, op).transactions ==> ok(t)
  {
    hide TxnFromCreate, UpdateTxn, ClearTxn, Recategorise, Replace;
    match op
    case TxnUpdate(p) => UpdateElements(l.transactions, TxnId, p.id, UpdateTxn(p));
    case EnvelopeDelete(id) => MapElements(l.transactions, ClearTxn({id}));
    case GroupDelete(id) => MapElements(l.transactions, ClearTxn(EnvelopesOfGroup(l, id)));
    case CategoryMerge(fromId, intoId) => MapElements(l.transactions, Recategorise(fromId, intoId));
    case PlaceMerge(fromId, intoId) => MapElements(l.transactions, Replace(fromId, intoId));
    case _ =>
  }

  lemma ValidRow(t: Transaction)
    requires SemanticsValid(t)
    ensures RowWhole(t)
  {
    assert TransferNeedsTarget !in SemanticIssues(t);
    assert ItemsDoNotAddUp !in SemanticIssues(t);
  }

  lemma UpdatedRow(t: Transaction, p: TxnFields)
    ensures RowWhole(t) ==> RowWhole(UpdateTxn(p)(t))
  {
    if SemanticsValid(TxnFromUpdate(t, p)) { ValidRow(TxnFromUpdate(t, p)); }
  }

  lemma {:induction false} RecategorisedSum(items: seq<Item>, fromId: Id, intoId: Id)
    ensures SumItems(Map(items, RecategoriseItem(fromId, intoId))) == SumItems(items)
  {
    SumMap(items, RecategoriseItem(fromId, intoId), ItemAmount, ItemAmount);
  }

  lemma ClearedRow(t: Transaction, ids: set<Id>)
    requires RowWhole(t) && !StripsPart(t, ids)
    ensures RowWhole(ClearTxn(ids)(t))
  {
    if forall i :: i in t.items ==> i.envelopeId !in ids {
      FilterAll(t.items, ItemOutside(ids));
    } else {
      FilterNone(t.items, ItemOutside(ids));
    }
  }

  lemma SplitsKept(l: Ledger, op: Op)
    requires RowsWhole(l) && ValidOp(l, op) && LeavesSplits(l, op)
    ensures RowsWhole(ApplyOp(l, op))
  {
    var ids := RemovedEnvelopes(l, op);
    if op.TxnCreate? { ValidRow(TxnFromCreate(op.txn)); }
    forall t | t in l.transactions
      ensures RowWhole(ClearTxn(ids)(t))
      ensures op.TxnUpdate? ==> RowWhole(UpdateTxn(op.txn)(t))
      ensures op.CategoryMerge? ==> RowWhole(Recategorise(op.fromId, op.intoId)(t))
    {
      ClearedRow(t, ids);
      if op.TxnUpdate? { UpdatedRow(t, op.txn); }
      if op.CategoryMerge? { RecategorisedSum(t.items, op.fromId, op.intoId); }
    }
    hide UpdateTxn, TxnFromCreate, ApplyOp, ClearTxn;
    RowsAfter(l, op, RowWhole);
  }

  lemma {:induction false} RunKeeps(l: Ledger, ops: seq<Op>)
    requires WellFormed(l) && ValidRun(l, ops)
    ensures WellFormed(Run(l, ops))
    ensures RowsWhole(l) && WholeSplitsRun(l, ops) ==> RowsWhole(Run(l, ops))
    decreases |ops|
  {
    if ops == [] {
    } else {
      OpKeepsWellFormed(l, ops[0]);
      if RowsWhole(l) && WholeSplitsRun(l, ops) { SplitsKept(l, ops[0]); }
      hide WellFormed, RowsWhole, ApplyOp, LeavesSplits, ValidOp;
      RunKeeps(ApplyOp(l, ops[0]), ops[1..]);
    }
  }

  lemma WholeRowsNoGap(l: Ledger, month: Month)
    requires RowsWhole(l)
    ensures Gap(l, month) == 0
  {
    SumZero(Filter(l.transactions, Until(month)), GapFlow(OnBudgetIds(l.accounts)));
  }

  /** Whatever the run, the two sides differ at every month by exactly the gap of the ledger reached. */
  lemma IdentityOverRuns(l: Ledger, ops: seq<Op>, month: Month)
    requires WellFormed(l) && ValidRun(l, ops)
    ensures var state := BudgetStateOf(Run(l, ops), month);
            BudgetedPlusToBeBudgeted(state) == TotalOnBudget(state) + Gap(Run(l, ops), month)
  {
    RunKeeps(l, ops);
    IdentityUpToGap(Run(l, ops), month);
  }

  /** Runs whose deletes never strip part of a split keep the budget identity at every month. */
  lemma IdentityWithoutStripping(l: Ledger, ops: seq<Op>, month: Month)
    requires WellFormed(l) && RowsWhole(l)
    requires ValidRun(l, ops) && WholeSplitsRun(l, ops)
    ensures var state := BudgetStateOf(Run(l, ops), month);
            BudgetedPlusToBeBudgeted(state) == TotalOnBudget(state)
  {
    RunKeeps(l, ops);
    WholeRowsNoGap(Run(l, ops), month);
    IdentityUpToGap(Run(l, ops), month);
  }

  // ---- what a strip costs -------------------------------------------------------------------------

  function ItemInside(ids: set<Id>): Item -> bool { (i: Item) => i.envelopeId in ids }

  /** The amount a delete of `ids` takes out of a split that keeps some items. */
  function LossOf(t: Transaction, ids: set<Id>, onBudget: set<Id>): Money {
    if t.kind == Expense && t.accountId in onBudget && StripsPart(t, ids)
    then Signed(t, SumItems(Filter(t.items, ItemInside(ids)))) else 0
  }

  function LossFlow(ids: set<Id>, onBudget: set<Id>): Transaction -> Money {
    (t: Transaction) => LossOf(t, ids, onBudget)
  }

  lemma {:induction false} ItemsSplit(items: seq<Item>, ids: set<Id>)
    ensures SumItems(items) == SumItems(Filter(items, ItemInside(ids))) + SumItems(Filter(items, ItemOutside(ids)))
  {
    if items != [] {
      var init, last := items[..|items| - 1], [items[|items| - 1]];
      ItemsSplit(init, ids);
      assert items[..|items|] == items;
      FilteredSumStep(items, |items| - 1, ItemInside(ids), ItemAmount);
      FilteredSumStep(items, |items| - 1, ItemOutside(ids), ItemAmount);
    }
  }

  lemma RowLoss(t: Transaction, ids: set<Id>, onBudget: set<Id>)
    requires RowWhole(t)
    ensures GapOf(ClearTxn(ids)(t), onBudget) == LossOf(t, ids, onBudget)
  {
    var cleared := ClearTxn(ids)(t);
    ItemsSplit(t.items, ids);
    if StripsPart(t, ids) {
      var i :| i in t.items && i.envelopeId !in ids;
      assert i in cleared.items;
    } else {
      ClearedRow(t, ids);
    }
  }

  /** A delete that strips splits breaks the identity by exactly the amounts it strips. */
  lemma StrippedAmounts(l: Ledger, ids: set<Id>, month: Month)
    requires RowsWhole(l)
    ensures Gap(DeleteEnvelopes(l, ids), month)
         == Sum(Filter(l.transactions, Until(month)), LossFlow(ids, OnBudgetIds(l.accounts)))
  {
    var onBudget := OnBudgetIds(l.accounts);
    var after := DeleteEnvelopes(l, ids);
    SameOnBudget(l.accounts, ids);
    FilterMapped(l.transactions, ClearTxn(ids), Until(month), Until(month));
    var rows := Filter(l.transactions, Until(month));
    forall t | t in rows ensures LossFlow(ids, onBudget)(t) == GapFlow(onBudget)(ClearTxn(ids)(t))
    { RowLoss(t, ids, onBudget); }
    SumMap(rows, ClearTxn(ids), GapFlow(onBudget), LossFlow(ids, onBudget));
  }

  /** Seen from before a delete: the two sides then differ by what it strips out of splits up to the month. */
  lemma IdentityAfterDelete(l: Ledger, op: Op, month: Month)
    requires WellFormed(l) && RowsWhole(l) && (op.EnvelopeDelete? || op.GroupDelete?)
    ensures var state := BudgetStateOf(ApplyOp(l, op), month);
            BudgetedPlusToBeBudgeted(state) ==
            TotalOnBudget(state) + Sum(Filter(l.transactions, Until(month)),
              LossFlow(RemovedEnvelopes(l, op), OnBudgetIds(l.accounts)))
  {
    var ids := RemovedEnvelopes(l, op);
    OpKeepsWellFormed(l, op);
    IdentityUpToGap(ApplyOp(l, op), month);
    StrippedAmounts(l, ids, month);
    SameGap(ApplyOp(l, op), DeleteEnvelopes(l, ids), month);
  }

  lemma SameGap(a: Ledger, b: Ledger, month: Month)
    requires a.transactions == b.transactions && a.accounts == b.accounts
    ensures Gap(a, month) == Gap(b, month)
  {
  }

  /** An expense of 100 split 60 and 40 between envelopes 1 and 2, on one on-budget account. */
  function SplitLedger(): Ledger {
    var account := Account(1, "", "", "", "", true, 0, false, 0, None);
    var first := Envelope(1, 1, "", "", "", None, None, false, 0, false);
    var items := [Item(LocalItem(1, 0), 1, None, 60), Item(LocalItem(1, 1), 2, None, 40)];
    var t := Transaction(
      1, Expense, 1, None, 100, Date(0, 1), false, None, None, None, None, None, None, None, None, None, items, "");
    Ledger([account], [Group(1, "", 0)], [first, first.(id := 2)], [t], [], [], [], [])
  }

  lemma SplitLedgerWellFormed()
    ensures var l := SplitLedger();
            WellFormed(l) && RowsWhole(l) && OnBudgetIds(l.accounts) == {1}
    ensures ValidOp(SplitLedger(), EnvelopeDelete(1)) && RemovedEnvelopes(SplitLedger(), EnvelopeDelete(1)) == {1}
  {
    var l := SplitLedger();
    var items := l.transactions[0].items;
    assert l.accounts[0].id == 1 && l.groups[0].id == 1 && l.envelopes[0].id == 1 && l.envelopes[1].id == 2;
    SumOne(items[0], ItemAmount);
    assert items[..1] == [items[0]] && SumItems(items) == 100;
    assert forall i :: i in items ==> i == items[0] || i == items[1];
  }

  /**
   * Deleting one envelope of a split does break the identity: sixty left the account that no envelope shows as
   * spent.
   */
  lemma StrippingBreaksTheIdentity()
    ensures var l := SplitLedger();
            WellFormed(l) && RowsWhole(l) && ValidOp(l, EnvelopeDelete(1)) &&
            var state := BudgetStateOf(ApplyOp(l, EnvelopeDelete(1)), 0);
            BudgetedPlusToBeBudgeted(state) == TotalOnBudget(state) + 60
  {
    hide *;
    SplitLedgerWellFormed();
    SplitLoss();
    IdentityAfterDelete(SplitLedger(), EnvelopeDelete(1), 0);
  }

  lemma TwoItemLoss(t: Transaction, a: Item, b: Item, ids: set<Id>, onBudget: set<Id>)
    requires t.kind == Expense && !t.isRefund && t.accountId in onBudget && t.items == [a] + [b]
    requires a.envelopeId in ids && b.envelopeId !in ids
    ensures LossOf(t, ids, onBudget) == a.amount
  {
    assert t.items[0] == a && t.items[1] == b;
    FilterAll([a], ItemInside(ids));
    FilterOneMore([a], b, ItemInside(ids));
    SumOne(a, ItemAmount);
  }

  lemma OneRowSum(t: Transaction, month: Month, f: Transaction -> Money)
    requires t.date.month <= month
    ensures Sum(Filter([t], Until(month)), f) == f(t)
  {
    FilterAll([t], Until(month));
    SumOne(t, f);
  }

  lemma SplitLoss()
    ensures Sum(Filter(SplitLedger().transactions, Until(0)), LossFlow({1}, {1})) == 60
  {
    var t := SplitLedger().transactions[0];
    assert t.items == [t.items[0]] + [t.items[1]];
    hide Sum, Filter, StripsPart, LossOf;
    TwoItemLoss(t, t.items[0], t.items[1], {1}, {1});
    OneRowSum(t, 0, LossFlow({1}, {1}));
  }

  lemma SameOnBudget(accounts: seq<Account>, ids: set<Id>)
    ensures OnBudgetIds(Map(accounts, ClearAccount(ids))) == OnBudgetIds(accounts)
  {
    var after := Map(accounts, ClearAccount(ids));
    forall i | 0 <= i < |accounts| ensures after[i].id == accounts[i].id && after[i].onBudget == accounts[i].onBudget {}
  }

  // ---- from month to month ------------------------------------------------------------------------

  /** The carry-in of a month is what the month before had available, computed on its own. */
  lemma CarryInIsPreviousAvailable(l: Ledger, month: Month, e: Envelope)
    ensures EnvelopeStateOf(l, month)(e).carryIn == EnvelopeStateOf(l, month - 1)(e).available
  {
    hide Sum, Filter;
    var onBudget := OnBudgetIds(l.accounts);
    DisjointSum(l.allocations, AllocatedUntil(month), AllocatedUntil(month - 1), AllocatedIn(month), ManualFlow(e.id));
    DisjointSum(l.transactions, Until(month), Until(month - 1), InMonth(month), AutomaticFlow(e.id));
    DisjointSum(l.transactions, Until(month), Until(month - 1), InMonth(month), SpentFlow(e.id, onBudget));
  }

  /** Once nothing lies beyond the month, the month's figure and the headline are the same. */
  lemma ReadyToAssignIsToBeBudgeted(l: Ledger, month: Month)
    requires forall a :: a in l.allocations ==> a.month <= month
    requires forall t :: t in l.transactions ==> t.date.month <= month
    ensures BudgetStateOf(l, month).readyToAssign == BudgetStateOf(l, month).toBeBudgeted
  {
    FilterAll(l.allocations, AllocatedUntil(month));
    FilterAll(l.transactions, Until(month));
  }

  // ---- setting a displayed total ------------------------------------------------------------------

  method AutomaticAllocatedForEnvelopeMonth(txns: seq<Transaction>, envelopeId: Id, month: Month) returns (total: Money)
    ensures total == Sum(Filter(txns, InMonth(month)), AutomaticFlow(envelopeId))
  {
    total := 0;
    for i := 0 to |txns|
      invariant total == Sum(Filter(txns[..i], InMonth(month)), AutomaticFlow(envelopeId))
    {
      FilteredSumStep(txns, i, InMonth(month), AutomaticFlow(envelopeId));
      if txns[i].date.month == month {
        var deltas := AllocationDeltas(txns[i]);
        ghost var before := total;
        for j := 0 to |deltas|
          invariant total == before + PairSum(deltas[..j], envelopeId)
        {
          SumStep(deltas, j, PairAmount(envelopeId));
          if deltas[j].0 == envelopeId { total := total + deltas[j].1; }
        }
        assert deltas[..|deltas|] == deltas;
      }
    }
    assert txns[..|txns|] == txns;
  }

  /** The manual allocation to store so that the month shows `displayed`. */
  function ManualForDisplayed(txns: seq<Transaction>, envelopeId: Id, month: Month, displayed: Money): Money {
    displayed - Sum(Filter(txns, InMonth(month)), AutomaticFlow(envelopeId))
  }

  lemma NoneOfKey(rows: seq<Allocation>, envelopeId: Id, month: Month)
    requires forall a :: a in rows ==> AllocationKey(a) != (envelopeId, month)
    ensures Sum(Filter(rows, AllocatedIn(month)), ManualFlow(envelopeId)) == 0
  {
    SumZero(Filter(rows, AllocatedIn(month)), ManualFlow(envelopeId));
  }

  lemma ManualAmount(rows: seq<Allocation>, i: nat)
    requires Distinct(rows, AllocationKey) && i < |rows|
    ensures Sum(Filter(rows, AllocatedIn(rows[i].month)), ManualFlow(rows[i].envelopeId)) == rows[i].amount
  {
    hide Sum, Filter;
    var row := rows[i];
    var p, f := AllocatedIn(row.month), ManualFlow(row.envelopeId);
    var before, after := rows[..i], rows[i + 1..];
    forall j | 0 <= j < |after| ensures AllocationKey(after[j]) != AllocationKey(row)
    { assert after[j] == rows[i + 1 + j]; }
    NoneOfKey(before, row.envelopeId, row.month);
    NoneOfKey(after, row.envelopeId, row.month);
    FilteredSumStep(rows, i, p, f);
    assert rows == rows[..i + 1] + after;
    FilterConcat(rows[..i + 1], after, p);
    SumConcat(Filter(rows[..i + 1], p), Filter(after, p), f);
  }

  /** Storing the computed manual allocation makes the month show the total the user typed. */
  lemma DisplayedTotalRoundTrip(l: Ledger, e: Envelope, month: Month, displayed: Money)
    requires WellFormed(l) && e in l.envelopes
    ensures var after := ApplyOp(l, AllocSet(e.id, month, ManualForDisplayed(l.transactions, e.id, month, displayed)));
            EnvelopeStateOf(after, month)(e).funded == displayed
  {
    hide Sum, Filter, Distinct, Resolved, SetAllocation;
    var amount := ManualForDisplayed(l.transactions, e.id, month, displayed);
    var after := SetAllocation(l, e.id, month, amount);
    var at :| 0 <= at < |l.envelopes| && l.envelopes[at] == e;
    assert EnvelopeId(l.envelopes[at]) == e.id;
    assert HasKey(l.envelopes, EnvelopeId, e.id);
    SetAllocationKeeps(l, e.id, month, amount);
    SetRow(l, e.id, month, amount);
    var i :| 0 <= i < |after| && AllocationKey(after[i]) == (e.id, month) && after[i].amount == amount;
    ManualAmount(after, i);
  }

  lemma SetRow(l: Ledger, envelopeId: Id, month: Month, amount: Money)
    ensures var after := SetAllocation(l, envelopeId, month, amount);
            exists i :: 0 <= i < |after| && AllocationKey(after[i]) == (envelopeId, month) && after[i].amount == amount
  {
    var after := SetAllocation(l, envelopeId, month, amount);
    if HasKey(l.allocations, AllocationKey, (envelopeId, month)) {
      var i := FindKey(l.allocations, AllocationKey, (envelopeId, month));
      assert after[i].amount == amount;
    } else {
      assert after[|l.allocations|].amount == amount;
    }
  }
}
