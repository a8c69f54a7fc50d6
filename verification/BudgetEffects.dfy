// What the figures of a budget consist of, row by row.
//
// A ledger without transactions and allocations shows the initial balances; one more allocation, or
// one more transaction, then changes each account, each envelope and each total by an amount read off
// that row alone. Every state follows by adding the rows of the ledger one after another.
module BudgetEffects {
  import opened Sequences
  import opened Tables
  import opened Ledger
  import opened Budget
  import opened BudgetIdentity

  predicate OnBudget(l: Ledger, id: Id) {
    exists i :: 0 <= i < |l.accounts| && l.accounts[i].id == id && l.accounts[i].onBudget
  }

  /** A refund counts against an expense. */
  function Outlay(t: Transaction, amount: Money): Money { amount * (if t.isRefund then -1 else 1) }

  /** The signed amount an expense takes out of an envelope: its items there, or all of it when it is not split. */
  function TakenFrom(t: Transaction, e: Id): Money {
    if t.items != [] then Outlay(t, Sum(Filter(t.items, (i: Item) => i.envelopeId == e), (i: Item) => i.amount))
    else if t.envelopeId == Some(e) then Outlay(t, t.amount) else 0
  }

  /** What a transaction moves into an envelope without spending: the target gains what the source loses. */
  function RoutedTo(t: Transaction, e: Id): Money {
    (if t.allocationTo == Some(e) then t.amount else 0) - (if t.allocationFrom == Some(e) then t.amount else 0)
  }

  /** What a transaction spends from an envelope; income booked on the envelope is negative spending. */
  function SpentOn(l: Ledger, t: Transaction, e: Id): Money {
    if !OnBudget(l, t.accountId) then 0
    else
      match t.kind
      case Expense => TakenFrom(t, e)
      case Income => if t.envelopeId == Some(e) then -t.amount else 0
      case Transfer => 0
  }

  /** What a transaction adds to the balance of an account. */
  function Deposited(t: Transaction, a: Id): Money {
    match t.kind
    case Expense => if t.accountId == a then -Outlay(t, t.amount) else 0
    case Income => if t.accountId == a then t.amount else 0
    case Transfer =>
      (if t.toAccountId == Some(a) then t.amount else 0) - (if t.accountId == a then t.amount else 0)
  }

  /** What a transaction adds to the money left to budget. */
  function LeftOver(l: Ledger, t: Transaction): Money {
    var routed := (if t.allocationTo.Some? then t.amount else 0) - (if t.allocationFrom.Some? then t.amount else 0);
    var own := OnBudget(l, t.accountId);
    -routed +
    match t.kind
    case Income => if own && t.envelopeId == None then t.amount else 0
    case Expense => if own && t.envelopeId == None && t.items == [] then -Outlay(t, t.amount) else 0
    case Transfer =>
      if t.toAccountId == None || OnBudget(l, t.toAccountId.value) == own then 0
      else if own then -t.amount else t.amount
  }

  function Booked(l: Ledger, t: Transaction): Ledger { l.(transactions := l.transactions + [t]) }

  function When(c: bool, amount: Money): Money { if c then amount else 0 }

  /** Every figure of the month grows by the transaction's own effect, if its date has come. */
  predicate TransactionShown(l: Ledger, t: Transaction, m: Month, s: BudgetState, r: BudgetState) {
    && r.month == s.month && r.groups == s.groups
    && AccountsShown(t, m, s.accounts, r.accounts) && EnvelopesShown(l, t, m, s.envelopes, r.envelopes)
    && TotalsShown(l, t, m, s, r)
  }

  predicate AccountsShown(t: Transaction, m: Month, s: seq<AccountState>, r: seq<AccountState>) {
    |r| == |s| && forall i :: 0 <= i < |s| ==> AccountShown(t, m, s[i], r[i])
  }

  predicate AccountShown(t: Transaction, m: Month, a: AccountState, b: AccountState) {
    b == a.(balance := a.balance + When(t.date.month <= m, Deposited(t, a.account.id)))
  }

  predicate EnvelopesShown(l: Ledger, t: Transaction, m: Month, s: seq<EnvelopeState>, r: seq<EnvelopeState>) {
    |r| == |s| && forall i :: 0 <= i < |s| ==> EnvelopeShown(l, t, m, s[i], r[i])
  }

  predicate EnvelopeShown(l: Ledger, t: Transaction, m: Month, e: EnvelopeState, f: EnvelopeState) {
    var routed, spent := RoutedTo(t, e.envelope.id), SpentOn(l, t, e.envelope.id);
    f == e.(
      carryIn := e.carryIn + When(t.date.month < m, routed - spent),
      funded := e.funded + When(t.date.month == m, routed),
      spent := e.spent + When(t.date.month == m, spent),
      available := e.available + When(t.date.month <= m, routed - spent))
  }

  predicate TotalsShown(l: Ledger, t: Transaction, m: Month, s: BudgetState, r: BudgetState) {
    && r.toBeBudgeted == s.toBeBudgeted + When(t.date.month <= m, LeftOver(l, t))
    && r.readyToAssign == s.readyToAssign + LeftOver(l, t)
    && r.monthIncome == s.monthIncome +
      When(t.date.month == m && t.kind == Income && OnBudget(l, t.accountId), t.amount)
    && r.monthExpense == s.monthExpense +
      When(t.date.month == m && t.kind == Expense && OnBudget(l, t.accountId), Outlay(t, t.amount))
  }

  /** The same for an allocation: its envelope gains what the money left to budget loses. */
  predicate AllocationShown(a: Allocation, m: Month, s: BudgetState, r: BudgetState) {
    && AllocatedShown(a, m, s.envelopes, r.envelopes)
    && r == s.(envelopes := r.envelopes, toBeBudgeted := s.toBeBudgeted - When(a.month <= m, a.amount),
               readyToAssign := s.readyToAssign - a.amount)
  }

  predicate AllocatedShown(a: Allocation, m: Month, s: seq<EnvelopeState>, r: seq<EnvelopeState>) {
    |r| == |s| && forall i :: 0 <= i < |s| ==> AllocatedRow(a, m, s[i], r[i])
  }

  predicate AllocatedRow(a: Allocation, m: Month, e: EnvelopeState, f: EnvelopeState) {
    var given := if e.envelope.id == a.envelopeId then a.amount else 0;
    f == e.(
      carryIn := e.carryIn + When(a.month < m, given),
      funded := e.funded + When(a.month == m, given),
      available := e.available + When(a.month <= m, given))
  }

  // ---- the effect of one transaction --------------------------------------------------------------

  lemma OnBudgetMeans(l: Ledger, id: Id)
    ensures id in OnBudgetIds(l.accounts) <==> OnBudget(l, id)
  {
  }

  lemma {:induction false} ItemsTaken(items: seq<Item>, isRefund: bool, e: Id)
    ensures PairSum(Map(items, ItemPair(isRefund)), e) ==
      Sum(Filter(items, (i: Item) => i.envelopeId == e), (i: Item) => i.amount) * (if isRefund then -1 else 1)
  {
    var inE, amount := (i: Item) => i.envelopeId == e, (i: Item) => i.amount;
    if items != [] {
      var n := |items| - 1;
      ItemsTaken(items[..n], isRefund, e);
      LastSplit(items);
      var x := items[n];
      assert Map(items, ItemPair(isRefund)) == Map(items[..n], ItemPair(isRefund)) + [ItemPair(isRefund)(x)];
      SumOneMore(Map(items[..n], ItemPair(isRefund)), ItemPair(isRefund)(x), PairAmount(e));
      FilterOneMore(items[..n], x, inE);
      hide Filter;
      if inE(x) { SumOneMore(Filter(items[..n], inE), x, amount); }
    }
  }

  lemma PairSums(id: Id, p: Pair, q: Pair)
    ensures PairSum([], id) == 0
    ensures PairSum([p], id) == When(p.0 == id, p.1)
    ensures PairSum([p, q], id) == When(p.0 == id, p.1) + When(q.0 == id, q.1)
    ensures PairTotal([]) == 0 && PairTotal([p]) == p.1 && PairTotal([p, q]) == p.1 + q.1
  {
    SumOne(p, PairAmount(id));
    SumTwo(p, q, PairAmount(id));
    SumOne(p, AmountOf());
    SumTwo(p, q, AmountOf());
  }

  lemma RoutedIsFlow(t: Transaction, e: Id)
    ensures AutomaticFlow(e)(t) == RoutedTo(t, e)
    ensures PairTotal(AllocationDeltas(t)) ==
      (if t.allocationTo.Some? then t.amount else 0) - (if t.allocationFrom.Some? then t.amount else 0)
  {
    hide PairSum, PairTotal;
    var source, target := t.allocationFrom, t.allocationTo;
    var lost: Pair := (if source.Some? then source.value else 0, -t.amount);
    var gained: Pair := (if target.Some? then target.value else 0, t.amount);
    PairSums(e, lost, gained);
    PairSums(e, gained, lost);
  }

  lemma DepositedIsFlow(t: Transaction, a: Id)
    ensures AccountFlow(a)(t) == Deposited(t, a)
  {
    hide PairSum;
    var target := if t.toAccountId.Some? then t.toAccountId.value else 0;
    PairSums(a, (t.accountId, -t.amount), (target, t.amount));
    PairSums(a, (t.accountId, -Signed(t, t.amount)), (t.accountId, t.amount));
    PairSums(a, (t.accountId, t.amount), (t.accountId, t.amount));
  }

  lemma SpentIsFlow(l: Ledger, t: Transaction, e: Id)
    ensures SpentFlow(e, OnBudgetIds(l.accounts))(t) == SpentOn(l, t, e)
  {
    OnBudgetMeans(l, t.accountId);
    ItemsTaken(t.items, t.isRefund, e);
    hide PairSum, Filter, Sum, OnBudget, OnBudgetIds;
    var own := if t.envelopeId.Some? then t.envelopeId.value else 0;
    PairSums(e, (own, -t.amount), (own, Signed(t, t.amount)));
    PairSums(e, (own, Signed(t, t.amount)), (own, -t.amount));
  }

  lemma LeftOverIsFlow(l: Ledger, t: Transaction)
    ensures UnassignedFlow(OnBudgetIds(l.accounts))(t) == LeftOver(l, t)
  {
    OnBudgetMeans(l, t.accountId);
    if t.toAccountId.Some? { OnBudgetMeans(l, t.toAccountId.value); }
    RoutedIsFlow(t, 0);
    hide PairTotal, OnBudget, OnBudgetIds, AllocationDeltas;
  }

  lemma OneMoreSum<X>(xs: seq<X>, x: X, p: X -> bool, f: X -> int)
    ensures Sum(Filter(xs + [x], p), f) == Sum(Filter(xs, p), f) + When(p(x), f(x))
  {
    FilterOneMore(xs, x, p);
    hide Filter;
    if p(x) { SumOneMore(Filter(xs, p), x, f); }
  }

  lemma AccountShows(l: Ledger, t: Transaction, m: Month, a: Account)
    ensures AccountShown(t, m, AccountStateOf(l, m)(a), AccountStateOf(Booked(l, t), m)(a))
  {
    OneMoreSum(l.transactions, t, Until(m), AccountFlow(a.id));
    DepositedIsFlow(t, a.id);
    hide Filter, Sum, Deposited, AccountFlow;
  }

  lemma EnvelopeShows(l: Ledger, t: Transaction, m: Month, e: Envelope)
    ensures EnvelopeShown(l, t, m, EnvelopeStateOf(l, m)(e), EnvelopeStateOf(Booked(l, t), m)(e))
  {
    var onBudget := OnBudgetIds(l.accounts);
    OneMoreSum(l.transactions, t, Until(m), AutomaticFlow(e.id));
    OneMoreSum(l.transactions, t, InMonth(m), AutomaticFlow(e.id));
    OneMoreSum(l.transactions, t, Until(m), SpentFlow(e.id, onBudget));
    OneMoreSum(l.transactions, t, InMonth(m), SpentFlow(e.id, onBudget));
    RoutedIsFlow(t, e.id);
    SpentIsFlow(l, t, e.id);
    hide Filter, Sum, AutomaticFlow, SpentFlow, RoutedTo, SpentOn, OnBudgetIds, AllocatedUntil, AllocatedIn, ManualFlow;
  }

  lemma UnassignedShows(l: Ledger, t: Transaction, m: Month, allocations: seq<Allocation>)
    ensures Unassigned(l.accounts, allocations, Filter(l.transactions + [t], Until(m)), OnBudgetIds(l.accounts))
         == Unassigned(l.accounts, allocations, Filter(l.transactions, Until(m)), OnBudgetIds(l.accounts)) +
            When(t.date.month <= m, LeftOver(l, t))
    ensures Unassigned(l.accounts, allocations, l.transactions + [t], OnBudgetIds(l.accounts))
         == Unassigned(l.accounts, allocations, l.transactions, OnBudgetIds(l.accounts)) + LeftOver(l, t)
  {
    OneMoreSum(l.transactions, t, Until(m), UnassignedFlow(OnBudgetIds(l.accounts)));
    SumOneMore(l.transactions, t, UnassignedFlow(OnBudgetIds(l.accounts)));
    LeftOverIsFlow(l, t);
    hide Sum, Filter, LeftOver, UnassignedFlow, OnBudgetIds, IsOnBudget, InitialOf, AllocatedAmount;
  }

  lemma MonthShows(l: Ledger, t: Transaction, m: Month)
    ensures Sum(Filter(l.transactions + [t], InMonth(m)), IncomeFlow(OnBudgetIds(l.accounts)))
         == Sum(Filter(l.transactions, InMonth(m)), IncomeFlow(OnBudgetIds(l.accounts))) +
            When(t.date.month == m && t.kind == Income && OnBudget(l, t.accountId), t.amount)
    ensures Sum(Filter(l.transactions + [t], InMonth(m)), ExpenseFlow(OnBudgetIds(l.accounts)))
         == Sum(Filter(l.transactions, InMonth(m)), ExpenseFlow(OnBudgetIds(l.accounts))) +
            When(t.date.month == m && t.kind == Expense && OnBudget(l, t.accountId), Outlay(t, t.amount))
  {
    OneMoreSum(l.transactions, t, InMonth(m), IncomeFlow(OnBudgetIds(l.accounts)));
    OneMoreSum(l.transactions, t, InMonth(m), ExpenseFlow(OnBudgetIds(l.accounts)));
    OnBudgetMeans(l, t.accountId);
    hide Sum, Filter, OnBudget, OnBudgetIds;
  }

  lemma FiguresOf(l: Ledger, m: Month, s: BudgetState)
    requires s == BudgetStateOf(l, m)
    ensures |s.accounts| == |l.accounts| && |s.envelopes| == |l.envelopes| && s.groups == l.groups && s.month == m
    ensures forall i :: 0 <= i < |s.accounts| ==> s.accounts[i] == AccountStateOf(l, m)(l.accounts[i])
    ensures forall i :: 0 <= i < |s.envelopes| ==> s.envelopes[i] == EnvelopeStateOf(l, m)(l.envelopes[i])
    ensures s.toBeBudgeted == Unassigned(l.accounts, Filter(l.allocations, AllocatedUntil(m)),
      Filter(l.transactions, Until(m)), OnBudgetIds(l.accounts))
    ensures s.readyToAssign == Unassigned(l.accounts, l.allocations, l.transactions, OnBudgetIds(l.accounts))
    ensures s.monthIncome == Sum(Filter(l.transactions, InMonth(m)), IncomeFlow(OnBudgetIds(l.accounts)))
    ensures s.monthExpense == Sum(Filter(l.transactions, InMonth(m)), ExpenseFlow(OnBudgetIds(l.accounts)))
  {
    hide AccountStateOf, EnvelopeStateOf, Unassigned, Filter, Sum, OnBudgetIds, AllocatedUntil, Until, InMonth;
  }

  lemma BookedIs(l: Ledger, t: Transaction)
    ensures Booked(l, t) == l.(transactions := l.transactions + [t])
  {
  }

  lemma TotalsFacts(l: Ledger, t: Transaction, m: Month, s: BudgetState, r: BudgetState)
    requires s == BudgetStateOf(l, m) && r == BudgetStateOf(Booked(l, t), m)
    ensures r.toBeBudgeted == s.toBeBudgeted + When(t.date.month <= m, LeftOver(l, t))
    ensures r.readyToAssign == s.readyToAssign + LeftOver(l, t)
    ensures r.monthIncome == s.monthIncome +
      When(t.date.month == m && t.kind == Income && OnBudget(l, t.accountId), t.amount)
    ensures r.monthExpense == s.monthExpense +
      When(t.date.month == m && t.kind == Expense && OnBudget(l, t.accountId), Outlay(t, t.amount))
  {
    hide *;
    BookedIs(l, t);
    FiguresOf(l, m, s);
    FiguresOf(Booked(l, t), m, r);
    UnassignedShows(l, t, m, Filter(l.allocations, AllocatedUntil(m)));
    UnassignedShows(l, t, m, l.allocations);
    MonthShows(l, t, m);
  }

  lemma TotalsShow(l: Ledger, t: Transaction, m: Month)
    ensures TotalsShown(l, t, m, BudgetStateOf(l, m), BudgetStateOf(Booked(l, t), m))
  {
    hide BudgetStateOf, Booked, When, LeftOver, OnBudget, Outlay;
    TotalsFacts(l, t, m, BudgetStateOf(l, m), BudgetStateOf(Booked(l, t), m));
  }

  /** One more transaction changes every figure of every month by its own effect, and nothing else. */
  lemma TransactionShows(l: Ledger, t: Transaction, m: Month)
    ensures TransactionShown(l, t, m, BudgetStateOf(l, m), BudgetStateOf(Booked(l, t), m))
  {
    hide BudgetStateOf, Booked, AccountStateOf, EnvelopeStateOf, AccountShown, EnvelopeShown, TotalsShown;
    hide Unassigned, Filter, Sum, OnBudgetIds;
    var s, r := BudgetStateOf(l, m), BudgetStateOf(Booked(l, t), m);
    BookedIs(l, t);
    FiguresOf(l, m, s);
    FiguresOf(Booked(l, t), m, r);
    TotalsShow(l, t, m);
    forall i | 0 <= i < |s.accounts| ensures AccountShown(t, m, s.accounts[i], r.accounts[i]) {
      AccountShows(l, t, m, l.accounts[i]);
    }
    forall i | 0 <= i < |s.envelopes| ensures EnvelopeShown(l, t, m, s.envelopes[i], r.envelopes[i]) {
      EnvelopeShows(l, t, m, l.envelopes[i]);
    }
  }

  // ---- the effect of one allocation ---------------------------------------------------------------

  function Allocated(l: Ledger, a: Allocation): Ledger { l.(allocations := l.allocations + [a]) }

  lemma AllocatedIs(l: Ledger, a: Allocation)
    ensures Allocated(l, a) == l.(allocations := l.allocations + [a])
  {
  }

  lemma AllocatedRowShows(l: Ledger, a: Allocation, m: Month, e: Envelope)
    ensures AllocatedRow(a, m, EnvelopeStateOf(l, m)(e), EnvelopeStateOf(Allocated(l, a), m)(e))
  {
    OneMoreSum(l.allocations, a, AllocatedUntil(m), ManualFlow(e.id));
    OneMoreSum(l.allocations, a, AllocatedIn(m), ManualFlow(e.id));
    hide Filter, Sum, OnBudgetIds, SpentFlow, AutomaticFlow, Until, InMonth;
  }

  lemma AccountStands(l: Ledger, a: Allocation, m: Month, account: Account)
    ensures AccountStateOf(Allocated(l, a), m)(account) == AccountStateOf(l, m)(account)
  {
  }

  lemma AllocatedTotals(l: Ledger, a: Allocation, m: Month, txns: seq<Transaction>)
    ensures Unassigned(l.accounts, Filter(l.allocations + [a], AllocatedUntil(m)), txns, OnBudgetIds(l.accounts))
         == Unassigned(l.accounts, Filter(l.allocations, AllocatedUntil(m)), txns, OnBudgetIds(l.accounts)) -
            When(a.month <= m, a.amount)
    ensures Unassigned(l.accounts, l.allocations + [a], txns, OnBudgetIds(l.accounts))
         == Unassigned(l.accounts, l.allocations, txns, OnBudgetIds(l.accounts)) - a.amount
  {
    OneMoreSum(l.allocations, a, AllocatedUntil(m), AllocatedAmount());
    SumOneMore(l.allocations, a, AllocatedAmount());
    hide Filter, Sum, OnBudgetIds, UnassignedFlow, IsOnBudget, InitialOf;
  }

  lemma AllocationShows(l: Ledger, a: Allocation, m: Month)
    ensures AllocationShown(a, m, BudgetStateOf(l, m), BudgetStateOf(Allocated(l, a), m))
  {
    hide BudgetStateOf, Allocated, AccountStateOf, EnvelopeStateOf, AllocatedRow, Unassigned, Filter, Sum, OnBudgetIds;
    var s, r := BudgetStateOf(l, m), BudgetStateOf(Allocated(l, a), m);
    AllocatedIs(l, a);
    FiguresOf(l, m, s);
    FiguresOf(Allocated(l, a), m, r);
    AllocatedTotals(l, a, m, Filter(l.transactions, Until(m)));
    AllocatedTotals(l, a, m, l.transactions);
    forall i | 0 <= i < |s.accounts| ensures r.accounts[i] == s.accounts[i] { AccountStands(l, a, m, l.accounts[i]); }
    assert r.accounts == s.accounts;
    forall i | 0 <= i < |s.envelopes| ensures AllocatedRow(a, m, s.envelopes[i], r.envelopes[i]) {
      AllocatedRowShows(l, a, m, l.envelopes[i]);
    }
  }

  /**
   * Nothing booked, nothing allocated: accounts at their initial balance, of which the on-budget ones are to be
   * budgeted.
   */
  lemma NothingShown(l: Ledger, m: Month)
    requires l.transactions == [] && l.allocations == [] && Distinct(l.accounts, AccountId)
    ensures var s := BudgetStateOf(l, m);
      var initial := Sum(Filter(l.accounts, (a: Account) => a.onBudget), (a: Account) => a.initialBalance);
      && s.month == m && s.groups == l.groups && |s.accounts| == |l.accounts| && |s.envelopes| == |l.envelopes|
      && (forall i :: 0 <= i < |l.accounts| ==>
        s.accounts[i] == AccountState(l.accounts[i], l.accounts[i].initialBalance))
      && (forall i :: 0 <= i < |l.envelopes| ==> s.envelopes[i] == EnvelopeState(l.envelopes[i], 0, 0, 0, 0))
      && s.toBeBudgeted == initial && s.readyToAssign == initial && s.monthIncome == 0 && s.monthExpense == 0
  {
    forall i | 0 <= i < |l.accounts|
      ensures InitialBalance(l.accounts, l.accounts[i].id) == l.accounts[i].initialBalance
    {
      InitialIsOwn(l.accounts, l.accounts[i]);
    }
    FilterAgrees(l.accounts, IsOnBudget(), (a: Account) => a.onBudget);
    SumEqual(Filter(l.accounts, IsOnBudget()), InitialOf(), (a: Account) => a.initialBalance);
    hide InitialBalance;
  }
}
