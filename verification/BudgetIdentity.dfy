// The budget identity: money in envelopes plus money left to budget is the money in the on-budget
// accounts, at every month of every reachable ledger, up to what is missing from stripped splits.
module BudgetIdentity {
  import opened Sequences
  import opened Tables
  import opened Ledger
  import opened WellFormedLedger
  import opened Budget

  // ---- exchanging sums --------------------------------------------------------------------------

  function Row<A, B>(f: (A, B) -> int, a: A): B -> int { (b: B) => f(a, b) }
  function Column<A, B>(f: (A, B) -> int, b: B): A -> int { (a: A) => f(a, b) }
  function RowSums<A, B>(f: (A, B) -> int, bs: seq<B>): A -> int { (a: A) => Sum(bs, Row(f, a)) }
  function ColumnSums<A, B>(f: (A, B) -> int, as_: seq<A>): B -> int { (b: B) => Sum(as_, Column(f, b)) }

  lemma {:induction false} SumExchange<A, B>(as_: seq<A>, bs: seq<B>, f: (A, B) -> int)
    ensures Sum(as_, RowSums(f, bs)) == Sum(bs, ColumnSums(f, as_))
  {
    if as_ == [] {
      SumZero(bs, ColumnSums(f, as_));
    } else {
      var init, a := as_[..|as_| - 1], as_[|as_| - 1];
      SumExchange(init, bs, f);
      SumOfSums(bs, ColumnSums(f, init), Row(f, a), ColumnSums(f, as_));
    }
  }

  /** The part of the pairs whose id is one of `ids`. */
  function Inside(pairs: seq<Pair>, ids: set<Id>): Money { Sum(pairs, AmountInside(ids)) }

  function AmountInside(ids: set<Id>): Pair -> Money { (p: Pair) => if p.0 in ids then p.1 else 0 }

  /** Splitting pairs over rows with distinct keys keeps exactly the pairs of those keys. */
  lemma {:induction false} PairsOverRows<T(!new)>(rows: seq<T>, key: T -> Id, pairs: seq<Pair>, f: T -> int)
    requires Distinct(rows, key)
    requires forall r :: r in rows ==> f(r) == PairSum(pairs, key(r))
    ensures Sum(rows, f) == Inside(pairs, Keys(rows, key))
  {
    if pairs == [] {
      SumZero(rows, f);
    } else {
      var init, last := pairs[..|pairs| - 1], pairs[|pairs| - 1];
      var g, h := (r: T) => PairSum(init, key(r)), (r: T) => if key(r) == last.0 then last.1 else 0;
      assert pairs == init + [last];
      PairsOverRows(rows, key, init, g);
      SumOfSums(rows, g, h, f);
      OneRow(rows, key, last, h);
    }
  }

  lemma {:induction false} AllInside(pairs: seq<Pair>, ids: set<Id>)
    requires forall p :: p in pairs ==> p.0 in ids
    ensures Inside(pairs, ids) == PairTotal(pairs)
  {
    if pairs != [] {
      assert pairs == pairs[..|pairs| - 1] + [pairs[|pairs| - 1]];
      AllInside(pairs[..|pairs| - 1], ids);
    }
  }

  lemma {:induction false} OneRow<T(!new)>(rows: seq<T>, key: T -> Id, p: Pair, h: T -> int)
    requires Distinct(rows, key)
    requires forall r :: r in rows ==> h(r) == if key(r) == p.0 then p.1 else 0
    ensures Sum(rows, h) == if p.0 in Keys(rows, key) then p.1 else 0
  {
    if rows == [] {
    } else {
      var init, last := rows[..|rows| - 1], rows[|rows| - 1];
      assert rows == init + [last];
      OneRow(init, key, p, h);
      if key(last) == p.0 {
        forall i | 0 <= i < |init| ensures key(init[i]) != p.0 { assert init[i] == rows[i]; }
        assert p.0 !in Keys(init, key);
      } else {
        assert p.0 in Keys(rows, key) <==> p.0 in Keys(init, key) by {
          forall i | 0 <= i < |init| ensures init[i] == rows[i] {}
        }
      }
    }
  }

  // ---- one transaction --------------------------------------------------------------------------

  /** What leaves an on-budget account unexplained: the lost items of a split, or a transfer to nowhere. */
  function GapOf(t: Transaction, onBudget: set<Id>): Money {
    if t.accountId !in onBudget then 0
    else if t.kind == Expense && |t.items| > 0 then Signed(t, t.amount - SumItems(t.items))
    else if t.kind == Transfer && t.toAccountId.None? then t.amount
    else 0
  }

  function GapFlow(onBudget: set<Id>): Transaction -> Money { (t: Transaction) => GapOf(t, onBudget) }

  lemma {:induction false} ItemsTotal(items: seq<Item>, isRefund: bool)
    ensures PairTotal(Map(items, ItemPair(isRefund))) == if isRefund then -SumItems(items) else SumItems(items)
  {
    if items != [] {
      ItemsTotal(items[..|items| - 1], isRefund);
      assert Map(items, ItemPair(isRefund))[..|items| - 1] == Map(items[..|items| - 1], ItemPair(isRefund));
    }
  }

  lemma PairTotalSmall(p: Pair, q: Pair)
    ensures PairTotal([]) == 0 && PairTotal([p]) == p.1 && PairTotal([p, q]) == p.1 + q.1
  {
    SumOne(p, AmountOf());
    SumTwo(p, q, AmountOf());
  }

  lemma InsideSmall(p: Pair, q: Pair, onBudget: set<Id>)
    ensures Inside([p], onBudget) == if p.0 in onBudget then p.1 else 0
    ensures Inside([p, q], onBudget) == (if p.0 in onBudget then p.1 else 0) + if q.0 in onBudget then q.1 else 0
  {
    var f := AmountInside(onBudget);
    SumOne(p, f);
    SumTwo(p, q, f);
    assert f(p) == if p.0 in onBudget then p.1 else 0;
    assert f(q) == if q.0 in onBudget then q.1 else 0;
    assert Inside([p, q], onBudget) == f(p) + f(q);
    assert Inside([p], onBudget) == f(p);
  }

  lemma TransferBalances(t: Transaction, onBudget: set<Id>)
    requires t.kind == Transfer
    ensures PairTotal(AllocationDeltas(t)) + UnassignedDelta(t, onBudget)
         == Inside(AccountDeltas(t), onBudget) + GapOf(t, onBudget)
  {
    InsideSmall((t.accountId, -t.amount), (if t.toAccountId.Some? then t.toAccountId.value else 0, t.amount), onBudget);
  }

  lemma IncomeBalances(t: Transaction, onBudget: set<Id>)
    requires t.kind == Income
    ensures PairTotal(AllocationDeltas(t)) - PairTotal(SpentDeltas(t, onBudget)) + UnassignedDelta(t, onBudget)
         == Inside(AccountDeltas(t), onBudget)
  {
    InsideSmall((t.accountId, t.amount), (0, 0), onBudget);
    PairTotalSmall((if t.envelopeId.Some? then t.envelopeId.value else 0, -t.amount), (0, 0));
  }

  lemma ExpenseBalances(t: Transaction, onBudget: set<Id>)
    requires t.kind == Expense
    ensures PairTotal(AllocationDeltas(t)) - PairTotal(SpentDeltas(t, onBudget)) + UnassignedDelta(t, onBudget)
         == Inside(AccountDeltas(t), onBudget) + GapOf(t, onBudget)
  {
    InsideSmall((t.accountId, -Signed(t, t.amount)), (0, 0), onBudget);
    PairTotalSmall((if t.envelopeId.Some? then t.envelopeId.value else 0, Signed(t, t.amount)), (0, 0));
    ItemsTotal(t.items, t.isRefund);
  }

  /** What a transaction moves into envelopes and the unassigned money is what it moves on budget, up to its gap. */
  lemma TransactionBalances(t: Transaction, onBudget: set<Id>)
    ensures PairTotal(AllocationDeltas(t)) - PairTotal(SpentDeltas(t, onBudget)) + UnassignedDelta(t, onBudget)
         == Inside(AccountDeltas(t), onBudget) + GapOf(t, onBudget)
  {
    hide UnassignedDelta, Inside, AccountDeltas, AllocationDeltas;
    match t.kind
    case Transfer => TransferBalances(t, onBudget);
    case Income => IncomeBalances(t, onBudget);
    case Expense => ExpenseBalances(t, onBudget);
  }

  // ---- the whole ledger -------------------------------------------------------------------------

  function AvailableField(): EnvelopeState -> Money { (s: EnvelopeState) => s.available }
  function BalanceField(): AccountState -> Money { (s: AccountState) => s.balance }
  function OnBudgetState(): AccountState -> bool { (s: AccountState) => s.account.onBudget }

  /** Left side of the identity. */
  function BudgetedPlusToBeBudgeted(state: BudgetState): Money {
    Sum(state.envelopes, AvailableField()) + state.toBeBudgeted
  }

  /** Right side of the identity. */
  function TotalOnBudget(state: BudgetState): Money {
    Sum(Filter(state.accounts, OnBudgetState()), BalanceField())
  }

  /** What the transactions dated up to the month leave unexplained. */
  function Gap(l: Ledger, month: Month): Money {
    Sum(Filter(l.transactions, Until(month)), GapFlow(OnBudgetIds(l.accounts)))
  }

  lemma {:induction false} FilterMapped<A, B>(s: seq<A>, f: A -> B, p: B -> bool, q: A -> bool)
    requires forall x :: x in s ==> q(x) == p(f(x))
    ensures Filter(Map(s, f), p) == Map(Filter(s, q), f)
  {
    if s != [] {
      var init := s[..|s| - 1];
      FilterMapped(init, f, p, q);
      assert Map(s, f)[..|s| - 1] == Map(init, f);
      MapConcat(Filter(init, q), if q(s[|s| - 1]) then [s[|s| - 1]] else [], f);
    }
  }

  lemma {:induction false} InitialIsOwn(accounts: seq<Account>, a: Account)
    requires Distinct(accounts, AccountId) && a in accounts
    ensures InitialBalance(accounts, a.id) == a.initialBalance
  {
    var init, last := accounts[..|accounts| - 1], accounts[|accounts| - 1];
    assert accounts == init + [last];
    if last.id == a.id {
      var i :| 0 <= i < |accounts| && accounts[i] == a;
      assert i == |accounts| - 1;
    } else {
      InitialIsOwn(init, a);
    }
  }

  /** Summing a flow over rows first, or over its sources first. */
  lemma FlowOverRows<T(!new), X>(
    rows: seq<T>, key: T -> Id, xs: seq<X>, pairsOf: X -> seq<Pair>, flow: Id -> (X -> int), rowTotal: T -> int,
    total: X -> int)
    requires Distinct(rows, key)
    requires forall id, x :: x in xs ==> flow(id)(x) == PairSum(pairsOf(x), id)
    requires forall r :: r in rows ==> rowTotal(r) == Sum(xs, flow(key(r)))
    requires forall x :: x in xs ==> total(x) == Inside(pairsOf(x), Keys(rows, key))
    ensures Sum(rows, rowTotal) == Sum(xs, total)
  {
    var cell := (r: T, x: X) => flow(key(r))(x);
    forall r | r in rows ensures rowTotal(r) == RowSums(cell, xs)(r) {
      SumEqual(xs, flow(key(r)), Row(cell, r));
    }
    SumEqual(rows, rowTotal, RowSums(cell, xs));
    SumExchange(rows, xs, cell);
    forall x | x in xs ensures ColumnSums(cell, rows)(x) == total(x) {
      PairsOverRows(rows, key, pairsOf(x), Column(cell, x));
    }
    SumEqual(xs, ColumnSums(cell, rows), total);
  }

  function AllocationTotal(): Transaction -> Money { (t: Transaction) => PairTotal(AllocationDeltas(t)) }
  function SpentTotal(onBudget: set<Id>): Transaction -> Money {
    (t: Transaction) => PairTotal(SpentDeltas(t, onBudget))
  }
  function OnBudgetTotal(onBudget: set<Id>): Transaction -> Money {
    (t: Transaction) => Inside(AccountDeltas(t), onBudget)
  }

  function ManualSum(allocations: seq<Allocation>): Envelope -> Money {
    (e: Envelope) => Sum(allocations, ManualFlow(e.id))
  }
  function AutomaticSum(txns: seq<Transaction>): Envelope -> Money { (e: Envelope) => Sum(txns, AutomaticFlow(e.id)) }
  function SpentSum(txns: seq<Transaction>, onBudget: set<Id>): Envelope -> Money {
    (e: Envelope) => Sum(txns, SpentFlow(e.id, onBudget))
  }
  function FlowSum(txns: seq<Transaction>): Account -> Money { (a: Account) => Sum(txns, AccountFlow(a.id)) }

  lemma ManualTotal(envelopes: seq<Envelope>, allocations: seq<Allocation>)
    requires Distinct(envelopes, EnvelopeId)
    requires forall a :: a in allocations ==> a.envelopeId in Keys(envelopes, EnvelopeId)
    ensures Sum(envelopes, ManualSum(allocations)) == Sum(allocations, AllocatedAmount())
  {
    var ids := Keys(envelopes, EnvelopeId);
    var pairsOf: Allocation -> seq<Pair> := (a: Allocation) => [(a.envelopeId, a.amount)];
    var flow: Id -> (Allocation -> int) := (id: Id) => ManualFlow(id);
    forall id: Id, a: Allocation ensures flow(id)(a) == PairSum(pairsOf(a), id) {
      SumOne((a.envelopeId, a.amount), PairAmount(id));
    }
    forall a | a in allocations ensures AllocatedAmount()(a) == Inside(pairsOf(a), ids) {
      SumOne((a.envelopeId, a.amount), AmountInside(ids));
    }
    FlowOverRows(envelopes, EnvelopeId, allocations, pairsOf, flow, ManualSum(allocations), AllocatedAmount());
  }

  lemma AutomaticTotal(envelopes: seq<Envelope>, txns: seq<Transaction>, accounts: set<Id>)
    requires Distinct(envelopes, EnvelopeId)
    requires forall t :: t in txns ==> TxnResolved(t, accounts, Keys(envelopes, EnvelopeId))
    ensures Sum(envelopes, AutomaticSum(txns)) == Sum(txns, AllocationTotal())
  {
    var ids := Keys(envelopes, EnvelopeId);
    forall t | t in txns ensures AllocationTotal()(t) == Inside(AllocationDeltas(t), ids) {
      AllInside(AllocationDeltas(t), ids);
    }
    FlowOverRows(envelopes, EnvelopeId, txns, AllocationDeltas, (id: Id) => AutomaticFlow(id), AutomaticSum(txns),
      AllocationTotal());
  }

  lemma SpentTotals(envelopes: seq<Envelope>, txns: seq<Transaction>, accounts: set<Id>, onBudget: set<Id>)
    requires Distinct(envelopes, EnvelopeId)
    requires forall t :: t in txns ==> TxnResolved(t, accounts, Keys(envelopes, EnvelopeId))
    ensures Sum(envelopes, SpentSum(txns, onBudget)) == Sum(txns, SpentTotal(onBudget))
  {
    var ids := Keys(envelopes, EnvelopeId);
    forall t | t in txns ensures SpentTotal(onBudget)(t) == Inside(SpentDeltas(t, onBudget), ids) {
      MapElements(t.items, ItemPair(t.isRefund));
      AllInside(SpentDeltas(t, onBudget), ids);
    }
    FlowOverRows(envelopes, EnvelopeId, txns, (t: Transaction) => SpentDeltas(t, onBudget),
      (id: Id) => SpentFlow(id, onBudget),
                 SpentSum(txns, onBudget), SpentTotal(onBudget));
  }

  lemma AccountTotals(accounts: seq<Account>, txns: seq<Transaction>)
    requires Distinct(accounts, AccountId)
    ensures Sum(Filter(accounts, IsOnBudget()), FlowSum(txns)) == Sum(txns, OnBudgetTotal(OnBudgetIds(accounts)))
  {
    var rows := Filter(accounts, IsOnBudget());
    DistinctFilter(accounts, AccountId, IsOnBudget());
    OnBudgetKeys(accounts);
    FlowOverRows(rows, AccountId, txns, AccountDeltas, (id: Id) => AccountFlow(id), FlowSum(txns),
      OnBudgetTotal(OnBudgetIds(accounts)));
  }

  lemma OnBudgetKeys(accounts: seq<Account>)
    ensures Keys(Filter(accounts, IsOnBudget()), AccountId) == OnBudgetIds(accounts)
  {
    var rows := Filter(accounts, IsOnBudget());
    forall i | 0 <= i < |rows| ensures rows[i].id in OnBudgetIds(accounts) { assert rows[i] in accounts; }
    forall i | 0 <= i < |accounts| && accounts[i].onBudget ensures accounts[i].id in Keys(rows, AccountId) {
      assert accounts[i] in accounts && accounts[i] in rows;
    }
  }

  lemma AvailableTotal(l: Ledger, month: Month)
    requires WellFormed(l)
    ensures Sum(BudgetStateOf(l, month).envelopes, AvailableField())
         == Sum(Filter(l.allocations, AllocatedUntil(month)), AllocatedAmount())
          + Sum(Filter(l.transactions, Until(month)), AllocationTotal())
          - Sum(Filter(l.transactions, Until(month)), SpentTotal(OnBudgetIds(l.accounts)))
  {
    hide Sum, Filter, Distinct;
    var onBudget := OnBudgetIds(l.accounts);
    var allocations, txns := Filter(l.allocations, AllocatedUntil(month)), Filter(l.transactions, Until(month));
    ManualTotal(l.envelopes, allocations);
    AutomaticTotal(l.envelopes, txns, AccountIds(l));
    SpentTotals(l.envelopes, txns, AccountIds(l), onBudget);
    var available := (e: Envelope) => AvailableIn(l, month, e.id);
    SumMap(l.envelopes, EnvelopeStateOf(l, month), AvailableField(), available);
    var funded := (e: Envelope) => AllocatedTo(allocations, txns, e.id);
    SumOfSums(l.envelopes, ManualSum(allocations), AutomaticSum(txns), funded);
    SumOfSums(l.envelopes, available, SpentSum(txns, onBudget), funded);
  }

  lemma BalanceTotal(l: Ledger, month: Month)
    requires WellFormed(l)
    ensures TotalOnBudget(BudgetStateOf(l, month))
         == Sum(Filter(l.accounts, IsOnBudget()), InitialOf())
          + Sum(Filter(l.transactions, Until(month)), OnBudgetTotal(OnBudgetIds(l.accounts)))
  {
    hide Sum, Filter, Distinct;
    var txns := Filter(l.transactions, Until(month));
    var rows := Filter(l.accounts, IsOnBudget());
    FilterMapped(l.accounts, AccountStateOf(l, month), OnBudgetState(), IsOnBudget());
    var balance := (a: Account) => BalanceOf(l.accounts, txns, a.id);
    SumMap(rows, AccountStateOf(l, month), BalanceField(), balance);
    forall a | a in rows ensures balance(a) == InitialOf()(a) + FlowSum(txns)(a) { InitialIsOwn(l.accounts, a); }
    SumOfSums(rows, InitialOf(), FlowSum(txns), balance);
    AccountTotals(l.accounts, txns);
  }

  lemma {:induction false} TransactionsBalance(txns: seq<Transaction>, onBudget: set<Id>)
    ensures Sum(txns, AllocationTotal()) - Sum(txns, SpentTotal(onBudget)) + Sum(txns, UnassignedFlow(onBudget))
         == Sum(txns, OnBudgetTotal(onBudget)) + Sum(txns, GapFlow(onBudget))
  {
    if txns != [] {
      assert txns == txns[..|txns| - 1] + [txns[|txns| - 1]];
      TransactionsBalance(txns[..|txns| - 1], onBudget);
      TransactionBalances(txns[|txns| - 1], onBudget);
    }
  }

  /**
   * At every month of every well-formed ledger: available money plus money to be budgeted is the
   * on-budget balance plus exactly what split expenses and transfers to nowhere leave unexplained.
   */
  lemma IdentityUpToGap(l: Ledger, month: Month)
    requires WellFormed(l)
    ensures BudgetedPlusToBeBudgeted(BudgetStateOf(l, month)) == TotalOnBudget(BudgetStateOf(l, month)) +
      Gap(l, month)
  {
    hide Sum, Filter, WellFormed;
    AvailableTotal(l, month);
    BalanceTotal(l, month);
    TransactionsBalance(Filter(l.transactions, Until(month)), OnBudgetIds(l.accounts));
  }
}
