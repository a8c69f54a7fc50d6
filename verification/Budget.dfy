// Envelope budgeting: balances, available money and what is left to budget are computed from the
// ledger by independent formulas.
module Budget {
  import opened Sequences
  import opened Ledger

  // ---- contributions of one transaction -----------------------------------------------------------

  type Pair = (Id, Money)

  function PairAmount(id: Id): Pair -> Money { (p: Pair) => if p.0 == id then p.1 else 0 }

  /** What a list of (id, amount) pairs adds to `id`. */
  function PairSum(pairs: seq<Pair>, id: Id): Money { Sum(pairs, PairAmount(id)) }

  function Signed(t: Transaction, amount: Money): Money { if t.isRefund then -amount else amount }

  function ItemPair(isRefund: bool): Item -> Pair {
    (i: Item) => (i.envelopeId, if isRefund then -i.amount else i.amount)
  }

  function AccountDeltas(t: Transaction): seq<Pair> {
    match t.kind
    case Expense => [(t.accountId, -Signed(t, t.amount))]
    case Income => [(t.accountId, t.amount)]
    case Transfer =>
      if t.toAccountId.Some? then [(t.accountId, -t.amount), (t.toAccountId.value, t.amount)]
      else [(t.accountId, -t.amount)]
  }

  function SpentDeltas(t: Transaction, onBudget: set<Id>): seq<Pair> {
    if t.kind == Transfer || t.accountId !in onBudget then []
    else if t.kind == Income then (if t.envelopeId.Some? then [(t.envelopeId.value, -t.amount)] else [])
    else if |t.items| > 0 then Map(t.items, ItemPair(t.isRefund))
    else if t.envelopeId.Some? then [(t.envelopeId.value, Signed(t, t.amount))] else []
  }

  /** The automatic allocation a transaction's recorded flow makes. */
  function AllocationDeltas(t: Transaction): seq<Pair> {
    if t.allocationFrom == t.allocationTo then []
    else if t.allocationFrom.None? then [(t.allocationTo.value, t.amount)]
    else if t.allocationTo.Some? then [(t.allocationFrom.value, -t.amount), (t.allocationTo.value, t.amount)]
    else [(t.allocationFrom.value, -t.amount)]
  }

  function AmountOf(): Pair -> Money { (p: Pair) => p.1 }

  function PairTotal(pairs: seq<Pair>): Money { Sum(pairs, AmountOf()) }

  /** What a transaction adds to the money nobody has assigned. */
  function UnassignedDelta(t: Transaction, onBudget: set<Id>): Money {
    - PairTotal(AllocationDeltas(t))
    + (if t.kind == Income && t.accountId in onBudget && t.envelopeId.None? then t.amount else 0)
    + (if t.kind == Expense && t.accountId in onBudget && t.envelopeId.None? && |t.items| == 0 then -Signed(t, t.amount)
      else 0)
    + (if t.kind == Transfer && t.toAccountId.Some?
       then (if t.toAccountId.value in onBudget && t.accountId !in onBudget then t.amount else 0)
          - (if t.accountId in onBudget && t.toAccountId.value !in onBudget then t.amount else 0)
       else 0)
  }

  // ---- the specification of the budget state ------------------------------------------------------

  datatype AccountState = AccountState(account: Account, balance: Money)

  datatype EnvelopeState = EnvelopeState(
    envelope: Envelope, carryIn: Money, funded: Money, spent: Money, available: Money)

  datatype BudgetState = BudgetState(
    month: Month, accounts: seq<AccountState>, envelopes: seq<EnvelopeState>, groups: seq<Group>,
    toBeBudgeted: Money, readyToAssign: Money, monthIncome: Money, monthExpense: Money)

  function IsOnBudget(): Account -> bool { (a: Account) => a.onBudget }

  function OnBudgetIds(accounts: seq<Account>): set<Id> {
    set i | 0 <= i < |accounts| && accounts[i].onBudget :: accounts[i].id
  }

  function Until(month: Month): Transaction -> bool { (t: Transaction) => t.date.month <= month }
  function InMonth(month: Month): Transaction -> bool { (t: Transaction) => t.date.month == month }
  function AllocatedUntil(month: Month): Allocation -> bool { (a: Allocation) => a.month <= month }
  function AllocatedIn(month: Month): Allocation -> bool { (a: Allocation) => a.month == month }

  function AccountFlow(id: Id): Transaction -> Money { (t: Transaction) => PairSum(AccountDeltas(t), id) }
  function AutomaticFlow(id: Id): Transaction -> Money { (t: Transaction) => PairSum(AllocationDeltas(t), id) }
  function SpentFlow(id: Id, onBudget: set<Id>): Transaction -> Money {
    (t: Transaction) => PairSum(SpentDeltas(t, onBudget), id)
  }
  function ManualFlow(id: Id): Allocation -> Money { (a: Allocation) => if a.envelopeId == id then a.amount else 0 }
  function UnassignedFlow(onBudget: set<Id>): Transaction -> Money { (t: Transaction) => UnassignedDelta(t, onBudget) }
  function InitialOf(): Account -> Money { (a: Account) => a.initialBalance }
  function AllocatedAmount(): Allocation -> Money { (a: Allocation) => a.amount }

  /** The initial balance of the last account with this id: the one a map keyed by id keeps. */
  function InitialBalance(accounts: seq<Account>, id: Id): Money {
    if accounts == [] then 0
    else if accounts[|accounts| - 1].id == id then accounts[|accounts| - 1].initialBalance
    else InitialBalance(accounts[..|accounts| - 1], id)
  }

  function BalanceOf(accounts: seq<Account>, txns: seq<Transaction>, id: Id): Money {
    InitialBalance(accounts, id) + Sum(txns, AccountFlow(id))
  }

  function AllocatedTo(allocations: seq<Allocation>, txns: seq<Transaction>, id: Id): Money {
    Sum(allocations, ManualFlow(id)) + Sum(txns, AutomaticFlow(id))
  }

  function AvailableIn(l: Ledger, month: Month, id: Id): Money {
    var txns := Filter(l.transactions, Until(month));
    AllocatedTo(Filter(l.allocations, AllocatedUntil(month)), txns, id) - Sum(txns,
      SpentFlow(id, OnBudgetIds(l.accounts)))
  }

  function Unassigned(
    accounts: seq<Account>, allocations: seq<Allocation>, txns: seq<Transaction>, onBudget: set<Id>): Money
  {
    Sum(Filter(accounts, IsOnBudget()), InitialOf()) - Sum(allocations, AllocatedAmount()) +
      Sum(txns, UnassignedFlow(onBudget))
  }

  function AccountStateOf(l: Ledger, month: Month): Account -> AccountState {
    (a: Account) => AccountState(a, BalanceOf(l.accounts, Filter(l.transactions, Until(month)), a.id))
  }

  function EnvelopeStateOf(l: Ledger, month: Month): Envelope -> EnvelopeState {
    (e: Envelope) =>
      var now := Filter(l.transactions, InMonth(month));
      var available := AvailableIn(l, month, e.id);
      var funded := AllocatedTo(Filter(l.allocations, AllocatedIn(month)), now, e.id);
      var spent := Sum(now, SpentFlow(e.id, OnBudgetIds(l.accounts)));
      EnvelopeState(e, available - (funded - spent), funded, spent, available)
  }

  function ToBeBudgeted(l: Ledger, month: Month): Money {
    Unassigned(l.accounts, Filter(l.allocations, AllocatedUntil(month)), Filter(l.transactions, Until(month)),
      OnBudgetIds(l.accounts))
  }

  function ReadyToAssign(l: Ledger): Money {
    Unassigned(l.accounts, l.allocations, l.transactions, OnBudgetIds(l.accounts))
  }

  function IncomeFlow(onBudget: set<Id>): Transaction -> Money {
    (t: Transaction) => if t.accountId in onBudget && t.kind == Income then t.amount else 0
  }

  function ExpenseFlow(onBudget: set<Id>): Transaction -> Money {
    (t: Transaction) => if t.accountId in onBudget && t.kind == Expense then Signed(t, t.amount) else 0
  }

  function BudgetStateOf(l: Ledger, month: Month): BudgetState {
    BudgetState(
      month, Map(l.accounts, AccountStateOf(l, month)), Map(l.envelopes, EnvelopeStateOf(l, month)), l.groups,
      ToBeBudgeted(l, month), ReadyToAssign(l),
      Sum(Filter(l.transactions, InMonth(month)), IncomeFlow(OnBudgetIds(l.accounts))),
      Sum(Filter(l.transactions, InMonth(month)), ExpenseFlow(OnBudgetIds(l.accounts))))
  }

  // ---- the computation ----------------------------------------------------------------------------

  function Get(m: map<Id, Money>, id: Id): Money { if id in m then m[id] else 0 }

  method AddTo(m: map<Id, Money>, key: Id, amount: Money) returns (out: map<Id, Money>)
    ensures forall id: Id :: Get(out, id) == Get(m, id) + if id == key then amount else 0
  {
    out := m[key := Get(m, key) + amount];
  }

  /** Adds every pair to its entry of the map. */
  method AddPairs(m: map<Id, Money>, pairs: seq<Pair>) returns (out: map<Id, Money>)
    ensures forall id: Id :: Get(out, id) == Get(m, id) + PairSum(pairs, id)
  {
    out := m;
    for i := 0 to |pairs|
      invariant forall id: Id :: Get(out, id) == Get(m, id) + PairSum(pairs[..i], id)
    {
      ghost var before := out;
      out := AddTo(out, pairs[i].0, pairs[i].1);
      forall id: Id ensures Get(out, id) == Get(m, id) + PairSum(pairs[..i + 1], id) {
        SumStep(pairs, i, PairAmount(id));
        assert Get(out, id) == Get(before, id) + PairAmount(id)(pairs[i]);
      }
    }
    assert pairs[..|pairs|] == pairs;
  }

  method Balances(accounts: seq<Account>, txns: seq<Transaction>) returns (balance: map<Id, Money>)
    ensures forall id: Id :: Get(balance, id) == BalanceOf(accounts, txns, id)
  {
    balance := map[];
    for i := 0 to |accounts|
      invariant forall id: Id :: Get(balance, id) == InitialBalance(accounts[..i], id)
    {
      balance := balance[accounts[i].id := accounts[i].initialBalance];
      assert accounts[..i + 1][..i] == accounts[..i];
    }
    assert accounts[..|accounts|] == accounts;
    for i := 0 to |txns|
      invariant forall id: Id :: Get(balance, id) == BalanceOf(accounts, txns[..i], id)
    {
      ghost var before := balance;
      balance := AddPairs(balance, AccountDeltas(txns[i]));
      forall id: Id ensures Get(balance, id) == BalanceOf(accounts, txns[..i + 1], id) {
        SumStep(txns, i, AccountFlow(id));
        assert Get(balance, id) == Get(before, id) + AccountFlow(id)(txns[i]);
      }
    }
    assert txns[..|txns|] == txns;
  }

  lemma FilteredSumStep<T>(s: seq<T>, i: nat, p: T -> bool, f: T -> int)
    requires i < |s|
    ensures Sum(Filter(s[..i + 1], p), f) == Sum(Filter(s[..i], p), f) + if p(s[i]) then f(s[i]) else 0
  {
    FilterStep(s, i, p);
    if p(s[i]) {
      SumConcat(Filter(s[..i], p), [s[i]], f);
      SumOne(s[i], f);
    } else {
      assert Filter(s[..i], p) + [] == Filter(s[..i], p);
    }
  }

  /** The map holds, for every id, the sum of a flow over the elements that satisfy `p`. */
  ghost predicate Holds<X>(m: map<Id, Money>, xs: seq<X>, p: X -> bool, flow: Id -> (X -> Money)) {
    forall id: Id :: Get(m, id) == Sum(Filter(xs, p), flow(id))
  }

  lemma HoldsNothing<X>(p: X -> bool, flow: Id -> (X -> Money))
    ensures Holds(map[], [], p, flow)
  {
  }

  lemma HoldsStep<X>(
    xs: seq<X>, i: nat, p: X -> bool, flow: Id -> (X -> Money), before: map<Id, Money>, after: map<Id, Money>)
    requires i < |xs| && Holds(before, xs[..i], p, flow)
    requires forall id: Id :: Get(after, id) == Get(before, id) + if p(xs[i]) then flow(id)(xs[i]) else 0
    ensures Holds(after, xs[..i + 1], p, flow)
  {
    forall id: Id ensures Get(after, id) == Sum(Filter(xs[..i + 1], p), flow(id)) {
      FilteredSumStep(xs, i, p, flow(id));
    }
  }

  method ManualAllocations(allocations: seq<Allocation>, month: Month)
    returns (cum: map<Id, Money>, now: map<Id, Money>)
    ensures Holds(cum, allocations, AllocatedUntil(month), ManualFlow)
    ensures Holds(now, allocations, AllocatedIn(month), ManualFlow)
  {
    hide Holds;
    cum, now := map[], map[];
    HoldsNothing(AllocatedUntil(month), ManualFlow);
    HoldsNothing(AllocatedIn(month), ManualFlow);
    for i := 0 to |allocations|
      invariant Holds(cum, allocations[..i], AllocatedUntil(month), ManualFlow)
      invariant Holds(now, allocations[..i], AllocatedIn(month), ManualFlow)
    {
      var a := allocations[i];
      ghost var cum0, now0 := cum, now;
      if a.month <= month { cum := AddTo(cum, a.envelopeId, a.amount); }
      if a.month == month { now := AddTo(now, a.envelopeId, a.amount); }
      HoldsStep(allocations, i, AllocatedUntil(month), ManualFlow, cum0, cum);
      HoldsStep(allocations, i, AllocatedIn(month), ManualFlow, now0, now);
    }
    assert allocations[..|allocations|] == allocations;
  }

  /** `txns` are the transactions up to the month. */
  method AutomaticAllocations(txns: seq<Transaction>, month: Month) returns (cum: map<Id, Money>, now: map<Id, Money>)
    requires forall t :: t in txns ==> Until(month)(t)
    ensures Holds(cum, txns, Until(month), AutomaticFlow)
    ensures Holds(now, txns, InMonth(month), AutomaticFlow)
  {
    hide Holds, AllocationDeltas;
    cum, now := map[], map[];
    HoldsNothing(Until(month), AutomaticFlow);
    HoldsNothing(InMonth(month), AutomaticFlow);
    for i := 0 to |txns|
      invariant Holds(cum, txns[..i], Until(month), AutomaticFlow)
      invariant Holds(now, txns[..i], InMonth(month), AutomaticFlow)
    {
      ghost var cum0, now0 := cum, now;
      cum := AddPairs(cum, AllocationDeltas(txns[i]));
      if txns[i].date.month == month { now := AddPairs(now, AllocationDeltas(txns[i])); }
      assert Until(month)(txns[i]);
      HoldsStep(txns, i, Until(month), AutomaticFlow, cum0, cum);
      HoldsStep(txns, i, InMonth(month), AutomaticFlow, now0, now);
    }
    assert txns[..|txns|] == txns;
  }

  function SpentFlows(onBudget: set<Id>): Id -> (Transaction -> Money) { (id: Id) => SpentFlow(id, onBudget) }

  method Spending(txns: seq<Transaction>, month: Month, onBudget: set<Id>)
    returns (cum: map<Id, Money>, now: map<Id, Money>)
    requires forall t :: t in txns ==> Until(month)(t)
    ensures Holds(cum, txns, Until(month), SpentFlows(onBudget))
    ensures Holds(now, txns, InMonth(month), SpentFlows(onBudget))
  {
    hide Holds, SpentDeltas;
    cum, now := map[], map[];
    HoldsNothing(Until(month), SpentFlows(onBudget));
    HoldsNothing(InMonth(month), SpentFlows(onBudget));
    for i := 0 to |txns|
      invariant Holds(cum, txns[..i], Until(month), SpentFlows(onBudget))
      invariant Holds(now, txns[..i], InMonth(month), SpentFlows(onBudget))
    {
      ghost var cum0, now0 := cum, now;
      cum := AddPairs(cum, SpentDeltas(txns[i], onBudget));
      if txns[i].date.month == month { now := AddPairs(now, SpentDeltas(txns[i], onBudget)); }
      assert Until(month)(txns[i]);
      HoldsStep(txns, i, Until(month), SpentFlows(onBudget), cum0, cum);
      HoldsStep(txns, i, InMonth(month), SpentFlows(onBudget), now0, now);
    }
    assert txns[..|txns|] == txns;
  }

  /** The unassigned money, accumulated as the source does: accounts, allocations, transactions. */
  method UnassignedMoney(
    accounts: seq<Account>, allocations: seq<Allocation>, txns: seq<Transaction>, onBudget: set<Id>)
    returns (total: Money)
    ensures total == Unassigned(accounts, allocations, txns, onBudget)
  {
    total := 0;
    for i := 0 to |accounts|
      invariant total == Sum(Filter(accounts[..i], IsOnBudget()), InitialOf())
    {
      FilteredSumStep(accounts, i, IsOnBudget(), InitialOf());
      if accounts[i].onBudget { total := total + accounts[i].initialBalance; }
    }
    assert accounts[..|accounts|] == accounts;
    ghost var initial := total;
    for i := 0 to |allocations|
      invariant total == initial - Sum(allocations[..i], AllocatedAmount())
    {
      SumStep(allocations, i, AllocatedAmount());
      total := total - allocations[i].amount;
    }
    assert allocations[..|allocations|] == allocations;
    ghost var unallocated := total;
    for i := 0 to |txns|
      invariant total == unallocated + Sum(txns[..i], UnassignedFlow(onBudget))
    {
      var t := txns[i];
      SumStep(txns, i, UnassignedFlow(onBudget));
      total := total - PairTotal(AllocationDeltas(t));
      if t.kind == Income && t.accountId in onBudget && t.envelopeId.None? {
        total := total + t.amount;
      }
      if t.kind == Expense && t.accountId in onBudget && t.envelopeId.None? && |t.items| == 0 {
        total := total + if t.isRefund then t.amount else -t.amount;
      }
      if t.kind == Transfer && t.toAccountId.Some? {
        var fromOn, toOn := t.accountId in onBudget, t.toAccountId.value in onBudget;
        if toOn && !fromOn { total := total + t.amount; }
        if fromOn && !toOn { total := total - t.amount; }
      }
    }
    assert txns[..|txns|] == txns;
  }

  method MonthTotals(txns: seq<Transaction>, month: Month, onBudget: set<Id>) returns (income: Money, expense: Money)
    ensures income == Sum(Filter(txns, InMonth(month)), IncomeFlow(onBudget))
    ensures expense == Sum(Filter(txns, InMonth(month)), ExpenseFlow(onBudget))
  {
    income, expense := 0, 0;
    for i := 0 to |txns|
      invariant income == Sum(Filter(txns[..i], InMonth(month)), IncomeFlow(onBudget))
      invariant expense == Sum(Filter(txns[..i], InMonth(month)), ExpenseFlow(onBudget))
    {
      var t := txns[i];
      FilteredSumStep(txns, i, InMonth(month), IncomeFlow(onBudget));
      FilteredSumStep(txns, i, InMonth(month), ExpenseFlow(onBudget));
      if t.date.month == month && t.accountId in onBudget {
        if t.kind == Income {
          income := income + t.amount;
        } else if t.kind == Expense {
          expense := expense + if t.isRefund then -t.amount else t.amount;
        }
      }
    }
    assert txns[..|txns|] == txns;
  }

  lemma EnvelopeFigures(
    l: Ledger, month: Month, e: Envelope, fundedCum: Money, funded: Money, spentCum: Money, spent: Money)
    requires var txns := Filter(l.transactions, Until(month));
             fundedCum == Sum(Filter(l.allocations, AllocatedUntil(month)), ManualFlow(e.id)) +
               Sum(txns, AutomaticFlow(e.id)) &&
             spentCum == Sum(txns, SpentFlow(e.id, OnBudgetIds(l.accounts)))
    requires var now := Filter(l.transactions, InMonth(month));
             funded == Sum(Filter(l.allocations, AllocatedIn(month)), ManualFlow(e.id)) +
               Sum(now, AutomaticFlow(e.id)) &&
             spent == Sum(now, SpentFlow(e.id, OnBudgetIds(l.accounts)))
    ensures EnvelopeStateOf(l, month)(e)
         == EnvelopeState(e, fundedCum - spentCum - (funded - spent), funded, spent, fundedCum - spentCum)
  {
  }

  /** The maps hold, for every envelope, the sums its figures are made of. */
  ghost predicate HoldsFigures(
    l: Ledger, month: Month, e: Envelope, manualCum: map<Id, Money>, manualThis: map<Id, Money>,
    automaticCum: map<Id, Money>, automaticThis: map<Id, Money>, spentCum: map<Id, Money>, spentThis: map<Id, Money>)
  {
    var available := Get(manualCum, e.id) + Get(automaticCum, e.id) - Get(spentCum, e.id);
    var funded := Get(manualThis, e.id) + Get(automaticThis, e.id);
    var spent := Get(spentThis, e.id);
    EnvelopeStateOf(l, month)(e) == EnvelopeState(e, available - (funded - spent), funded, spent, available)
  }

  /** The per-envelope figures, read from the maps of cumulative and this-month amounts. */
  method ReadEnvelopes(
    l: Ledger, month: Month, manualCum: map<Id, Money>, manualThis: map<Id, Money>,
    automaticCum: map<Id, Money>, automaticThis: map<Id, Money>, spentCum: map<Id, Money>, spentThis: map<Id, Money>)
    returns (states: seq<EnvelopeState>)
    requires forall e :: e in l.envelopes ==>
      HoldsFigures(l, month, e, manualCum, manualThis, automaticCum, automaticThis, spentCum, spentThis)
    ensures states == Map(l.envelopes, EnvelopeStateOf(l, month))
  {
    hide EnvelopeStateOf;
    states := [];
    for i := 0 to |l.envelopes|
      invariant |states| == i && forall j :: 0 <= j < i ==> states[j] == EnvelopeStateOf(l, month)(l.envelopes[j])
    {
      var envelope := l.envelopes[i];
      var fundedCum := Get(manualCum, envelope.id) + Get(automaticCum, envelope.id);
      var funded := Get(manualThis, envelope.id) + Get(automaticThis, envelope.id);
      var spent := Get(spentThis, envelope.id);
      var available := fundedCum - Get(spentCum, envelope.id);
      assert HoldsFigures(l, month, envelope, manualCum, manualThis, automaticCum, automaticThis, spentCum, spentThis);
      states := states + [EnvelopeState(envelope, available - (funded - spent), funded, spent, available)];
    }
  }

  method EnvelopeStates(l: Ledger, month: Month, txns: seq<Transaction>) returns (states: seq<EnvelopeState>)
    requires txns == Filter(l.transactions, Until(month))
    ensures states == Map(l.envelopes, EnvelopeStateOf(l, month))
  {
    hide Filter, Sum, PairSum, Map, AvailableIn, AllocatedTo, EnvelopeStateOf;
    FilterWithin(l.transactions, Until(month), InMonth(month));
    FilterAll(txns, Until(month));
    var manualCum, manualThis := ManualAllocations(l.allocations, month);
    var automaticCum, automaticThis := AutomaticAllocations(txns, month);
    var spentCum, spentThis := Spending(txns, month, OnBudgetIds(l.accounts));
    forall e | e in l.envelopes
      ensures HoldsFigures(l, month, e, manualCum, manualThis, automaticCum, automaticThis, spentCum, spentThis)
    {
      assert SpentFlows(OnBudgetIds(l.accounts))(e.id) == SpentFlow(e.id, OnBudgetIds(l.accounts));
      EnvelopeFigures(l, month, e, Get(manualCum, e.id) + Get(automaticCum, e.id),
        Get(manualThis, e.id) + Get(automaticThis, e.id),
                      Get(spentCum, e.id), Get(spentThis, e.id));
    }
    states := ReadEnvelopes(l, month, manualCum, manualThis, automaticCum, automaticThis, spentCum, spentThis);
  }

  method AccountStates(l: Ledger, month: Month, txns: seq<Transaction>) returns (states: seq<AccountState>)
    requires txns == Filter(l.transactions, Until(month))
    ensures states == Map(l.accounts, AccountStateOf(l, month))
  {
    var balance := Balances(l.accounts, txns);
    states := [];
    for i := 0 to |l.accounts|
      invariant |states| == i && forall j :: 0 <= j < i ==> states[j] == AccountStateOf(l, month)(l.accounts[j])
    {
      states := states + [AccountState(l.accounts[i], Get(balance, l.accounts[i].id))];
    }
  }

  method ComputeBudgetState(l: Ledger, month: Month) returns (state: BudgetState)
    ensures state == BudgetStateOf(l, month)
  {
    var onBudget := OnBudgetIds(l.accounts);
    var txns := Filter(l.transactions, Until(month));
    FilterWithin(l.transactions, Until(month), InMonth(month));
    var accounts := AccountStates(l, month, txns);
    var envelopes := EnvelopeStates(l, month, txns);
    var toBeBudgeted := UnassignedMoney(l.accounts, Filter(l.allocations, AllocatedUntil(month)), txns, onBudget);
    var readyToAssign := UnassignedMoney(l.accounts, l.allocations, l.transactions, onBudget);
    var income, expense := MonthTotals(txns, month, onBudget);
    state := BudgetState(month, accounts, envelopes, l.groups, toBeBudgeted, readyToAssign, income, expense);
  }
}
