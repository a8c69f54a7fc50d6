// The client ledger and the reducer that applies sync operations to it.
//
// Ids are compared for equality only. A date is its month (year * 12 + month - 1) and its day,
// so that the order of the source's date text is the lexicographic order of the pair.
module Ledger {
  import opened Sequences
  import opened Tables

  type Id = nat
  type Month = int
  type Money = int

  datatype Date = Date(month: Month, day: int)

  datatype TxnType = Expense | Income | Transfer

  /** A field a patch may leave out (`undefined`) or set, possibly to null. */
  datatype Patch<+T> = Keep | Put(value: T) {
    function Over(prev: T): T {
      match this case Keep => prev case Put(v) => v
    }
  }

  function OrNull<T>(p: Patch<Option<T>>): Option<T> { p.Over(None) }

  datatype Account = Account(
    id: Id, name: string, color: string, icon: string, kind: string, onBudget: bool,
    initialBalance: Money, archived: bool, sort: int, automaticEnvelopeId: Option<Id>)

  datatype Group = Group(id: Id, name: string, sort: int)

  datatype Envelope = Envelope(
    id: Id, groupId: Id, name: string, color: string, icon: string, note: Option<string>,
    monthlyTarget: Option<Money>, isSavings: bool, sort: int, archived: bool)

  /** A dictionary entry: a category or a place. */
  datatype Entry = Entry(id: Id, name: string, archived: bool)

  datatype ItemId = LocalItem(txnId: Id, index: nat) | RemoteItem(id: Id)

  datatype Item = Item(id: ItemId, envelopeId: Id, categoryId: Option<Id>, amount: Money)

  datatype Transaction = Transaction(
    id: Id, kind: TxnType, accountId: Id, toAccountId: Option<Id>, amount: Money, date: Date,
    isRefund: bool, envelopeId: Option<Id>, placeId: Option<Id>, categoryId: Option<Id>,
    name: Option<string>, note: Option<string>, tag: Option<string>, sourceRef: Option<string>,
    allocationFrom: Option<Id>, allocationTo: Option<Id>, items: seq<Item>, createdAt: string)

  datatype AllocationId = LocalAllocation(envelopeId: Id, month: Month) | RemoteAllocation(id: Id)

  datatype Allocation = Allocation(id: AllocationId, envelopeId: Id, month: Month, amount: Money)

  datatype Budget = Budget(id: Id, name: string, currency: string)

  datatype Ledger = Ledger(
    accounts: seq<Account>, groups: seq<Group>, envelopes: seq<Envelope>,
    transactions: seq<Transaction>, allocations: seq<Allocation>,
    categories: seq<Entry>, places: seq<Entry>, budgets: seq<Budget>)

  // ---- keys -------------------------------------------------------------------------------

  function AccountId(a: Account): Id { a.id }
  function GroupId(g: Group): Id { g.id }
  function EnvelopeId(e: Envelope): Id { e.id }
  function TxnId(t: Transaction): Id { t.id }
  function EntryId(e: Entry): Id { e.id }
  function BudgetId(b: Budget): Id { b.id }
  function AllocationKey(a: Allocation): (Id, Month) { (a.envelopeId, a.month) }

  // ---- operations -------------------------------------------------------------------------

  datatype ItemFields = ItemFields(envelopeId: Id, categoryId: Option<Id>, amount: Money)

  datatype TxnFields = TxnFields(
    id: Id, kind: TxnType, accountId: Id, toAccountId: Option<Id>, amount: Money, date: Date,
    isRefund: bool, envelopeId: Option<Id>, placeId: Option<Id>, categoryId: Option<Id>,
    name: Option<string>, note: Option<string>,
    tag: Patch<Option<string>>, sourceRef: Patch<Option<string>>,
    allocationFrom: Patch<Option<Id>>, allocationTo: Patch<Option<Id>>,
    items: seq<ItemFields>, createdAt: Option<string>)

  datatype AccountPatch = AccountPatch(
    name: Patch<string>, color: Patch<string>, icon: Patch<string>, kind: Patch<string>,
    onBudget: Patch<bool>, initialBalance: Patch<Money>, archived: Patch<bool>, sort: Patch<int>,
    automaticEnvelopeId: Patch<Option<Id>>)

  datatype EnvelopePatch = EnvelopePatch(
    groupId: Patch<Id>, name: Patch<string>, color: Patch<string>, icon: Patch<string>,
    note: Patch<Option<string>>, monthlyTarget: Patch<Option<Money>>, isSavings: Patch<bool>,
    sort: Patch<int>, archived: Patch<bool>)

  datatype Op =
    | TxnCreate(txn: TxnFields)
    | TxnUpdate(txn: TxnFields)
    | TxnDelete(id: Id)
    | AllocSet(envelopeId: Id, month: Month, amount: Money)
    | AccountCreate(id: Id, accountName: string, accountPatch: AccountPatch)
    | AccountUpdate(id: Id, accountPatch: AccountPatch)
    | AccountDelete(id: Id)
    | EnvelopeCreate(id: Id, groupId: Id, envelopeName: string, envelopePatch: EnvelopePatch)
    | EnvelopeUpdate(id: Id, envelopePatch: EnvelopePatch)
    | EnvelopeDelete(id: Id)
    | GroupCreate(group: Group)
    | GroupUpdate(id: Id, name: Patch<string>, sort: Patch<int>)
    | GroupDelete(id: Id)
    | CategoryCreate(id: Id, entryName: string)
    | CategoryUpdate(id: Id, name: Patch<string>, archived: Patch<bool>)
    | CategoryMerge(fromId: Id, intoId: Id)
    | CategoryDelete(id: Id)
    | PlaceCreate(id: Id, entryName: string)
    | PlaceUpdate(id: Id, name: Patch<string>, archived: Patch<bool>)
    | PlaceMerge(fromId: Id, intoId: Id)
    | PlaceDelete(id: Id)
    | BudgetUpdate(id: Id, currency: string)
    | UnknownKind

  const MISSING_CREATED_AT := "1970-01-01T00:00:00.000Z"

  function ItemAmount(i: Item): Money { i.amount }

  function SumItems(items: seq<Item>): Money { Sum(items, ItemAmount) }

  function BuildItems(txnId: Id, items: seq<ItemFields>): (r: seq<Item>)
    ensures |r| == |items|
  {
    seq(|items|, i requires 0 <= i < |items| =>
      Item(LocalItem(txnId, i), items[i].envelopeId, items[i].categoryId, items[i].amount))
  }

  function TxnFromCreate(p: TxnFields): Transaction {
    var split := |p.items| > 0;
    var transfer := p.kind == Transfer;
    Transaction(
      p.id, p.kind, p.accountId, if transfer then p.toAccountId else None, p.amount, p.date, p.isRefund,
      if transfer || split then None else p.envelopeId,
      p.placeId,
      if split then None else p.categoryId,
      p.name, p.note, OrNull(p.tag), OrNull(p.sourceRef),
      OrNull(p.allocationFrom), OrNull(p.allocationTo),
      BuildItems(p.id, p.items),
      if p.createdAt.Some? then p.createdAt.value else MISSING_CREATED_AT)
  }

  function TxnFromUpdate(prev: Transaction, p: TxnFields): Transaction {
    var split := |p.items| > 0;
    var transfer := p.kind == Transfer;
    Transaction(
      prev.id, p.kind, p.accountId, if transfer then p.toAccountId else None, p.amount, p.date, p.isRefund,
      if transfer || split then None else p.envelopeId,
      p.placeId,
      if split then None else p.categoryId,
      p.name, p.note, p.tag.Over(prev.tag), p.sourceRef.Over(prev.sourceRef),
      p.allocationFrom.Over(prev.allocationFrom), p.allocationTo.Over(prev.allocationTo),
      BuildItems(prev.id, p.items),
      prev.createdAt)
  }

  datatype SemanticIssue =
    | TransferNeedsTarget | ItemsDoNotAddUp | ExpenseWithAllocationFrom | ExpenseWithAllocationTo
    | IncomeWithAllocationFrom | IncomeWithEnvelopeAndAllocation

  /** The one semantic rule for write payloads, restored entities and merged updates. */
  function SemanticIssues(t: Transaction): seq<SemanticIssue> {
    (if t.kind == Transfer && t.toAccountId.None? then [TransferNeedsTarget] else []) +
    (if |t.items| > 0 && SumItems(t.items) != t.amount then [ItemsDoNotAddUp] else []) +
    (if t.kind == Expense && t.allocationFrom.Some? then [ExpenseWithAllocationFrom] else []) +
    (if t.kind == Expense && t.allocationTo.Some? then [ExpenseWithAllocationTo] else []) +
    (if t.kind == Income && t.allocationFrom.Some? then [IncomeWithAllocationFrom] else []) +
    (if t.kind == Income && t.envelopeId.Some? && t.allocationTo.Some? then [IncomeWithEnvelopeAndAllocation] else [])
  }

  predicate SemanticsValid(t: Transaction) { SemanticIssues(t) == [] }

  function MergeAccount(prev: Account, p: AccountPatch): Account {
    Account(
      prev.id, p.name.Over(prev.name), p.color.Over(prev.color), p.icon.Over(prev.icon), p.kind.Over(prev.kind),
      p.onBudget.Over(prev.onBudget), p.initialBalance.Over(prev.initialBalance), p.archived.Over(prev.archived),
      p.sort.Over(prev.sort), p.automaticEnvelopeId.Over(prev.automaticEnvelopeId))
  }

  function AccountFromCreate(id: Id, name: string, p: AccountPatch): Account {
    Account(
      id, name, p.color.Over("#54c6bd"), p.icon.Over("wallet"), p.kind.Over("checking"), p.onBudget.Over(true),
      p.initialBalance.Over(0), p.archived.Over(false), p.sort.Over(0), p.automaticEnvelopeId.Over(None))
  }

  function EnvelopeFromCreate(id: Id, groupId: Id, name: string, p: EnvelopePatch): Envelope {
    Envelope(
      id, groupId, name, p.color.Over("#f1dca0"), p.icon.Over("tag"), p.note.Over(None), p.monthlyTarget.Over(None),
      p.isSavings.Over(false), p.sort.Over(0), p.archived.Over(false))
  }

  function MergeEnvelope(prev: Envelope, p: EnvelopePatch): Envelope {
    Envelope(
      prev.id, p.groupId.Over(prev.groupId), p.name.Over(prev.name), p.color.Over(prev.color), p.icon.Over(prev.icon),
      p.note.Over(prev.note), p.monthlyTarget.Over(prev.monthlyTarget), p.isSavings.Over(prev.isSavings),
      p.sort.Over(prev.sort), p.archived.Over(prev.archived))
  }

  // ---- foreign-key effects of removing envelopes --------------------------------------------

  predicate Names(ref: Option<Id>, ids: set<Id>) { ref.Some? && ref.value in ids }

  function ClearRef(ref: Option<Id>, ids: set<Id>): Option<Id> { if Names(ref, ids) then None else ref }

  function EnvelopeOutside(ids: set<Id>): Envelope -> bool { (e: Envelope) => e.id !in ids }
  function AllocationOutside(ids: set<Id>): Allocation -> bool { (a: Allocation) => a.envelopeId !in ids }
  function ItemOutside(ids: set<Id>): Item -> bool { (i: Item) => i.envelopeId !in ids }

  function ClearAccount(ids: set<Id>): Account -> Account {
    (a: Account) => a.(automaticEnvelopeId := ClearRef(a.automaticEnvelopeId, ids))
  }

  function ClearTxn(ids: set<Id>): Transaction -> Transaction {
    (t: Transaction) => t.(
      envelopeId := ClearRef(t.envelopeId, ids),
      allocationFrom := ClearRef(t.allocationFrom, ids),
      allocationTo := ClearRef(t.allocationTo, ids),
      items := Filter(t.items, ItemOutside(ids)))
  }

  function DeleteEnvelopes(l: Ledger, ids: set<Id>): Ledger {
    l.(
      envelopes := Filter(l.envelopes, EnvelopeOutside(ids)),
      allocations := Filter(l.allocations, AllocationOutside(ids)),
      accounts := Map(l.accounts, ClearAccount(ids)),
      transactions := Map(l.transactions, ClearTxn(ids)))
  }

  function EnvelopesOfGroup(l: Ledger, groupId: Id): set<Id> {
    set i | 0 <= i < |l.envelopes| && l.envelopes[i].groupId == groupId :: l.envelopes[i].id
  }

  // ---- dictionary upkeep --------------------------------------------------------------------

  function MoveRef(ref: Option<Id>, fromId: Id, intoId: Id): Option<Id> {
    if ref == Some(fromId) then Some(intoId) else ref
  }

  function RecategoriseItem(fromId: Id, intoId: Id): Item -> Item {
    (i: Item) => i.(categoryId := MoveRef(i.categoryId, fromId, intoId))
  }

  function Recategorise(fromId: Id, intoId: Id): Transaction -> Transaction {
    (t: Transaction) => t.(categoryId := MoveRef(t.categoryId, fromId, intoId),
      items := Map(t.items, RecategoriseItem(fromId, intoId)))
  }

  function Replace(fromId: Id, intoId: Id): Transaction -> Transaction {
    (t: Transaction) => t.(placeId := MoveRef(t.placeId, fromId, intoId))
  }

  predicate CategoryUsed(l: Ledger, id: Id) {
    exists t :: t in l.transactions &&
      (t.categoryId == Some(id) || exists i :: i in t.items && i.categoryId == Some(id))
  }

  predicate PlaceUsed(l: Ledger, id: Id) {
    exists t :: t in l.transactions && t.placeId == Some(id)
  }

  function EntryPatch(name: Patch<string>, archived: Patch<bool>): Entry -> Entry {
    (e: Entry) => e.(name := name.Over(e.name), archived := archived.Over(e.archived))
  }

  function EntryOtherThan(id: Id): Entry -> bool { (e: Entry) => e.id != id }

  function ArchiveEntry(id: Id): Entry -> Entry { (e: Entry) => if e.id == id then e.(archived := true) else e }

  /** Archived while something still uses it, dropped otherwise. */
  function DropEntry(entries: seq<Entry>, id: Id, used: bool): seq<Entry> {
    if used then Map(entries, ArchiveEntry(id))
    else Filter(entries, EntryOtherThan(id))
  }

  // ---- the reducer --------------------------------------------------------------------------

  function UpdateTxn(p: TxnFields): Transaction -> Transaction {
    (prev: Transaction) => var next := TxnFromUpdate(prev, p); if SemanticsValid(next) then next else prev
  }

  function SetAmount(amount: Money): Allocation -> Allocation { (a: Allocation) => a.(amount := amount) }

  function TxnOtherThan(id: Id): Transaction -> bool { (t: Transaction) => t.id != id }

  function OffAccount(id: Id): Transaction -> bool {
    (t: Transaction) => t.accountId != id && t.toAccountId != Some(id)
  }

  function AccountOtherThan(id: Id): Account -> bool { (a: Account) => a.id != id }

  function AccountPatching(p: AccountPatch): Account -> Account { (a: Account) => MergeAccount(a, p) }

  function EnvelopePatching(p: EnvelopePatch): Envelope -> Envelope { (e: Envelope) => MergeEnvelope(e, p) }

  function GroupPatching(name: Patch<string>, sort: Patch<int>): Group -> Group {
    (g: Group) => g.(name := name.Over(g.name), sort := sort.Over(g.sort))
  }

  function GroupOtherThan(id: Id): Group -> bool { (g: Group) => g.id != id }

  function SetCurrency(currency: string): Budget -> Budget { (b: Budget) => b.(currency := currency) }

  function SetAllocation(l: Ledger, envelopeId: Id, month: Month, amount: Money): seq<Allocation> {
    if HasKey(l.allocations, AllocationKey, (envelopeId, month))
    then Update(l.allocations, AllocationKey, (envelopeId, month), SetAmount(amount))
    else l.allocations + [Allocation(LocalAllocation(envelopeId, month), envelopeId, month, amount)]
  }

  function ApplyOp(l: Ledger, op: Op): Ledger {
    match op
    case TxnCreate(p) => l.(transactions := Insert(l.transactions, TxnId, TxnFromCreate(p)))
    case TxnUpdate(p) => l.(transactions := Update(l.transactions, TxnId, p.id, UpdateTxn(p)))
    case TxnDelete(id) => l.(transactions := Filter(l.transactions, TxnOtherThan(id)))
    case AllocSet(envelopeId, month, amount) =>
      if HasKey(l.envelopes, EnvelopeId, envelopeId)
      then l.(allocations := SetAllocation(l, envelopeId, month, amount)) else l
    case AccountCreate(id, name, p) => l.(accounts := Insert(l.accounts, AccountId, AccountFromCreate(id, name, p)))
    case AccountUpdate(id, p) => l.(accounts := Update(l.accounts, AccountId, id, AccountPatching(p)))
    case AccountDelete(id) =>
      l.(accounts := Filter(l.accounts, AccountOtherThan(id)), transactions := Filter(l.transactions, OffAccount(id)))
    case EnvelopeCreate(id, groupId, name, p) =>
      l.(envelopes := Insert(l.envelopes, EnvelopeId, EnvelopeFromCreate(id, groupId, name, p)))
    case EnvelopeUpdate(id, p) => l.(envelopes := Update(l.envelopes, EnvelopeId, id, EnvelopePatching(p)))
    case EnvelopeDelete(id) => DeleteEnvelopes(l, {id})
    case GroupCreate(g) => l.(groups := Insert(l.groups, GroupId, g))
    case GroupUpdate(id, name, sort) => l.(groups := Update(l.groups, GroupId, id, GroupPatching(name, sort)))
    case GroupDelete(id) =>
      var next := DeleteEnvelopes(l, EnvelopesOfGroup(l, id));
      next.(groups := Filter(next.groups, GroupOtherThan(id)))
    case CategoryCreate(id, name) => l.(categories := Insert(l.categories, EntryId, Entry(id, name, false)))
    case CategoryUpdate(id, name, archived) =>
      l.(categories := Update(l.categories, EntryId, id, EntryPatch(name, archived)))
    case CategoryMerge(fromId, intoId) =>
      if HasKey(l.categories, EntryId, fromId) && HasKey(l.categories, EntryId, intoId)
      then l.(categories := Filter(l.categories, EntryOtherThan(fromId)),
              transactions := Map(l.transactions, Recategorise(fromId, intoId)))
      else l
    case CategoryDelete(id) => l.(categories := DropEntry(l.categories, id, CategoryUsed(l, id)))
    case PlaceCreate(id, name) => l.(places := Insert(l.places, EntryId, Entry(id, name, false)))
    case PlaceUpdate(id, name, archived) =>
      l.(places := Update(l.places, EntryId, id, EntryPatch(name, archived)))
    case PlaceMerge(fromId, intoId) =>
      if HasKey(l.places, EntryId, fromId) && HasKey(l.places, EntryId, intoId)
      then l.(places := Filter(l.places, EntryOtherThan(fromId)),
              transactions := Map(l.transactions, Replace(fromId, intoId)))
      else l
    case PlaceDelete(id) => l.(places := DropEntry(l.places, id, PlaceUsed(l, id)))
    case BudgetUpdate(id, currency) => l.(budgets := Update(l.budgets, BudgetId, id, SetCurrency(currency)))
    case UnknownKind => l
  }

  function Run(l: Ledger, ops: seq<Op>): Ledger
    decreases |ops|
  {
    if ops == [] then l else Run(ApplyOp(l, ops[0]), ops[1..])
  }

  lemma {:induction false} RunConcat(l: Ledger, a: seq<Op>, b: seq<Op>)
    ensures Run(l, a + b) == Run(Run(l, a), b)
    decreases |a|
  {
    if a == [] {
      assert a + b == b;
    } else {
      assert (a + b)[1..] == a[1..] + b;
      RunConcat(ApplyOp(l, a[0]), a[1..], b);
    }
  }

}
