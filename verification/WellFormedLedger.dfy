/** Referential integrity of the client ledger, and which operations keep it. */
module WellFormedLedger {
  import opened Sequences
  import opened Tables
  import opened Ledger

  function AccountIds(l: Ledger): set<Id> { Keys(l.accounts, AccountId) }
  function EnvelopeIds(l: Ledger): set<Id> { Keys(l.envelopes, EnvelopeId) }
  function GroupIds(l: Ledger): set<Id> { Keys(l.groups, GroupId) }

  predicate Resolves(ref: Option<Id>, ids: set<Id>) { ref.Some? ==> ref.value in ids }

  ghost predicate TxnResolved(t: Transaction, accounts: set<Id>, envelopes: set<Id>) {
    && t.accountId in accounts
    && Resolves(t.toAccountId, accounts)
    && Resolves(t.envelopeId, envelopes)
    && Resolves(t.allocationFrom, envelopes)
    && Resolves(t.allocationTo, envelopes)
    && forall i :: i in t.items ==> i.envelopeId in envelopes
  }

  ghost predicate DistinctIds(l: Ledger) {
    && Distinct(l.accounts, AccountId)
    && Distinct(l.groups, GroupId)
    && Distinct(l.envelopes, EnvelopeId)
    && Distinct(l.transactions, TxnId)
    && Distinct(l.allocations, AllocationKey)
    && Distinct(l.categories, EntryId)
    && Distinct(l.places, EntryId)
    && Distinct(l.budgets, BudgetId)
  }

  ghost predicate Resolved(l: Ledger) {
    && (forall a :: a in l.accounts ==> Resolves(a.automaticEnvelopeId, EnvelopeIds(l)))
    && (forall e :: e in l.envelopes ==> e.groupId in GroupIds(l))
    && (forall a :: a in l.allocations ==> a.envelopeId in EnvelopeIds(l))
    && (forall t :: t in l.transactions ==> TxnResolved(t, AccountIds(l), EnvelopeIds(l)))
  }

  /** Keys are distinct and every reference the schema enforces points at a row. */
  ghost predicate WellFormed(l: Ledger) { DistinctIds(l) && Resolved(l) }

  predicate PatchResolves(ref: Patch<Option<Id>>, ids: set<Id>) { ref.Put? ==> Resolves(ref.value, ids) }

  ghost predicate PayloadResolved(p: TxnFields, accounts: set<Id>, envelopes: set<Id>) {
    && p.accountId in accounts
    && Resolves(p.toAccountId, accounts)
    && Resolves(p.envelopeId, envelopes)
    && PatchResolves(p.allocationFrom, envelopes)
    && PatchResolves(p.allocationTo, envelopes)
    && forall i :: i in p.items ==> i.envelopeId in envelopes
  }

  /** What an operation names exists at the time it is applied. */
  ghost predicate RefsExist(l: Ledger, op: Op) {
    match op
    case TxnCreate(p) => PayloadResolved(p, AccountIds(l), EnvelopeIds(l))
    case TxnUpdate(p) => PayloadResolved(p, AccountIds(l), EnvelopeIds(l))
    case AccountCreate(_, _, p) => PatchResolves(p.automaticEnvelopeId, EnvelopeIds(l))
    case AccountUpdate(_, p) => PatchResolves(p.automaticEnvelopeId, EnvelopeIds(l))
    case EnvelopeCreate(_, groupId, _, _) => groupId in GroupIds(l)
    case EnvelopeUpdate(_, p) => p.groupId.Put? ==> p.groupId.value in GroupIds(l)
    case _ => true
  }

  lemma BuiltItems(txnId: Id, items: seq<ItemFields>)
    ensures forall i :: i in BuildItems(txnId, items) ==> exists f :: f in items && f.envelopeId == i.envelopeId
  {
    var built := BuildItems(txnId, items);
    forall j | 0 <= j < |built| ensures exists f :: f in items && f.envelopeId == built[j].envelopeId {
      assert items[j] in items;
    }
  }

  lemma CreatedResolves(p: TxnFields, accounts: set<Id>, envelopes: set<Id>)
    requires PayloadResolved(p, accounts, envelopes)
    ensures TxnResolved(TxnFromCreate(p), accounts, envelopes)
  {
    BuiltItems(p.id, p.items);
  }

  lemma UpdatedResolves(prev: Transaction, p: TxnFields, accounts: set<Id>, envelopes: set<Id>)
    requires PayloadResolved(p, accounts, envelopes) && TxnResolved(prev, accounts, envelopes)
    ensures TxnResolved(UpdateTxn(p)(prev), accounts, envelopes)
  {
    BuiltItems(prev.id, p.items);
  }

  lemma UpdateElements<T(!new), K>(rows: seq<T>, key: T -> K, k: K, f: T -> T)
    ensures forall x :: x in Update(rows, key, k, f) ==> x in rows || exists y :: y in rows && x == f(y)
  {
    var i := FindKey(rows, key, k);
    if i >= 0 { assert rows[i] in rows; }
  }

  lemma MapElements<A(!new), B(!new)>(s: seq<A>, f: A -> B)
    ensures forall y :: y in Map(s, f) ==> exists x :: x in s && y == f(x)
  {
    forall i | 0 <= i < |s| ensures exists x :: x in s && Map(s, f)[i] == f(x) { assert s[i] in s; }
  }

  lemma KeysFilter<T(!new), K>(rows: seq<T>, key: T -> K, p: T -> bool)
    ensures Keys(Filter(rows, p), key) <= Keys(rows, key)
    ensures forall x :: x in rows && p(x) ==> key(x) in Keys(Filter(rows, p), key)
  {
  }

  lemma DeleteEnvelopesIds(l: Ledger, ids: set<Id>)
    requires DistinctIds(l)
    ensures DistinctIds(DeleteEnvelopes(l, ids))
    ensures EnvelopeIds(DeleteEnvelopes(l, ids)) == EnvelopeIds(l) - ids
    ensures AccountIds(DeleteEnvelopes(l, ids)) == AccountIds(l)
  {
    DistinctFilter(l.envelopes, EnvelopeId, EnvelopeOutside(ids));
    DistinctFilter(l.allocations, AllocationKey, AllocationOutside(ids));
    DistinctMap(l.accounts, AccountId, ClearAccount(ids));
    DistinctMap(l.transactions, TxnId, ClearTxn(ids));
    KeysFilter(l.envelopes, EnvelopeId, EnvelopeOutside(ids));
  }

  lemma ClearedResolves(t: Transaction, accounts: set<Id>, envelopes: set<Id>, ids: set<Id>)
    requires TxnResolved(t, accounts, envelopes)
    ensures TxnResolved(ClearTxn(ids)(t), accounts, envelopes - ids)
  {
  }

  lemma DeleteEnvelopesKeeps(l: Ledger, ids: set<Id>)
    requires WellFormed(l)
    ensures WellFormed(DeleteEnvelopes(l, ids))
  {
    var after := DeleteEnvelopes(l, ids);
    DeleteEnvelopesIds(l, ids);
    MapElements(l.accounts, ClearAccount(ids));
    MapElements(l.transactions, ClearTxn(ids));
    forall t | t in after.transactions ensures TxnResolved(t, AccountIds(after), EnvelopeIds(after)) {
      var before :| before in l.transactions && t == ClearTxn(ids)(before);
      ClearedResolves(before, AccountIds(l), EnvelopeIds(l), ids);
    }
    assert GroupIds(after) == GroupIds(l);
  }

  lemma UpdateTxnKeepsId(p: TxnFields)
    ensures Preserves(TxnId, UpdateTxn(p))
  {
  }

  lemma UpdatedRowsResolve(rows: seq<Transaction>, p: TxnFields, accounts: set<Id>, envelopes: set<Id>)
    requires forall t :: t in rows ==> TxnResolved(t, accounts, envelopes)
    requires PayloadResolved(p, accounts, envelopes)
    ensures forall t :: t in Update(rows, TxnId, p.id, UpdateTxn(p)) ==> TxnResolved(t, accounts, envelopes)
  {
    var i := FindKey(rows, TxnId, p.id);
    if i >= 0 {
      assert rows[i] in rows;
      UpdatedResolves(rows[i], p, accounts, envelopes);
    }
  }

  lemma RowUpdateKeeps(l: Ledger, id: Id, f: Transaction -> Transaction)
    requires WellFormed(l) && Preserves(TxnId, f)
    requires forall t :: t in Update(l.transactions, TxnId, id, f) ==> TxnResolved(t, AccountIds(l), EnvelopeIds(l))
    ensures WellFormed(l.(transactions := Update(l.transactions, TxnId, id, f)))
  {
    DistinctUpdate(l.transactions, TxnId, id, f);
  }

  lemma TransactionOpKeeps(l: Ledger, op: Op)
    requires WellFormed(l) && RefsExist(l, op)
    requires op.TxnCreate? || op.TxnUpdate? || op.TxnDelete?
    ensures WellFormed(ApplyOp(l, op))
  {
    match op
    case TxnCreate(p) =>
      CreatedResolves(p, AccountIds(l), EnvelopeIds(l));
      DistinctInsert(l.transactions, TxnId, TxnFromCreate(p));
    case TxnUpdate(p) =>
      UpdatedRowsResolve(l.transactions, p, AccountIds(l), EnvelopeIds(l));
      UpdateTxnKeepsId(p);
      RowUpdateKeeps(l, p.id, UpdateTxn(p));
    case TxnDelete(id) =>
      DistinctFilter(l.transactions, TxnId, TxnOtherThan(id));
  }

  lemma SetAllocationKeeps(l: Ledger, envelopeId: Id, month: Month, amount: Money)
    requires WellFormed(l) && HasKey(l.envelopes, EnvelopeId, envelopeId)
    ensures WellFormed(l.(allocations := SetAllocation(l, envelopeId, month, amount)))
    ensures Keys(SetAllocation(l, envelopeId, month, amount), AllocationKey)
         == Keys(l.allocations, AllocationKey) + {(envelopeId, month)}
  {
    var row := Allocation(LocalAllocation(envelopeId, month), envelopeId, month, amount);
    DistinctInsert(l.allocations, AllocationKey, row);
    DistinctUpdate(l.allocations, AllocationKey, (envelopeId, month), SetAmount(amount));
    UpdateElements(l.allocations, AllocationKey, (envelopeId, month), SetAmount(amount));
  }

  lemma AccountDropResolves(t: Transaction, accounts: set<Id>, left: set<Id>, envelopes: set<Id>, id: Id)
    requires TxnResolved(t, accounts, envelopes) && OffAccount(id)(t) && accounts - {id} <= left
    ensures TxnResolved(t, left, envelopes)
  {
  }

  lemma AccountDeleteKeeps(l: Ledger, id: Id)
    requires WellFormed(l)
    ensures WellFormed(ApplyOp(l, AccountDelete(id)))
  {
    var accounts, rows := Filter(l.accounts, AccountOtherThan(id)), Filter(l.transactions, OffAccount(id));
    DistinctFilter(l.accounts, AccountId, AccountOtherThan(id));
    DistinctFilter(l.transactions, TxnId, OffAccount(id));
    KeysFilter(l.accounts, AccountId, AccountOtherThan(id));
    assert AccountIds(l) - {id} <= Keys(accounts, AccountId);
    hide Distinct, Keys, TxnResolved, OffAccount, AccountOtherThan;
    forall t | t in rows ensures TxnResolved(t, Keys(accounts, AccountId), EnvelopeIds(l)) {
      AccountDropResolves(t, AccountIds(l), Keys(accounts, AccountId), EnvelopeIds(l), id);
    }
  }

  lemma AccountCreateKeeps(l: Ledger, row: Account)
    requires WellFormed(l) && Resolves(row.automaticEnvelopeId, EnvelopeIds(l))
    ensures WellFormed(l.(accounts := Insert(l.accounts, AccountId, row)))
  {
    DistinctInsert(l.accounts, AccountId, row);
    hide Distinct;
  }

  lemma AccountUpdateKeeps(l: Ledger, id: Id, p: AccountPatch)
    requires WellFormed(l) && PatchResolves(p.automaticEnvelopeId, EnvelopeIds(l))
    ensures WellFormed(l.(accounts := Update(l.accounts, AccountId, id, AccountPatching(p))))
  {
    DistinctUpdate(l.accounts, AccountId, id, AccountPatching(p));
    UpdateElements(l.accounts, AccountId, id, AccountPatching(p));
    hide Distinct, Update;
  }

  lemma EnvelopeCreateKeeps(l: Ledger, row: Envelope)
    requires WellFormed(l) && row.groupId in GroupIds(l)
    ensures WellFormed(l.(envelopes := Insert(l.envelopes, EnvelopeId, row)))
  {
    DistinctInsert(l.envelopes, EnvelopeId, row);
    hide Distinct;
  }

  lemma EnvelopeUpdateKeeps(l: Ledger, id: Id, p: EnvelopePatch)
    requires WellFormed(l) && (p.groupId.Put? ==> p.groupId.value in GroupIds(l))
    ensures WellFormed(l.(envelopes := Update(l.envelopes, EnvelopeId, id, EnvelopePatching(p))))
  {
    DistinctUpdate(l.envelopes, EnvelopeId, id, EnvelopePatching(p));
    UpdateElements(l.envelopes, EnvelopeId, id, EnvelopePatching(p));
    hide Distinct, Update;
  }

  lemma GroupsKeep(l: Ledger, groups: seq<Group>)
    requires WellFormed(l) && Distinct(groups, GroupId) && GroupIds(l) <= Keys(groups, GroupId)
    ensures WellFormed(l.(groups := groups))
  {
    hide Distinct, TxnResolved;
  }

  lemma GroupIsEmptied(l: Ledger, id: Id)
    ensures forall e :: e in DeleteEnvelopes(l, EnvelopesOfGroup(l, id)).envelopes ==> e.groupId != id
  {
    forall e | e in Filter(l.envelopes, EnvelopeOutside(EnvelopesOfGroup(l, id))) ensures e.groupId != id {
      assert e in l.envelopes;
    }
  }

  lemma GroupDropKeeps(l: Ledger, id: Id)
    requires WellFormed(l) && forall e :: e in l.envelopes ==> e.groupId != id
    ensures WellFormed(l.(groups := Filter(l.groups, GroupOtherThan(id))))
  {
    DistinctFilter(l.groups, GroupId, GroupOtherThan(id));
    KeysFilter(l.groups, GroupId, GroupOtherThan(id));
    hide Distinct, Filter, TxnResolved;
    forall e | e in l.envelopes ensures e.groupId in Keys(Filter(l.groups, GroupOtherThan(id)), GroupId) {
      assert e.groupId in GroupIds(l);
    }
  }

  lemma GroupDeleteKeeps(l: Ledger, id: Id)
    requires WellFormed(l)
    ensures WellFormed(ApplyOp(l, GroupDelete(id)))
  {
    hide WellFormed, DeleteEnvelopes, EnvelopesOfGroup;
    DeleteEnvelopesKeeps(l, EnvelopesOfGroup(l, id));
    GroupIsEmptied(l, id);
    GroupDropKeeps(DeleteEnvelopes(l, EnvelopesOfGroup(l, id)), id);
  }

  lemma RecategorisedResolve(
    rows: seq<Transaction>, accounts: set<Id>, envelopes: set<Id>, fromId: Id, intoId: Id)
    requires forall t :: t in rows ==> TxnResolved(t, accounts, envelopes)
    ensures forall t :: t in Map(rows, Recategorise(fromId, intoId)) ==> TxnResolved(t, accounts, envelopes)
  {
    forall j | 0 <= j < |rows| ensures TxnResolved(Recategorise(fromId, intoId)(rows[j]), accounts, envelopes) {
      assert rows[j] in rows;
      MapElements(rows[j].items, RecategoriseItem(fromId, intoId));
    }
  }

  lemma CategoryMergeKeeps(l: Ledger, fromId: Id, intoId: Id)
    requires WellFormed(l)
    ensures WellFormed(ApplyOp(l, CategoryMerge(fromId, intoId)))
  {
    DistinctFilter(l.categories, EntryId, EntryOtherThan(fromId));
    assert Preserves(TxnId, Recategorise(fromId, intoId));
    DistinctMap(l.transactions, TxnId, Recategorise(fromId, intoId));
    RecategorisedResolve(l.transactions, AccountIds(l), EnvelopeIds(l), fromId, intoId);
    hide Distinct, TxnResolved, Preserves, Recategorise, Filter, Map, HasKey, Keys;
  }

  lemma ReplacedResolve(rows: seq<Transaction>, accounts: set<Id>, envelopes: set<Id>, fromId: Id, intoId: Id)
    requires forall t :: t in rows ==> TxnResolved(t, accounts, envelopes)
    ensures forall t :: t in Map(rows, Replace(fromId, intoId)) ==> TxnResolved(t, accounts, envelopes)
  {
    forall j | 0 <= j < |rows| ensures TxnResolved(Replace(fromId, intoId)(rows[j]), accounts, envelopes) {
      assert rows[j] in rows;
    }
  }

  lemma PlaceMergeKeeps(l: Ledger, fromId: Id, intoId: Id)
    requires WellFormed(l)
    ensures WellFormed(ApplyOp(l, PlaceMerge(fromId, intoId)))
  {
    DistinctFilter(l.places, EntryId, EntryOtherThan(fromId));
    assert Preserves(TxnId, Replace(fromId, intoId));
    DistinctMap(l.transactions, TxnId, Replace(fromId, intoId));
    ReplacedResolve(l.transactions, AccountIds(l), EnvelopeIds(l), fromId, intoId);
    hide Distinct, TxnResolved, Preserves, Replace, Filter, Map, HasKey, Keys;
  }

  lemma DictionariesKeep(l: Ledger, categories: seq<Entry>, places: seq<Entry>)
    requires WellFormed(l) && Distinct(categories, EntryId) && Distinct(places, EntryId)
    ensures WellFormed(l.(categories := categories, places := places))
  {
    hide Distinct, TxnResolved, Keys;
  }

  lemma DropEntryDistinct(entries: seq<Entry>, id: Id, used: bool)
    requires Distinct(entries, EntryId)
    ensures Distinct(DropEntry(entries, id, used), EntryId)
  {
    DistinctMap(entries, EntryId, ArchiveEntry(id));
    DistinctFilter(entries, EntryId, EntryOtherThan(id));
  }

  lemma DictionaryOpKeeps(l: Ledger, op: Op)
    requires WellFormed(l)
    requires op.CategoryCreate? || op.CategoryUpdate? || op.CategoryDelete? || op.PlaceCreate? || op.PlaceUpdate? ||
      op.PlaceDelete?
    ensures WellFormed(ApplyOp(l, op))
  {
    var after := ApplyOp(l, op);
    assert Distinct(after.categories, EntryId) && Distinct(after.places, EntryId) by {
      hide Distinct, Resolved, CategoryUsed, PlaceUsed, DropEntry, Insert, Update;
      match op
      case CategoryCreate(id, name) => DistinctInsert(l.categories, EntryId, Entry(id, name, false));
      case CategoryUpdate(id, name, archived) => DistinctUpdate(l.categories, EntryId, id, EntryPatch(name, archived));
      case CategoryDelete(id) => DropEntryDistinct(l.categories, id, CategoryUsed(l, id));
      case PlaceCreate(id, name) => DistinctInsert(l.places, EntryId, Entry(id, name, false));
      case PlaceUpdate(id, name, archived) => DistinctUpdate(l.places, EntryId, id, EntryPatch(name, archived));
      case PlaceDelete(id) => DropEntryDistinct(l.places, id, PlaceUsed(l, id));
    }
    hide WellFormed, Distinct, CategoryUsed, PlaceUsed, DropEntry, Insert, Update;
    DictionariesKeep(l, after.categories, after.places);
  }

  lemma BudgetsKeep(l: Ledger, budgets: seq<Budget>)
    requires WellFormed(l) && Distinct(budgets, BudgetId)
    ensures WellFormed(l.(budgets := budgets))
  {
    hide Distinct, TxnResolved, Keys;
  }

  /** Every operation whose references exist keeps the ledger well formed, whatever its kind. */
  lemma OpKeepsWellFormed(l: Ledger, op: Op)
    requires WellFormed(l) && RefsExist(l, op)
    ensures WellFormed(ApplyOp(l, op))
  {
    assert DistinctIds(l);
    hide WellFormed, Distinct, Insert, Update, SetAllocation, DeleteEnvelopes;
    match op
    case TxnCreate(_) => TransactionOpKeeps(l, op);
    case TxnUpdate(_) => TransactionOpKeeps(l, op);
    case TxnDelete(_) => TransactionOpKeeps(l, op);
    case AllocSet(envelopeId, month, amount) =>
      if HasKey(l.envelopes, EnvelopeId, envelopeId) { SetAllocationKeeps(l, envelopeId, month, amount); }
    case AccountCreate(id, name, p) => AccountCreateKeeps(l, AccountFromCreate(id, name, p));
    case AccountUpdate(id, p) => AccountUpdateKeeps(l, id, p);
    case AccountDelete(id) => AccountDeleteKeeps(l, id);
    case EnvelopeCreate(id, groupId, name, p) => EnvelopeCreateKeeps(l, EnvelopeFromCreate(id, groupId, name, p));
    case EnvelopeUpdate(id, p) => EnvelopeUpdateKeeps(l, id, p);
    case EnvelopeDelete(id) => DeleteEnvelopesKeeps(l, {id});
    case GroupCreate(g) =>
      DistinctInsert(l.groups, GroupId, g);
      GroupsKeep(l, Insert(l.groups, GroupId, g));
    case GroupUpdate(id, name, sort) =>
      DistinctUpdate(l.groups, GroupId, id, GroupPatching(name, sort));
      GroupsKeep(l, Update(l.groups, GroupId, id, GroupPatching(name, sort)));
    case GroupDelete(id) => GroupDeleteKeeps(l, id);
    case BudgetUpdate(id, currency) =>
      DistinctUpdate(l.budgets, BudgetId, id, SetCurrency(currency));
      BudgetsKeep(l, Update(l.budgets, BudgetId, id, SetCurrency(currency)));
    case CategoryMerge(fromId, intoId) => CategoryMergeKeeps(l, fromId, intoId);
    case PlaceMerge(fromId, intoId) => PlaceMergeKeeps(l, fromId, intoId);
    case UnknownKind =>
    case _ => DictionaryOpKeeps(l, op);
  }
}
