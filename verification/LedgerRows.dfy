// What each operation leaves in the ledger, field by field.
//
// The rows are read off the ledger before and after the operation, without the functions that build
// them: a field is the payload's or the old one, a reference is cleared or moved, a row is kept,
// appended or dropped, and everything else stands.
module LedgerRows {
  import opened Sequences
  import opened Tables
  import opened Ledger
  import opened WellFormedLedger

  /** A field a patch sets, or leaves as it was. */
  predicate Sets<T(==)>(patch: Patch<T>, before: T, after: T) {
    (patch.Put? ==> after == patch.value) && (patch.Keep? ==> after == before)
  }

  /** A field a create sets, or gives a default. */
  predicate Starts<T(==)>(patch: Patch<T>, default: T, after: T) {
    (patch.Put? ==> after == patch.value) && (patch.Keep? ==> after == default)
  }

  /** All collections but the transactions stand. */
  predicate OnlyTransactions(a: Ledger, b: Ledger) {
    && a.accounts == b.accounts && a.groups == b.groups && a.envelopes == b.envelopes && a.allocations == b.allocations
    && a.categories == b.categories && a.places == b.places && a.budgets == b.budgets
  }

  // ---- a transaction is created or updated --------------------------------------------------------

  /** The items of a split, in the order sent. */
  predicate ItemsOf(p: TxnFields, txnId: Id, items: seq<Item>) {
    |items| == |p.items| &&
    forall k :: 0 <= k < |items| ==>
      items[k].id == LocalItem(txnId, k) && items[k].envelopeId == p.items[k].envelopeId &&
      items[k].categoryId == p.items[k].categoryId && items[k].amount == p.items[k].amount
  }

  /** What create and update write alike: a transfer has no envelope, a split neither envelope nor category. */
  predicate PayloadIn(p: TxnFields, x: Transaction) {
    && x.id == p.id && x.kind == p.kind && x.accountId == p.accountId && x.amount == p.amount && x.date == p.date
    && x.isRefund == p.isRefund && x.placeId == p.placeId && x.name == p.name && x.note == p.note
    && (p.kind == Transfer ==> x.toAccountId == p.toAccountId && x.envelopeId == None)
    && (p.kind != Transfer ==> x.toAccountId == None)
    && (p.items != [] ==> x.envelopeId == None && x.categoryId == None)
    && (p.items == [] ==> x.categoryId == p.categoryId)
    && (p.items == [] && p.kind != Transfer ==> x.envelopeId == p.envelopeId)
    && ItemsOf(p, p.id, x.items)
  }

  predicate WrittenOver(p: TxnFields, prev: Transaction, x: Transaction) {
    && PayloadIn(p, x) && x.createdAt == prev.createdAt
    && Sets(p.tag, prev.tag, x.tag) && Sets(p.sourceRef, prev.sourceRef, x.sourceRef)
    && Sets(p.allocationFrom, prev.allocationFrom, x.allocationFrom)
    && Sets(p.allocationTo, prev.allocationTo, x.allocationTo)
  }

  predicate WrittenAnew(p: TxnFields, x: Transaction) {
    && PayloadIn(p, x)
    && (p.createdAt.Some? ==> x.createdAt == p.createdAt.value)
    && (p.createdAt.None? ==> x.createdAt == "1970-01-01T00:00:00.000Z")
    && Starts(p.tag, None, x.tag) && Starts(p.sourceRef, None, x.sourceRef)
    && Starts(p.allocationFrom, None, x.allocationFrom) && Starts(p.allocationTo, None, x.allocationTo)
  }

  /** A transfer has a target, a split adds up, an expense has no allocation, an income at most one kind of target. */
  predicate Sound(x: Transaction) {
    && (x.kind == Transfer ==> x.toAccountId.Some?)
    && (x.items != [] ==> Sum(x.items, (i: Item) => i.amount) == x.amount)
    && (x.kind == Expense ==> x.allocationFrom.None? && x.allocationTo.None?)
    && (x.kind == Income ==> x.allocationFrom.None?)
    && !(x.kind == Income && x.envelopeId.Some? && x.allocationTo.Some?)
  }

  lemma SoundIsValid(x: Transaction)
    ensures SemanticsValid(x) <==> Sound(x)
  {
    SumEqual(x.items, ItemAmount, (i: Item) => i.amount);
  }

  lemma UpdateBuilds(prev: Transaction, p: TxnFields)
    requires prev.id == p.id
    ensures WrittenOver(p, prev, TxnFromUpdate(prev, p))
  {
  }

  lemma CreateBuilds(p: TxnFields)
    ensures WrittenAnew(p, TxnFromCreate(p))
  {
  }

  /** The payload leaves nothing open. */
  lemma WrittenOnce(p: TxnFields, prev: Transaction, x: Transaction, y: Transaction)
    requires WrittenOver(p, prev, x) && WrittenOver(p, prev, y)
    ensures x == y
  {
    assert x.items == y.items;
  }

  /** An accepted update writes the payload into its row and touches nothing else; a refused one does nothing. */
  ghost predicate Updated(p: TxnFields, before: seq<Transaction>, after: seq<Transaction>) {
    |after| == |before| &&
    forall i :: 0 <= i < |before| ==>
      if before[i].id == p.id then RowUpdated(p, before[i], after[i]) else after[i] == before[i]
  }

  ghost predicate RowUpdated(p: TxnFields, prev: Transaction, x: Transaction) {
    || (WrittenOver(p, prev, x) && Sound(x))
    || (x == prev && forall y :: WrittenOver(p, prev, y) ==> !Sound(y))
  }

  lemma UpdateWrites(l: Ledger, p: TxnFields)
    requires DistinctIds(l)
    ensures var after := ApplyOp(l, TxnUpdate(p));
      OnlyTransactions(l, after) && Updated(p, l.transactions, after.transactions)
  {
    hide UpdateTxn, RowUpdated;
    var rows, after := l.transactions, ApplyOp(l, TxnUpdate(p)).transactions;
    UpdateIsMap(rows, TxnId, p.id, UpdateTxn(p));
    forall i | 0 <= i < |rows| && rows[i].id == p.id ensures RowUpdated(p, rows[i], after[i]) {
      UpdatedRow(p, rows[i]);
    }
  }

  lemma UpdatedRow(p: TxnFields, prev: Transaction)
    requires prev.id == p.id
    ensures RowUpdated(p, prev, UpdateTxn(p)(prev))
  {
    var next := TxnFromUpdate(prev, p);
    UpdateBuilds(prev, p);
    SoundIsValid(next);
    assert UpdateTxn(p)(prev) == if SemanticsValid(next) then next else prev;
    hide TxnFromUpdate, SemanticsValid, Sound, WrittenOver;
    forall y | WrittenOver(p, prev, y) ensures y == next { WrittenOnce(p, prev, y, next); }
  }

  lemma CreateWrites(l: Ledger, p: TxnFields)
    ensures var after := ApplyOp(l, TxnCreate(p));
      && OnlyTransactions(l, after)
      && (if exists t :: t in l.transactions && t.id == p.id then after.transactions == l.transactions
          else exists x :: WrittenAnew(p, x) && after.transactions == l.transactions + [x])
  {
    CreateBuilds(p);
    Present(l.transactions, TxnId, p.id);
    var x := TxnFromCreate(p);
    assert x.id == p.id;
    hide TxnFromCreate, WrittenAnew;
    assert ApplyOp(l, TxnCreate(p)).transactions == Insert(l.transactions, TxnId, x);
  }

  lemma Present<T(!new), K>(rows: seq<T>, key: T -> K, k: K)
    ensures HasKey(rows, key, k) <==> exists x :: x in rows && key(x) == k
  {
    if HasKey(rows, key, k) {
      var i :| 0 <= i < |rows| && key(rows[i]) == k;
      assert rows[i] in rows;
    }
  }

  /** Written over a row or created anew, the same payload leaves the same in every field it sends. */
  lemma UpdateAgreesWithCreate(p: TxnFields, prev: Transaction, x: Transaction, c: Transaction)
    requires WrittenOver(p, prev, x) && WrittenAnew(p, c)
    ensures c == x.(createdAt := c.createdAt, tag := c.tag, sourceRef := c.sourceRef,
                    allocationFrom := c.allocationFrom, allocationTo := c.allocationTo)
    ensures (p.tag.Put? ==> x.tag == c.tag) && (p.sourceRef.Put? ==> x.sourceRef == c.sourceRef)
    ensures (p.allocationFrom.Put? ==> x.allocationFrom == c.allocationFrom)
    ensures (p.allocationTo.Put? ==> x.allocationTo == c.allocationTo)
  {
    assert x.items == c.items;
  }

  // ---- rows are dropped ---------------------------------------------------------------------------

  lemma DeleteDrops(l: Ledger, id: Id)
    ensures var after := ApplyOp(l, TxnDelete(id));
      OnlyTransactions(l, after) && after.transactions == Filter(l.transactions, (t: Transaction) => t.id != id)
  {
    FilterAgrees(l.transactions, TxnOtherThan(id), (t: Transaction) => t.id != id);
  }

  /** An account goes with every transaction it is the source or the target of. */
  lemma AccountDeleteDrops(l: Ledger, id: Id)
    ensures var after := ApplyOp(l, AccountDelete(id));
      && after == l.(accounts := after.accounts, transactions := after.transactions)
      && after.accounts == Filter(l.accounts, (a: Account) => a.id != id)
      && after.transactions == Filter(l.transactions, (t: Transaction) => t.accountId != id &&
        t.toAccountId != Some(id))
  {
    FilterAgrees(l.accounts, AccountOtherThan(id), (a: Account) => a.id != id);
    FilterAgrees(l.transactions, OffAccount(id), (t: Transaction) => t.accountId != id && t.toAccountId != Some(id));
  }

  // ---- envelopes are dropped ----------------------------------------------------------------------

  /** A reference to one of the ids is null, any other as it was. */
  predicate Cleared(ids: set<Id>, before: Option<Id>, after: Option<Id>) {
    if before.Some? && before.value in ids then after == None else after == before
  }

  /** Envelopes, their allocations and their split items go; references to them become null; all else stands. */
  predicate EnvelopesGone(ids: set<Id>, l: Ledger, after: Ledger) {
    && after.envelopes == Filter(l.envelopes, (e: Envelope) => e.id !in ids)
    && after.allocations == Filter(l.allocations, (a: Allocation) => a.envelopeId !in ids)
    && |after.accounts| == |l.accounts| && |after.transactions| == |l.transactions|
    && (forall i :: 0 <= i < |l.accounts| ==>
      Cleared(ids, l.accounts[i].automaticEnvelopeId, after.accounts[i].automaticEnvelopeId) &&
      after.accounts[i] == l.accounts[i].(automaticEnvelopeId := after.accounts[i].automaticEnvelopeId))
    && (forall i :: 0 <= i < |l.transactions| ==> RowCleared(ids, l.transactions[i], after.transactions[i]))
    && after.categories == l.categories && after.places == l.places && after.budgets == l.budgets
  }

  predicate RowCleared(ids: set<Id>, t: Transaction, x: Transaction) {
    && Cleared(ids, t.envelopeId, x.envelopeId)
    && Cleared(ids, t.allocationFrom, x.allocationFrom) && Cleared(ids, t.allocationTo, x.allocationTo)
    && x.items == Filter(t.items, (i: Item) => i.envelopeId !in ids)
    && x == t.(envelopeId := x.envelopeId, allocationFrom := x.allocationFrom, allocationTo := x.allocationTo,
      items := x.items)
  }

  lemma RowClears(ids: set<Id>, t: Transaction)
    ensures RowCleared(ids, t, ClearTxn(ids)(t))
  {
    FilterAgrees(t.items, ItemOutside(ids), (i: Item) => i.envelopeId !in ids);
    hide Filter;
  }

  lemma EnvelopesDrop(l: Ledger, ids: set<Id>)
    ensures EnvelopesGone(ids, l, DeleteEnvelopes(l, ids)) && DeleteEnvelopes(l, ids).groups == l.groups
  {
    FilterAgrees(l.envelopes, EnvelopeOutside(ids), (e: Envelope) => e.id !in ids);
    FilterAgrees(l.allocations, AllocationOutside(ids), (a: Allocation) => a.envelopeId !in ids);
    forall i | 0 <= i < |l.transactions| ensures RowCleared(ids, l.transactions[i], ClearTxn(ids)(l.transactions[i])) {
      RowClears(ids, l.transactions[i]);
    }
    hide RowCleared, ClearTxn, Filter;
  }

  lemma EnvelopeDeleteDrops(l: Ledger, id: Id)
    ensures EnvelopesGone({id}, l, ApplyOp(l, EnvelopeDelete(id))) && ApplyOp(l, EnvelopeDelete(id)).groups == l.groups
  {
    hide EnvelopesGone, DeleteEnvelopes;
    EnvelopesDrop(l, {id});
  }

  /** The envelopes of a group go with it. */
  lemma GroupDeleteDrops(l: Ledger, id: Id)
    ensures var after := ApplyOp(l, GroupDelete(id));
      && EnvelopesGone(set e | e in l.envelopes && e.groupId == id :: e.id, l, after)
      && after.groups == Filter(l.groups, (g: Group) => g.id != id)
  {
    var ids := EnvelopesOfGroup(l, id);
    assert ids == set e | e in l.envelopes && e.groupId == id :: e.id by {
      forall e | e in l.envelopes && e.groupId == id ensures e.id in ids {
        var i :| 0 <= i < |l.envelopes| && l.envelopes[i] == e;
        assert l.envelopes[i].groupId == id;
      }
    }
    EnvelopesDrop(l, ids);
    FilterAgrees(l.groups, GroupOtherThan(id), (g: Group) => g.id != id);
    hide DeleteEnvelopes, RowCleared, Filter, EnvelopesOfGroup;
  }

  // ---- patches ------------------------------------------------------------------------------------

  predicate AccountPatched(p: AccountPatch, a: Account, x: Account) {
    && x.id == a.id && Sets(p.name, a.name, x.name) && Sets(p.color, a.color, x.color) && Sets(p.icon, a.icon, x.icon)
    && Sets(p.kind, a.kind, x.kind) && Sets(p.onBudget, a.onBudget, x.onBudget)
    && Sets(p.initialBalance, a.initialBalance, x.initialBalance) && Sets(p.archived, a.archived, x.archived)
    && Sets(p.sort, a.sort, x.sort) && Sets(p.automaticEnvelopeId, a.automaticEnvelopeId, x.automaticEnvelopeId)
  }

  /** Sent fields are set, the others kept, in the row with the id; all else stands. */
  lemma AccountUpdateSets(l: Ledger, id: Id, p: AccountPatch)
    requires DistinctIds(l)
    ensures var after := ApplyOp(l, AccountUpdate(id, p));
      && after == l.(accounts := after.accounts) && |after.accounts| == |l.accounts|
      && forall i :: 0 <= i < |l.accounts| ==>
        if l.accounts[i].id == id then AccountPatched(p, l.accounts[i], after.accounts[i])
        else after.accounts[i] == l.accounts[i]
  {
    UpdateIsMap(l.accounts, AccountId, id, AccountPatching(p));
  }

  predicate AccountStarted(id: Id, name: string, p: AccountPatch, x: Account) {
    && x.id == id && x.name == name && Starts(p.color, "#54c6bd", x.color) && Starts(p.icon, "wallet", x.icon)
    && Starts(p.kind, "checking", x.kind) && Starts(p.onBudget, true, x.onBudget)
    && Starts(p.initialBalance, 0, x.initialBalance) && Starts(p.archived, false, x.archived)
    && Starts(p.sort, 0, x.sort) && Starts(p.automaticEnvelopeId, None, x.automaticEnvelopeId)
  }

  lemma AccountCreateSets(l: Ledger, id: Id, name: string, p: AccountPatch)
    ensures var after := ApplyOp(l, AccountCreate(id, name, p));
      && after == l.(accounts := after.accounts)
      && (if exists a :: a in l.accounts && a.id == id then after.accounts == l.accounts
          else exists x :: AccountStarted(id, name, p, x) && after.accounts == l.accounts + [x])
  {
    Present(l.accounts, AccountId, id);
    var x := AccountFromCreate(id, name, p);
    assert AccountStarted(id, name, p, x);
    hide AccountStarted, AccountFromCreate;
    assert ApplyOp(l, AccountCreate(id, name, p)).accounts == Insert(l.accounts, AccountId, x);
  }

  predicate EnvelopePatched(p: EnvelopePatch, e: Envelope, x: Envelope) {
    && x.id == e.id && Sets(p.groupId, e.groupId, x.groupId) && Sets(p.name, e.name, x.name)
    && Sets(p.color, e.color, x.color) && Sets(p.icon, e.icon, x.icon) && Sets(p.note, e.note, x.note)
    && Sets(p.monthlyTarget, e.monthlyTarget, x.monthlyTarget) && Sets(p.isSavings, e.isSavings, x.isSavings)
    && Sets(p.sort, e.sort, x.sort) && Sets(p.archived, e.archived, x.archived)
  }

  lemma EnvelopeUpdateSets(l: Ledger, id: Id, p: EnvelopePatch)
    requires DistinctIds(l)
    ensures var after := ApplyOp(l, EnvelopeUpdate(id, p));
      && after == l.(envelopes := after.envelopes) && |after.envelopes| == |l.envelopes|
      && forall i :: 0 <= i < |l.envelopes| ==>
        if l.envelopes[i].id == id then EnvelopePatched(p, l.envelopes[i], after.envelopes[i])
        else after.envelopes[i] == l.envelopes[i]
  {
    UpdateIsMap(l.envelopes, EnvelopeId, id, EnvelopePatching(p));
  }

  predicate EnvelopeStarted(id: Id, groupId: Id, name: string, p: EnvelopePatch, x: Envelope) {
    && x.id == id && x.groupId == groupId && x.name == name && Starts(p.color, "#f1dca0", x.color)
    && Starts(p.icon, "tag", x.icon) && Starts(p.note, None, x.note) && Starts(p.monthlyTarget, None, x.monthlyTarget)
    && Starts(p.isSavings, false, x.isSavings) && Starts(p.sort, 0, x.sort) && Starts(p.archived, false, x.archived)
  }

  lemma EnvelopeCreateSets(l: Ledger, id: Id, groupId: Id, name: string, p: EnvelopePatch)
    ensures var after := ApplyOp(l, EnvelopeCreate(id, groupId, name, p));
      && after == l.(envelopes := after.envelopes)
      && (if exists e :: e in l.envelopes && e.id == id then after.envelopes == l.envelopes
          else exists x :: EnvelopeStarted(id, groupId, name, p, x) && after.envelopes == l.envelopes + [x])
  {
    Present(l.envelopes, EnvelopeId, id);
    var x := EnvelopeFromCreate(id, groupId, name, p);
    assert EnvelopeStarted(id, groupId, name, p, x);
    hide EnvelopeStarted, EnvelopeFromCreate;
    assert ApplyOp(l, EnvelopeCreate(id, groupId, name, p)).envelopes == Insert(l.envelopes, EnvelopeId, x);
  }

  predicate GroupsPatched(id: Id, name: Patch<string>, sort: Patch<int>, before: seq<Group>, after: seq<Group>) {
    |after| == |before| && forall i :: 0 <= i < |before| ==>
      var g, x := before[i], after[i];
      if g.id == id then x.id == g.id && Sets(name, g.name, x.name) && Sets(sort, g.sort, x.sort) else x == g
  }

  lemma GroupOpsSet(l: Ledger, op: Op)
    requires DistinctIds(l) && (op.GroupCreate? || op.GroupUpdate?)
    ensures var after := ApplyOp(l, op);
      && after == l.(groups := after.groups)
      && (op.GroupCreate? ==>
        after.groups == if exists g :: g in l.groups && g.id == op.group.id then l.groups else l.groups + [op.group])
      && (op.GroupUpdate? ==> GroupsPatched(op.id, op.name, op.sort, l.groups, after.groups))
  {
    if op.GroupCreate? {
      Present(l.groups, GroupId, op.group.id);
    } else {
      UpdateIsMap(l.groups, GroupId, op.id, GroupPatching(op.name, op.sort));
    }
  }

  predicate EntriesPatched(id: Id, name: Patch<string>, archived: Patch<bool>, before: seq<Entry>, after: seq<Entry>) {
    |after| == |before| && forall i :: 0 <= i < |before| ==>
      var e, x := before[i], after[i];
      if e.id == id then x.id == e.id && Sets(name, e.name, x.name) && Sets(archived, e.archived, x.archived)
        else x == e
  }

  predicate EntryCreated(id: Id, name: string, before: seq<Entry>, after: seq<Entry>) {
    after == if exists e :: e in before && e.id == id then before else before + [Entry(id, name, false)]
  }

  lemma EntriesPatch(entries: seq<Entry>, id: Id, name: Patch<string>, archived: Patch<bool>)
    requires Distinct(entries, EntryId)
    ensures EntriesPatched(id, name, archived, entries, Update(entries, EntryId, id, EntryPatch(name, archived)))
  {
    UpdateIsMap(entries, EntryId, id, EntryPatch(name, archived));
  }

  lemma EntryCreates(entries: seq<Entry>, id: Id, name: string)
    ensures EntryCreated(id, name, entries, Insert(entries, EntryId, Entry(id, name, false)))
  {
    Present(entries, EntryId, id);
  }

  /** A dictionary entry is created active, and patched in the fields sent. */
  lemma EntryOpsSet(l: Ledger, id: Id, name: string, newName: Patch<string>, archived: Patch<bool>)
    requires DistinctIds(l)
    ensures var after := ApplyOp(l, CategoryCreate(id, name));
      after == l.(categories := after.categories) && EntryCreated(id, name, l.categories, after.categories)
    ensures var after := ApplyOp(l, PlaceCreate(id, name));
      after == l.(places := after.places) && EntryCreated(id, name, l.places, after.places)
    ensures var after := ApplyOp(l, CategoryUpdate(id, newName, archived));
      after == l.(categories := after.categories) &&
      EntriesPatched(id, newName, archived, l.categories, after.categories)
    ensures var after := ApplyOp(l, PlaceUpdate(id, newName, archived));
      after == l.(places := after.places) && EntriesPatched(id, newName, archived, l.places, after.places)
  {
    EntryCreates(l.categories, id, name);
    EntryCreates(l.places, id, name);
    EntriesPatch(l.categories, id, newName, archived);
    EntriesPatch(l.places, id, newName, archived);
    hide EntriesPatched, EntryCreated, Insert, Update;
  }

  // ---- dictionary entries go ----------------------------------------------------------------------

  /** A reference to the source of a merge points at its target, any other as it was. */
  predicate Moved(fromId: Id, intoId: Id, before: Option<Id>, after: Option<Id>) {
    if before == Some(fromId) then after == Some(intoId) else after == before
  }

  predicate Listed(entries: seq<Entry>, id: Id) { exists e :: e in entries && e.id == id }

  /** A merge of places, if both are listed: the source goes and every reference to it points at the target. */
  lemma PlaceMergeMoves(l: Ledger, fromId: Id, intoId: Id)
    ensures var after := ApplyOp(l, PlaceMerge(fromId, intoId));
      if !Listed(l.places, fromId) || !Listed(l.places, intoId) then after == l
      else
        && after == l.(places := after.places, transactions := after.transactions)
        && after.places == Filter(l.places, (e: Entry) => e.id != fromId)
        && |after.transactions| == |l.transactions|
        && forall i :: 0 <= i < |l.transactions| ==>
          var t, x := l.transactions[i], after.transactions[i];
          Moved(fromId, intoId, t.placeId, x.placeId) && x == t.(placeId := x.placeId)
  {
    Present(l.places, EntryId, fromId);
    Present(l.places, EntryId, intoId);
    FilterAgrees(l.places, EntryOtherThan(fromId), (e: Entry) => e.id != fromId);
    hide Filter;
  }

  /** What a merge of categories leaves of a row: its own reference and those of its items move, all else stands. */
  predicate RowMoved(fromId: Id, intoId: Id, t: Transaction, x: Transaction) {
    && Moved(fromId, intoId, t.categoryId, x.categoryId) && |x.items| == |t.items|
    && (forall k :: 0 <= k < |t.items| ==>
      Moved(fromId, intoId, t.items[k].categoryId, x.items[k].categoryId) &&
      x.items[k] == t.items[k].(categoryId := x.items[k].categoryId))
    && x == t.(categoryId := x.categoryId, items := x.items)
  }

  lemma CategoryMergeMoves(l: Ledger, fromId: Id, intoId: Id)
    ensures var after := ApplyOp(l, CategoryMerge(fromId, intoId));
      if !Listed(l.categories, fromId) || !Listed(l.categories, intoId) then after == l
      else
        && after == l.(categories := after.categories, transactions := after.transactions)
        && after.categories == Filter(l.categories, (e: Entry) => e.id != fromId)
        && |after.transactions| == |l.transactions|
        && forall i :: 0 <= i < |l.transactions| ==> RowMoved(fromId, intoId, l.transactions[i], after.transactions[i])
  {
    Present(l.categories, EntryId, fromId);
    Present(l.categories, EntryId, intoId);
    FilterAgrees(l.categories, EntryOtherThan(fromId), (e: Entry) => e.id != fromId);
    hide Filter;
  }

  /** A delete archives an entry some row uses and drops one no row uses. */
  predicate EntryDeleted(id: Id, used: bool, before: seq<Entry>, after: seq<Entry>) {
    if used then
      |after| == |before| && forall i :: 0 <= i < |before| ==>
        if before[i].id == id then after[i] == Entry(id, before[i].name, true) else after[i] == before[i]
    else after == Filter(before, (e: Entry) => e.id != id)
  }

  lemma EntryDeletes(entries: seq<Entry>, id: Id, used: bool)
    ensures EntryDeleted(id, used, entries, DropEntry(entries, id, used))
  {
    FilterAgrees(entries, EntryOtherThan(id), (e: Entry) => e.id != id);
    hide Filter;
  }

  /** Some row is at the place. */
  predicate NamesPlace(l: Ledger, id: Id) {
    exists i :: 0 <= i < |l.transactions| && l.transactions[i].placeId == Some(id)
  }

  /** Some row or one of its items is in the category. */
  predicate NamesCategory(l: Ledger, id: Id) {
    exists i :: 0 <= i < |l.transactions| && (l.transactions[i].categoryId == Some(id) ||
      exists k :: 0 <= k < |l.transactions[i].items| && l.transactions[i].items[k].categoryId == Some(id))
  }

  lemma UsesAgree(l: Ledger, id: Id)
    ensures PlaceUsed(l, id) <==> NamesPlace(l, id)
    ensures CategoryUsed(l, id) <==> NamesCategory(l, id)
  {
    if CategoryUsed(l, id) {
      var t :| t in l.transactions &&
        (t.categoryId == Some(id) || exists i :: i in t.items && i.categoryId == Some(id));
      var i :| 0 <= i < |l.transactions| && l.transactions[i] == t;
      if t.categoryId != Some(id) {
        var item :| item in t.items && item.categoryId == Some(id);
        var k :| 0 <= k < |t.items| && t.items[k] == item;
        assert l.transactions[i].items[k].categoryId == Some(id);
      }
    }
    if NamesCategory(l, id) {
      var i :| 0 <= i < |l.transactions| && (l.transactions[i].categoryId == Some(id) ||
        exists k :: 0 <= k < |l.transactions[i].items| && l.transactions[i].items[k].categoryId == Some(id));
      var t := l.transactions[i];
      assert t in l.transactions;
      if t.categoryId != Some(id) {
        var k :| 0 <= k < |t.items| && t.items[k].categoryId == Some(id);
        assert t.items[k] in t.items;
      }
    }
  }

  lemma EntryDeletesSet(l: Ledger, id: Id)
    ensures var after := ApplyOp(l, PlaceDelete(id));
      after == l.(places := after.places) &&
      EntryDeleted(id, NamesPlace(l, id), l.places, after.places)
    ensures var after := ApplyOp(l, CategoryDelete(id));
      after == l.(categories := after.categories) &&
      EntryDeleted(id, NamesCategory(l, id), l.categories, after.categories)
  {
    UsesAgree(l, id);
    hide PlaceUsed, CategoryUsed, NamesPlace, NamesCategory, EntryDeleted, DropEntry;
    EntryDeletes(l.places, id, PlaceUsed(l, id));
    EntryDeletes(l.categories, id, CategoryUsed(l, id));
  }

  // ---- allocations and the budget -----------------------------------------------------------------

  /** One amount for each envelope and month, of listed envelopes only. */
  lemma AllocSetSets(l: Ledger, envelopeId: Id, month: Month, amount: Money)
    requires DistinctIds(l)
    ensures var after := ApplyOp(l, AllocSet(envelopeId, month, amount));
      && after == l.(allocations := after.allocations)
      && (if !exists e :: e in l.envelopes && e.id == envelopeId then after == l
          else if exists a :: a in l.allocations && a.envelopeId == envelopeId && a.month == month then
            |after.allocations| == |l.allocations| && forall i :: 0 <= i < |l.allocations| ==>
              var a, x := l.allocations[i], after.allocations[i];
              x == if a.envelopeId == envelopeId && a.month == month then a.(amount := amount) else a
          else
            after.allocations ==
              l.allocations + [Allocation(LocalAllocation(envelopeId, month), envelopeId, month, amount)])
  {
    Present(l.envelopes, EnvelopeId, envelopeId);
    Present(l.allocations, AllocationKey, (envelopeId, month));
    UpdateIsMap(l.allocations, AllocationKey, (envelopeId, month), SetAmount(amount));
  }

  lemma BudgetUpdateSets(l: Ledger, id: Id, currency: string)
    requires DistinctIds(l)
    ensures var after := ApplyOp(l, BudgetUpdate(id, currency));
      && after == l.(budgets := after.budgets) && |after.budgets| == |l.budgets|
      && forall i :: 0 <= i < |l.budgets| ==>
        after.budgets[i] == if l.budgets[i].id == id then l.budgets[i].(currency := currency) else l.budgets[i]
    ensures ApplyOp(l, UnknownKind) == l
  {
    UpdateIsMap(l.budgets, BudgetId, id, SetCurrency(currency));
  }
}
