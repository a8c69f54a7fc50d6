// Where replaying deletes and merges of dictionary entries is not idempotent.
//
// A delete archives an entry that is still used and removes one that is not, so a later operation
// that takes the last use away makes the replayed delete remove what the first one archived. A merge
// into an entry that is merged away itself leaves the replayed merge without its target.
module ReplayEntries {
  import opened Sequences
  import opened Tables
  import opened Ledger
  import opened WellFormedLedger
  import opened ReplayLimits

  // ---- a delete of an entry and then an operation that can take uses away -------------------------

  /** The operations that can take a reference to a dictionary entry away without naming the entry. */
  predicate TakesUses(op: Op) {
    op.TxnUpdate? || op.TxnDelete? || op.AccountDelete? || op.EnvelopeDelete? || op.GroupDelete?
  }

  /** The envelopes a delete of an envelope or of a group removes. */
  function Removed(l: Ledger, op: Op): set<Id> {
    if op.EnvelopeDelete? then {op.id} else if op.GroupDelete? then EnvelopesOfGroup(l, op.id) else {}
  }

  predicate UsesPlace(t: Transaction, id: Id) { t.placeId == Some(id) }

  predicate UsesCategory(t: Transaction, id: Id) {
    t.categoryId == Some(id) || exists i :: i in t.items && i.categoryId == Some(id)
  }

  /** The row goes with the operation. */
  predicate Drops(op: Op, t: Transaction) {
    (op.TxnDelete? && t.id == op.id) || (op.AccountDelete? && (t.accountId == op.id || t.toAccountId == Some(op.id)))
  }

  /** The operation takes the place away from the row. */
  predicate TakesPlace(op: Op, t: Transaction, id: Id) {
    Drops(op, t) || (op.TxnUpdate? && t.id == op.txn.id && Accepts(t, op.txn) && op.txn.placeId != Some(id))
  }

  /** The operation takes the category away from the row: with the row, by an update, or with the items that name it. */
  predicate TakesCategory(l: Ledger, op: Op, t: Transaction, id: Id) {
    || Drops(op, t)
    || (op.TxnUpdate? && t.id == op.txn.id && Accepts(t, op.txn) && !NamesCategory(op.txn, id))
    || (t.categoryId != Some(id) && forall i :: i in t.items && i.categoryId == Some(id) ==>
      i.envelopeId in Removed(l, op))
  }

  lemma DropTwice(entries: seq<Entry>, id: Id, first: bool, second: bool)
    ensures var once := DropEntry(entries, id, first);
            DropEntry(once, id, second) == once <==> !(HasKey(entries, EntryId, id) && first && !second)
  {
    var once := DropEntry(entries, id, first);
    if !first {
      FilterAll(once, EntryOtherThan(id));
      forall i | 0 <= i < |once| ensures ArchiveEntry(id)(once[i]) == once[i] { assert once[i] in once; }
      assert Map(once, ArchiveEntry(id)) == once;
    } else if second {
      assert Map(once, ArchiveEntry(id)) == once;
    } else if HasKey(entries, EntryId, id) {
      var i :| 0 <= i < |entries| && EntryId(entries[i]) == id;
      assert once[i] in once && once[i].id == id;
      assert once[i] !in Filter(once, EntryOtherThan(id));
    } else {
      FilterAll(once, EntryOtherThan(id));
    }
  }

  // ---- what the operation leaves of the uses ------------------------------------------------------

  lemma UpdatedRows(rows: seq<Transaction>, p: TxnFields)
    requires Distinct(rows, TxnId)
    ensures forall x :: x in Update(rows, TxnId, p.id, UpdateTxn(p)) <==>
      exists t :: t in rows && x == OnlyAt(TxnId, p.id, UpdateTxn(p))(t)
  {
    UpdateIsMap(rows, TxnId, p.id, UpdateTxn(p));
    hide UpdateTxn, Distinct, Update;
    MappedRows(rows, OnlyAt(TxnId, p.id, UpdateTxn(p)));
  }

  lemma MappedRows<A(!new), B(!new)>(s: seq<A>, f: A -> B)
    ensures forall y :: y in Map(s, f) <==> exists x :: x in s && y == f(x)
  {
    forall i | 0 <= i < |s| ensures Map(s, f)[i] in Map(s, f) && s[i] in s {}
  }

  /** A row of the ledger after the operation is a row before it that was not dropped, updated or cleared. */
  function AfterOp(l: Ledger, op: Op): Transaction -> Transaction {
    (t: Transaction) =>
      if op.TxnUpdate? then (if t.id == op.txn.id then UpdateTxn(op.txn)(t) else t) else ClearTxn(Removed(l, op))(t)
  }

  lemma AfterOpIs(l: Ledger, op: Op, t: Transaction)
    ensures op.TxnUpdate? ==> AfterOp(l, op)(t) == if t.id == op.txn.id then UpdateTxn(op.txn)(t) else t
    ensures !op.TxnUpdate? ==> AfterOp(l, op)(t) == ClearTxn(Removed(l, op))(t)
    ensures ClearTxn({})(t) == t
  {
    ClearIdle(t, {});
  }

  lemma RowsAfterUpdate(l: Ledger, op: Op)
    requires DistinctIds(l) && op.TxnUpdate?
    ensures forall x :: x in ApplyOp(l, op).transactions <==>
      exists t :: t in l.transactions && !Drops(op, t) && x == AfterOp(l, op)(t)
  {
    var p := op.txn;
    forall t ensures AfterOp(l, op)(t) == OnlyAt(TxnId, p.id, UpdateTxn(p))(t) { AfterOpIs(l, op, t); }
    assert forall t :: !Drops(op, t);
    assert ApplyOp(l, op).transactions == Update(l.transactions, TxnId, p.id, UpdateTxn(p));
    UpdatedRows(l.transactions, p);
    hide *;
  }

  lemma RowsAfterRemoval(l: Ledger, op: Op)
    requires op.EnvelopeDelete? || op.GroupDelete?
    ensures forall x :: x in ApplyOp(l, op).transactions <==>
      exists t :: t in l.transactions && !Drops(op, t) && x == AfterOp(l, op)(t)
  {
    forall t ensures AfterOp(l, op)(t) == ClearTxn(Removed(l, op))(t) { AfterOpIs(l, op, t); }
    MappedRows(l.transactions, ClearTxn(Removed(l, op)));
    hide ClearTxn, AfterOp, EnvelopesOfGroup;
    assert ApplyOp(l, op).transactions == Map(l.transactions, ClearTxn(Removed(l, op)));
    assert forall t :: !Drops(op, t);
  }

  lemma RowsAfterDelete(l: Ledger, op: Op)
    requires op.TxnDelete? || op.AccountDelete?
    ensures forall x :: x in ApplyOp(l, op).transactions <==>
      exists t :: t in l.transactions && !Drops(op, t) && x == AfterOp(l, op)(t)
  {
    forall t ensures AfterOp(l, op)(t) == t { AfterOpIs(l, op, t); }
    hide ClearTxn, AfterOp, Removed;
    forall x ensures x in ApplyOp(l, op).transactions <==> x in l.transactions && !Drops(op, x) {
      if op.TxnDelete? {
        FilterMember(l.transactions, TxnOtherThan(op.id), x);
      } else {
        FilterMember(l.transactions, OffAccount(op.id), x);
      }
    }
  }

  lemma RowsAfterOp(l: Ledger, op: Op)
    requires DistinctIds(l) && TakesUses(op)
    ensures forall x :: x in ApplyOp(l, op).transactions <==>
      exists t :: t in l.transactions && !Drops(op, t) && x == AfterOp(l, op)(t)
  {
    hide DistinctIds, ApplyOp, Drops, AfterOp;
    match op
    case TxnUpdate(_) => RowsAfterUpdate(l, op);
    case EnvelopeDelete(_) => RowsAfterRemoval(l, op);
    case GroupDelete(_) => RowsAfterRemoval(l, op);
    case _ => RowsAfterDelete(l, op);
  }

  lemma PlaceAfter(l: Ledger, op: Op, t: Transaction, id: Id)
    requires TakesUses(op) && !Drops(op, t)
    ensures UsesPlace(AfterOp(l, op)(t), id) <==>
      if op.TxnUpdate? && t.id == op.txn.id && Accepts(t, op.txn) then op.txn.placeId == Some(id) else UsesPlace(t, id)
  {
    hide SemanticIssues;
    if op.TxnUpdate? {
      var p := op.txn;
      assert UpdateTxn(p)(t) == if Accepts(t, p) then TxnFromUpdate(t, p) else t;
      assert AfterOp(l, op)(t) == if t.id == p.id then UpdateTxn(p)(t) else t;
    } else {
      assert AfterOp(l, op)(t) == ClearTxn(Removed(l, op))(t);
    }
  }

  lemma CategoryWritten(t: Transaction, p: TxnFields, id: Id)
    ensures UsesCategory(TxnFromUpdate(t, p), id) <==> NamesCategory(p, id)
  {
    BuiltCategories(p, t.id, id);
  }

  lemma CategoryCleared(t: Transaction, ids: set<Id>, id: Id)
    ensures UsesCategory(ClearTxn(ids)(t), id) <==>
      t.categoryId == Some(id) || exists i :: i in t.items && i.categoryId == Some(id) && i.envelopeId !in ids
  {
    forall i ensures i in Filter(t.items, ItemOutside(ids)) <==> i in t.items && i.envelopeId !in ids {
      FilterMember(t.items, ItemOutside(ids), i);
    }
    hide Filter;
  }

  lemma AcceptedIs(t: Transaction, p: TxnFields)
    ensures UpdateTxn(p)(t) == if Accepts(t, p) then TxnFromUpdate(t, p) else t
  {
    hide TxnFromUpdate, SemanticIssues;
  }

  lemma CategoryAfter(l: Ledger, op: Op, t: Transaction, id: Id)
    requires TakesUses(op) && !Drops(op, t)
    ensures UsesCategory(AfterOp(l, op)(t), id) <==>
      if op.TxnUpdate? && t.id == op.txn.id && Accepts(t, op.txn) then NamesCategory(op.txn, id)
      else
        t.categoryId == Some(id) ||
        exists i :: i in t.items && i.categoryId == Some(id) && i.envelopeId !in Removed(l, op)
  {
    hide Accepts, AfterOp, UpdateTxn, TxnFromUpdate, NamesCategory, ClearTxn;
    AfterOpIs(l, op, t);
    CategoryCleared(t, Removed(l, op), id);
    CategoryCleared(t, {}, id);
    if op.TxnUpdate? {
      AcceptedIs(t, op.txn);
      CategoryWritten(t, op.txn, id);
    }
  }

  /** Among the rows that use the place, the operation takes it away from all. */
  ghost predicate LosesPlace(l: Ledger, op: Op, id: Id) {
    forall t :: t in l.transactions && UsesPlace(t, id) ==> TakesPlace(op, t, id)
  }

  ghost predicate LosesCategory(l: Ledger, op: Op, id: Id) {
    forall t :: t in l.transactions && UsesCategory(t, id) ==> TakesCategory(l, op, t, id)
  }

  lemma PlaceUseAfter(l: Ledger, op: Op, id: Id)
    requires DistinctIds(l) && TakesUses(op) && PlaceUsed(l, id)
    ensures PlaceUsed(ApplyOp(l, op), id) <==> !LosesPlace(l, op, id)
  {
    hide AfterOp, Accepts, ApplyOp, Drops, DistinctIds;
    RowsAfterOp(l, op);
    var user :| user in l.transactions && user.placeId == Some(id);
    if !LosesPlace(l, op, id) {
      var t :| t in l.transactions && UsesPlace(t, id) && !TakesPlace(op, t, id);
      PlaceAfter(l, op, t, id);
      assert AfterOp(l, op)(t) in ApplyOp(l, op).transactions;
    } else if PlaceUsed(ApplyOp(l, op), id) {
      var x :| x in ApplyOp(l, op).transactions && x.placeId == Some(id);
      var t :| t in l.transactions && !Drops(op, t) && x == AfterOp(l, op)(t);
      PlaceAfter(l, op, t, id);
      assert UsesPlace(user, id) && TakesPlace(op, user, id);
      TakenAll(op, user, t, id);
    }
  }

  /** A row that keeps or gains the place cannot stand beside one the same operation takes it from. */
  lemma TakenAll(op: Op, user: Transaction, t: Transaction, id: Id)
    requires TakesPlace(op, user, id) && UsesPlace(user, id) && !Drops(op, t)
    requires if op.TxnUpdate? && t.id == op.txn.id && Accepts(t, op.txn) then op.txn.placeId == Some(id)
      else UsesPlace(t, id)
    ensures UsesPlace(t, id) && !TakesPlace(op, t, id)
  {
    hide Accepts;
    if op.TxnUpdate? { assert !Drops(op, user); }
  }

  lemma CategoryUseAfter(l: Ledger, op: Op, id: Id)
    requires DistinctIds(l) && TakesUses(op) && CategoryUsed(l, id)
    ensures CategoryUsed(ApplyOp(l, op), id) <==> !LosesCategory(l, op, id)
  {
    hide AfterOp, Accepts, ApplyOp, Drops, DistinctIds, NamesCategory, Removed;
    RowsAfterOp(l, op);
    var user :| user in l.transactions && UsesCategory(user, id);
    if !LosesCategory(l, op, id) {
      var t :| t in l.transactions && UsesCategory(t, id) && !TakesCategory(l, op, t, id);
      CategoryAfter(l, op, t, id);
      assert AfterOp(l, op)(t) in ApplyOp(l, op).transactions;
      assert UsesCategory(AfterOp(l, op)(t), id);
    } else if CategoryUsed(ApplyOp(l, op), id) {
      var x :| x in ApplyOp(l, op).transactions && UsesCategory(x, id);
      var t :| t in l.transactions && !Drops(op, t) && x == AfterOp(l, op)(t);
      CategoryAfter(l, op, t, id);
      assert TakesCategory(l, op, user, id);
      TakenAllOf(l, op, user, t, id);
    }
  }

  lemma TakenAllOf(l: Ledger, op: Op, user: Transaction, t: Transaction, id: Id)
    requires TakesCategory(l, op, user, id) && UsesCategory(user, id) && !Drops(op, t)
    requires
      if op.TxnUpdate? && t.id == op.txn.id && Accepts(t, op.txn) then NamesCategory(op.txn, id)
      else
        t.categoryId == Some(id) ||
        exists i :: i in t.items && i.categoryId == Some(id) && i.envelopeId !in Removed(l, op)
    ensures UsesCategory(t, id) && !TakesCategory(l, op, t, id)
  {
    hide Accepts, NamesCategory;
    if op.TxnUpdate? { assert !Drops(op, user) && Removed(l, op) == {}; }
  }

  // ---- the operation itself replays ---------------------------------------------------------------

  lemma FilterTwice<T>(s: seq<T>, p: T -> bool)
    ensures Filter(Filter(s, p), p) == Filter(s, p)
  {
    FilterAll(Filter(s, p), p);
  }

  lemma OpTwice(l: Ledger, op: Op)
    requires DistinctIds(l) && TakesUses(op)
    ensures ApplyOp(ApplyOp(l, op), op) == ApplyOp(l, op)
  {
    hide Distinct, UpdateTxn, ClearTxn, Filter, Update, DeleteEnvelopes;
    match op
    case TxnUpdate(p) => UpdateTwice(l.transactions, p);
    case EnvelopeDelete(id) => EnvelopesTwice(l, {id});
    case GroupDelete(id) =>
      var after := ApplyOp(l, op);
      EmptiedGroup(l, id);
      DeleteNothing(after);
      FilterTwice(l.groups, GroupOtherThan(id));
      KeepsGroups(l, EnvelopesOfGroup(l, id));
    case TxnDelete(id) => FilterTwice(l.transactions, TxnOtherThan(id));
    case AccountDelete(id) =>
      FilterTwice(l.transactions, OffAccount(id));
      FilterTwice(l.accounts, AccountOtherThan(id));
  }

  lemma KeepsGroups(l: Ledger, ids: set<Id>)
    ensures DeleteEnvelopes(l, ids).groups == l.groups
  {
  }

  lemma EnvelopesTwice(l: Ledger, ids: set<Id>)
    ensures DeleteEnvelopes(DeleteEnvelopes(l, ids), ids) == DeleteEnvelopes(l, ids)
  {
    DeleteRestTwice(l, ids);
    var after := DeleteEnvelopes(l, ids);
    forall i | 0 <= i < |l.transactions| ensures ClearTxn(ids)(after.transactions[i]) == after.transactions[i] {
      ClearTwice(l.transactions[i], ids);
    }
    hide DeleteEnvelopes, ClearTxn;
    assert Map(after.transactions, ClearTxn(ids)) == after.transactions;
  }

  /** The operation neither reads nor writes the dictionaries. */
  lemma OpBeside(l: Ledger, op: Op, categories: seq<Entry>, places: seq<Entry>)
    requires TakesUses(op)
    ensures ApplyOp(l.(categories := categories, places := places), op) ==
      ApplyOp(l, op).(categories := categories, places := places)
    ensures ApplyOp(l, op).categories == l.categories && ApplyOp(l, op).places == l.places
  {
    hide UpdateTxn, ClearTxn, Filter, Update;
    match op
    case GroupDelete(id) => assert EnvelopesOfGroup(l.(categories := categories, places := places), id) ==
      EnvelopesOfGroup(l, id);
    case _ =>
  }

  lemma SameUse(a: Ledger, b: Ledger, id: Id)
    requires a.transactions == b.transactions
    ensures CategoryUsed(a, id) == CategoryUsed(b, id) && PlaceUsed(a, id) == PlaceUsed(b, id)
  {
  }

  lemma EntryDeleteIs(l: Ledger, id: Id)
    ensures ApplyOp(l, PlaceDelete(id)) == l.(categories := l.categories,
      places := DropEntry(l.places, id, PlaceUsed(l, id)))
    ensures ApplyOp(l, CategoryDelete(id)) ==
      l.(categories := DropEntry(l.categories, id, CategoryUsed(l, id)), places := l.places)
  {
  }

  /** The delete, the operation, and both again: only the dictionary can differ. */
  lemma PlaceDeleteTwice(l: Ledger, id: Id, op: Op)
    requires DistinctIds(l) && TakesUses(op)
    ensures var once := DropEntry(l.places, id, PlaceUsed(l, id));
            var s := Run(l, [PlaceDelete(id), op]);
            s == ApplyOp(l, op).(places := once) &&
            Run(s, [PlaceDelete(id), op]) == s.(places := DropEntry(once, id, PlaceUsed(ApplyOp(l, op), id)))
  {
    hide *;
    var after, once := ApplyOp(l, op), DropEntry(l.places, id, PlaceUsed(l, id));
    var twice := DropEntry(once, id, PlaceUsed(after, id));
    RunTwo(l, PlaceDelete(id), op);
    EntryDeleteIs(l, id);
    OpBeside(l, op, l.categories, once);
    var s := after.(places := once);
    SameUse(s, after, id);
    RunTwo(s, PlaceDelete(id), op);
    EntryDeleteIs(s, id);
    OpBeside(after, op, after.categories, twice);
    OpTwice(l, op);
  }

  lemma CategoryDeleteTwice(l: Ledger, id: Id, op: Op)
    requires DistinctIds(l) && TakesUses(op)
    ensures var once := DropEntry(l.categories, id, CategoryUsed(l, id));
            var s := Run(l, [CategoryDelete(id), op]);
            s == ApplyOp(l, op).(categories := once) &&
            Run(s, [CategoryDelete(id), op]) == s.(categories := DropEntry(once, id, CategoryUsed(ApplyOp(l, op), id)))
  {
    hide *;
    var after, once := ApplyOp(l, op), DropEntry(l.categories, id, CategoryUsed(l, id));
    var twice := DropEntry(once, id, CategoryUsed(after, id));
    RunTwo(l, CategoryDelete(id), op);
    EntryDeleteIs(l, id);
    OpBeside(l, op, once, l.places);
    var s := after.(categories := once);
    SameUse(s, after, id);
    RunTwo(s, CategoryDelete(id), op);
    EntryDeleteIs(s, id);
    OpBeside(after, op, twice, after.places);
    OpTwice(l, op);
  }

  /**
   * A delete of a place, then an update or delete of a transaction, a delete of an account, an
   * envelope or a group: the replay differs exactly when the place is listed and used and every row
   * that uses it loses it.
   */
  lemma PlaceDeleteReplay(l: Ledger, id: Id, op: Op)
    requires DistinctIds(l) && TakesUses(op)
    ensures Replayable(l, [PlaceDelete(id), op]) <==>
            !(HasKey(l.places, EntryId, id) && PlaceUsed(l, id) && LosesPlace(l, op, id))
  {
    PlaceDeleteTwice(l, id, op);
    DropTwice(l.places, id, PlaceUsed(l, id), PlaceUsed(ApplyOp(l, op), id));
    if PlaceUsed(l, id) { PlaceUseAfter(l, op, id); }
    hide DistinctIds, ApplyOp, Run, DropEntry, PlaceUsed, LosesPlace, HasKey;
  }

  /** The same for a category, which a row uses by itself or through items of its split. */
  lemma CategoryDeleteReplay(l: Ledger, id: Id, op: Op)
    requires DistinctIds(l) && TakesUses(op)
    ensures Replayable(l, [CategoryDelete(id), op]) <==>
            !(HasKey(l.categories, EntryId, id) && CategoryUsed(l, id) && LosesCategory(l, op, id))
  {
    CategoryDeleteTwice(l, id, op);
    DropTwice(l.categories, id, CategoryUsed(l, id), CategoryUsed(ApplyOp(l, op), id));
    if CategoryUsed(l, id) { CategoryUseAfter(l, op, id); }
    hide DistinctIds, ApplyOp, Run, DropEntry, CategoryUsed, LosesCategory, HasKey;
  }

  // ---- an entry created, merged away, and its target merged away ----------------------------------

  lemma RunThree(l: Ledger, a: Op, b: Op, c: Op)
    ensures Run(l, [a, b, c]) == ApplyOp(ApplyOp(ApplyOp(l, a), b), c)
  {
    RunTwo(ApplyOp(l, a), b, c);
    assert [a, b, c][1..] == [b, c];
  }

  lemma Unlisted(entries: seq<Entry>, id: Id)
    requires !HasKey(entries, EntryId, id)
    ensures Filter(entries, EntryOtherThan(id)) == entries
  {
    forall e | e in entries ensures e.id != id {
      var i :| 0 <= i < |entries| && entries[i] == e;
      assert EntryId(entries[i]) != id;
    }
    FilterAll(entries, EntryOtherThan(id));
  }

  lemma ListedStill(entries: seq<Entry>, gone: Id, id: Id)
    ensures HasKey(Filter(entries, EntryOtherThan(gone)), EntryId, id) <==> HasKey(entries, EntryId, id) && id != gone
  {
    KeyedRow(entries, EntryId, id);
    KeyedRow(Filter(entries, EntryOtherThan(gone)), EntryId, id);
  }

  lemma Appended(entries: seq<Entry>, e: Entry, id: Id)
    ensures HasKey(entries + [e], EntryId, id) <==> HasKey(entries, EntryId, id) || id == e.id
    ensures id == e.id && !HasKey(entries, EntryId, id) ==> Filter(entries + [e], EntryOtherThan(id)) == entries
  {
    KeyedRow(entries, EntryId, id);
    KeyedRow(entries + [e], EntryId, id);
    FilterOneMore(entries, e, EntryOtherThan(id));
    if !HasKey(entries, EntryId, id) { Unlisted(entries, id); }
  }

  function ChainedPlaces(made: Id, via: Id, last: Id, name: string): seq<Op> {
    [PlaceCreate(made, name), PlaceMerge(made, via), PlaceMerge(via, last)]
  }

  function ChainedCategories(made: Id, via: Id, last: Id, name: string): seq<Op> {
    [CategoryCreate(made, name), CategoryMerge(made, via), CategoryMerge(via, last)]
  }

  lemma PlaceChain(l: Ledger, made: Id, via: Id, last: Id, name: string)
    requires !HasKey(l.places, EntryId, made) && made != via
    ensures Run(l, ChainedPlaces(made, via, last, name)) ==
      if !HasKey(l.places, EntryId, via) then l.(places := l.places + [Entry(made, name, false)])
      else
        var moved := Map(l.transactions, Replace(made, via));
        if HasKey(l.places, EntryId, last)
        then l.(places := Filter(l.places, EntryOtherThan(via)), transactions := Map(moved, Replace(via, last)))
        else l.(transactions := moved)
  {
    RunThree(l, PlaceCreate(made, name), PlaceMerge(made, via), PlaceMerge(via, last));
    Appended(l.places, Entry(made, name, false), made);
    Appended(l.places, Entry(made, name, false), via);
    hide HasKey, Filter, Replace, Map, Run;
  }

  lemma CategoryChain(l: Ledger, made: Id, via: Id, last: Id, name: string)
    requires !HasKey(l.categories, EntryId, made) && made != via
    ensures Run(l, ChainedCategories(made, via, last, name)) ==
      if !HasKey(l.categories, EntryId, via) then l.(categories := l.categories + [Entry(made, name, false)])
      else
        var moved := Map(l.transactions, Recategorise(made, via));
        if HasKey(l.categories, EntryId, last)
        then l.(categories := Filter(l.categories, EntryOtherThan(via)),
          transactions := Map(moved, Recategorise(via, last)))
        else l.(transactions := moved)
  {
    RunThree(l, CategoryCreate(made, name), CategoryMerge(made, via), CategoryMerge(via, last));
    Appended(l.categories, Entry(made, name, false), made);
    Appended(l.categories, Entry(made, name, false), via);
    hide HasKey, Filter, Recategorise, Map, Run;
  }

  /** A chain whose middle entry is not listed does nothing once the first exists. */
  lemma PlaceChainIdle(l: Ledger, made: Id, via: Id, last: Id, name: string)
    requires HasKey(l.places, EntryId, made) && !HasKey(l.places, EntryId, via)
    ensures Run(l, ChainedPlaces(made, via, last, name)) == l
  {
    RunThree(l, PlaceCreate(made, name), PlaceMerge(made, via), PlaceMerge(via, last));
    hide HasKey, Run;
  }

  lemma CategoryChainIdle(l: Ledger, made: Id, via: Id, last: Id, name: string)
    requires HasKey(l.categories, EntryId, made) && !HasKey(l.categories, EntryId, via)
    ensures Run(l, ChainedCategories(made, via, last, name)) == l
  {
    RunThree(l, CategoryCreate(made, name), CategoryMerge(made, via), CategoryMerge(via, last));
    hide HasKey, Run;
  }

  lemma MovedTwice(rows: seq<Transaction>, fromId: Id, intoId: Id)
    requires fromId != intoId
    ensures Map(Map(rows, Replace(fromId, intoId)), Replace(fromId, intoId)) == Map(rows, Replace(fromId, intoId))
    ensures Map(Map(rows, Recategorise(fromId, intoId)), Recategorise(fromId, intoId)) ==
      Map(rows, Recategorise(fromId, intoId))
  {
    forall t: Transaction ensures Recategorise(fromId, intoId)(Recategorise(fromId, intoId)(t)) ==
      Recategorise(fromId, intoId)(t) {
      RecategorisedItems(Map(t.items, RecategoriseItem(fromId, intoId)), fromId, intoId);
    }
    hide Recategorise;
  }

  /**
   * A new place is merged into a second, and that one into a third. The replayed create brings the
   * first back, so the replay differs exactly when the second merge took place: its source is gone.
   */
  lemma ChainedPlacesReplay(l: Ledger, made: Id, via: Id, last: Id, name: string)
    requires !HasKey(l.places, EntryId, made) && made != via
    ensures Replayable(l, ChainedPlaces(made, via, last, name)) <==>
      !(HasKey(l.places, EntryId, via) && HasKey(l.places, EntryId, last))
  {
    hide HasKey, Filter, Replace, Map, Run, ChainedPlaces;
    var s, e := Run(l, ChainedPlaces(made, via, last, name)), Entry(made, name, false);
    PlaceChain(l, made, via, last, name);
    if !HasKey(l.places, EntryId, via) {
      Appended(l.places, e, made);
      Appended(l.places, e, via);
      PlaceChainIdle(s, made, via, last, name);
    } else if HasKey(l.places, EntryId, last) {
      ListedStill(l.places, via, made);
      ListedStill(l.places, via, via);
      PlaceChain(s, made, via, last, name);
      assert |s.places + [e]| == |s.places| + 1;
    } else {
      PlaceChain(s, made, via, last, name);
      MovedTwice(l.transactions, made, via);
    }
  }

  /** The same for categories. */
  lemma ChainedCategoriesReplay(l: Ledger, made: Id, via: Id, last: Id, name: string)
    requires !HasKey(l.categories, EntryId, made) && made != via
    ensures Replayable(l, ChainedCategories(made, via, last, name)) <==>
      !(HasKey(l.categories, EntryId, via) && HasKey(l.categories, EntryId, last))
  {
    hide HasKey, Filter, Recategorise, Map, Run, ChainedCategories;
    var s, e := Run(l, ChainedCategories(made, via, last, name)), Entry(made, name, false);
    CategoryChain(l, made, via, last, name);
    if !HasKey(l.categories, EntryId, via) {
      Appended(l.categories, e, made);
      Appended(l.categories, e, via);
      CategoryChainIdle(s, made, via, last, name);
    } else if HasKey(l.categories, EntryId, last) {
      ListedStill(l.categories, via, made);
      ListedStill(l.categories, via, via);
      CategoryChain(s, made, via, last, name);
      assert |s.categories + [e]| == |s.categories| + 1;
    } else {
      CategoryChain(s, made, via, last, name);
      MovedTwice(l.transactions, made, via);
    }
  }
}
