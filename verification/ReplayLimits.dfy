// Short histories that break a side condition of `Replay`, and when they replay all the same.
//
// The reducer's own notes promise that replaying pending operations over a fresh snapshot changes
// nothing. For an update of a transaction or an account followed by a delete of an envelope or a
// group, or by a merge, that holds exactly under the conditions below, for every ledger and update.
module ReplayLimits {
  import opened Sequences
  import opened Tables
  import opened Ledger
  import opened WellFormedLedger

  predicate Replayable(l: Ledger, history: seq<Op>) { Run(Run(l, history), history) == Run(l, history) }

  lemma RunTwo(l: Ledger, a: Op, b: Op)
    ensures Run(l, [a, b]) == ApplyOp(ApplyOp(l, a), b)
  {
    assert [a, b][1..] == [b] && [b][1..] == [];
    assert Run(ApplyOp(l, a), [b]) == ApplyOp(ApplyOp(l, a), b);
  }

  // ---- one row, twice -----------------------------------------------------------------------------

  /** The reducer accepts the update on this row: merged with it, the payload passes the semantic rule. */
  predicate Accepts(t: Transaction, p: TxnFields) { SemanticsValid(TxnFromUpdate(t, p)) }

  function Same(): Transaction -> Transaction { (t: Transaction) => t }

  /**
   * An update and a rewriting of every row, then both again (the rewriting perhaps differently):
   * nothing changes exactly when the updated row comes out the same.
   */
  lemma RowsAgain<T(!new), K>(rows: seq<T>, key: T -> K, k: K, f: T -> T, g: T -> T, again: T -> T)
    requires Distinct(rows, key) && Preserves(key, f) && Preserves(key, g)
    requires forall x :: again(g(x)) == g(x)
    ensures var once := Map(Update(rows, key, k, f), g);
            Map(Update(once, key, k, f), again) == once <==>
            forall x :: x in rows && key(x) == k ==> again(f(g(f(x)))) == g(f(x))
  {
    var only := OnlyAt(key, k, f);
    UpdateIsMap(rows, key, k, f);
    DistinctUpdate(rows, key, k, f);
    DistinctMap(Update(rows, key, k, f), key, g);
    var once := Map(Update(rows, key, k, f), g);
    UpdateIsMap(once, key, k, f);
    var twice := Map(Update(once, key, k, f), again);
    assert forall x :: key(g(f(x))) == key(x) && key(g(x)) == key(x);
    hide Distinct, Preserves, Update, Map;
    forall i | 0 <= i < |rows|
      ensures |twice| == |once| == |rows| && once[i] == g(only(rows[i])) && twice[i] == again(only(once[i]))
    {
      MappedTwice(rows, only, g, i);
      MappedTwice(once, only, again, i);
    }
    MappedTwice(rows, only, g, 0);
    MappedTwice(once, only, again, 0);
    if forall x :: x in rows && key(x) == k ==> again(f(g(f(x)))) == g(f(x)) {
      forall i | 0 <= i < |rows| ensures twice[i] == once[i] { assert rows[i] in rows; }
      assert twice == once;
    }
    if twice == once {
      forall x | x in rows && key(x) == k ensures again(f(g(f(x)))) == g(f(x)) {
        var i :| 0 <= i < |rows| && rows[i] == x;
        assert twice[i] == once[i];
      }
    }
  }

  lemma MappedTwice<T>(rows: seq<T>, f: T -> T, g: T -> T, i: nat)
    ensures |Map(Map(rows, f), g)| == |rows|
    ensures i < |rows| ==> Map(Map(rows, f), g)[i] == g(f(rows[i]))
  {
  }

  lemma UpdateTwice(rows: seq<Transaction>, p: TxnFields)
    requires Distinct(rows, TxnId)
    ensures var once := Update(rows, TxnId, p.id, UpdateTxn(p)); Update(once, TxnId, p.id, UpdateTxn(p)) == once
  {
    UpdateTxnKeepsId(p);
    forall t ensures UpdateTxn(p)(UpdateTxn(p)(t)) == UpdateTxn(p)(t) { UpdateRowTwice(t, p); }
    assert Preserves(TxnId, Same());
    var once := Update(rows, TxnId, p.id, UpdateTxn(p));
    assert Map(once, Same()) == once && Map(Update(once, TxnId, p.id, UpdateTxn(p)), Same()) ==
      Update(once, TxnId, p.id, UpdateTxn(p));
    hide UpdateTxn, Distinct, Preserves, Update, Map;
    RowsAgain(rows, TxnId, p.id, UpdateTxn(p), Same(), Same());
  }

  lemma UpdateRowTwice(t: Transaction, p: TxnFields)
    ensures UpdateTxn(p)(UpdateTxn(p)(t)) == UpdateTxn(p)(t)
  {
    if Accepts(t, p) { assert TxnFromUpdate(TxnFromUpdate(t, p), p) == TxnFromUpdate(t, p); }
  }

  lemma ReplaceKeepsId(fromId: Id, intoId: Id)
    ensures Preserves(TxnId, Replace(fromId, intoId)) && Preserves(TxnId, Recategorise(fromId, intoId))
  {
  }

  lemma ClearKeepsId(ids: set<Id>)
    ensures Preserves(TxnId, ClearTxn(ids))
  {
  }

  // ---- an update and then a delete of envelopes ---------------------------------------------------

  lemma ClearIdle(t: Transaction, ids: set<Id>)
    ensures ClearTxn(ids)(t) == t <==>
            !Names(t.envelopeId, ids) && !Names(t.allocationFrom, ids) && !Names(t.allocationTo, ids) &&
            forall i :: i in t.items ==> i.envelopeId !in ids
  {
    if forall i :: i in t.items ==> i.envelopeId !in ids { FilterAll(t.items, ItemOutside(ids)); }
  }

  lemma ClearTwice(t: Transaction, ids: set<Id>)
    ensures ClearTxn(ids)(ClearTxn(ids)(t)) == ClearTxn(ids)(t)
  {
    ClearIdle(ClearTxn(ids)(t), ids);
  }

  /** The rule looks only at whether references are set, so clearing one never makes a payload invalid. */
  lemma StillAccepted(t: Transaction, p: TxnFields, ids: set<Id>)
    requires Accepts(t, p)
    ensures Accepts(ClearTxn(ids)(TxnFromUpdate(t, p)), p)
  {
    var n := TxnFromUpdate(t, p);
    var again := TxnFromUpdate(ClearTxn(ids)(n), p);
    assert again.items == n.items;
    hide TxnFromUpdate, ClearTxn;
    assert SemanticIssues(n) == [];
  }

  lemma ClearedAgain(t: Transaction, p: TxnFields, ids: set<Id>)
    ensures ClearTxn(ids)(TxnFromUpdate(ClearTxn(ids)(TxnFromUpdate(t, p)), p)) == ClearTxn(ids)(TxnFromUpdate(t, p))
  {
  }

  /**
   * A refused update is harmless on replay unless the delete makes it acceptable and it then
   * changes something else than what the delete clears.
   */
  predicate SettlesAfterClear(t: Transaction, p: TxnFields, ids: set<Id>) {
    var cleared := ClearTxn(ids)(t);
    Accepts(t, p) || !Accepts(cleared, p) || ClearTxn(ids)(TxnFromUpdate(cleared, p)) == cleared
  }

  lemma EnvelopeDeleteRow(t: Transaction, p: TxnFields, ids: set<Id>)
    ensures var f, g := UpdateTxn(p), ClearTxn(ids);
            g(f(g(f(t)))) == g(f(t)) <==> SettlesAfterClear(t, p, ids)
  {
    hide SemanticIssues, ClearTxn, TxnFromUpdate;
    ClearTwice(t, ids);
    ClearedAgain(t, p, ids);
    if Accepts(t, p) { StillAccepted(t, p, ids); }
  }

  /** An update, whatever allocation fields it carries, and then a delete of an envelope. */
  lemma EnvelopeDeleteReplay(l: Ledger, p: TxnFields, id: Id)
    requires DistinctIds(l)
    ensures Replayable(l, [TxnUpdate(p), EnvelopeDelete(id)]) <==>
            forall t :: t in l.transactions && t.id == p.id ==> SettlesAfterClear(t, p, {id})
  {
    hide Distinct, UpdateTxn, ClearTxn, SettlesAfterClear;
    var f, g := UpdateTxn(p), ClearTxn({id});
    var history := [TxnUpdate(p), EnvelopeDelete(id)];
    RunTwo(l, history[0], history[1]);
    var s := Run(l, history);
    RunTwo(s, history[0], history[1]);
    DeleteRestTwice(l, {id});
    assert Run(s, history) == s.(transactions := Map(Update(s.transactions, TxnId, p.id, f), g));
    UpdateTxnKeepsId(p);
    ClearKeepsId({id});
    forall t ensures g(g(t)) == g(t) { ClearTwice(t, {id}); }
    RowsAgain(l.transactions, TxnId, p.id, f, g, g);
    forall t ensures g(f(g(f(t)))) == g(f(t)) <==> SettlesAfterClear(t, p, {id}) { EnvelopeDeleteRow(t, p, {id}); }
    assert forall t :: t in l.transactions ==> (TxnId(t) == p.id <==> t.id == p.id);
  }

  lemma DeleteRestTwice(l: Ledger, ids: set<Id>)
    ensures var after := DeleteEnvelopes(l, ids);
            DeleteEnvelopes(after, ids) == after.(transactions := Map(after.transactions, ClearTxn(ids)))
  {
    var after := DeleteEnvelopes(l, ids);
    FilterAll(after.envelopes, EnvelopeOutside(ids));
    FilterAll(after.allocations, AllocationOutside(ids));
    assert Map(after.accounts, ClearAccount(ids)) == after.accounts;
  }

  /** The envelopes an update would write into the row. */
  predicate NamesEnvelope(p: TxnFields, ids: set<Id>) {
    var t := TxnFromCreate(p);
    Names(t.envelopeId, ids) || Names(t.allocationFrom, ids) || Names(t.allocationTo, ids) ||
    exists i :: i in p.items && i.envelopeId in ids
  }

  lemma BuiltNames(p: TxnFields, txnId: Id, ids: set<Id>)
    ensures (exists i :: i in p.items && i.envelopeId in ids) <==>
            (exists i :: i in BuildItems(txnId, p.items) && i.envelopeId in ids)
  {
    var built := BuildItems(txnId, p.items);
    forall j | 0 <= j < |built| ensures built[j] in built && p.items[j] in p.items &&
      built[j].envelopeId == p.items[j].envelopeId {}
  }

  /**
   * The replayed delete of a group finds no envelopes, so what the update writes stays: an accepted
   * update must not name the group's envelopes, a refused one must stay refused or change nothing.
   */
  predicate SettlesAfterGroup(t: Transaction, p: TxnFields, ids: set<Id>) {
    var cleared := ClearTxn(ids)(t);
    if Accepts(t, p) then !NamesEnvelope(p, ids)
    else !Accepts(cleared, p) || TxnFromUpdate(cleared, p) == cleared
  }

  lemma RewritesNames(t: Transaction, p: TxnFields, ids: set<Id>)
    ensures var cleared := ClearTxn(ids)(TxnFromUpdate(t, p));
            TxnFromUpdate(cleared, p) == cleared <==> !NamesEnvelope(p, ids)
  {
    var n := TxnFromUpdate(t, p);
    var cleared := ClearTxn(ids)(n);
    BuiltNames(p, t.id, ids);
    if forall i :: i in n.items ==> i.envelopeId !in ids { FilterAll(n.items, ItemOutside(ids)); }
  }

  lemma GroupDeleteRow(t: Transaction, p: TxnFields, ids: set<Id>)
    ensures var f, g := UpdateTxn(p), ClearTxn(ids);
            f(g(f(t))) == g(f(t)) <==> SettlesAfterGroup(t, p, ids)
  {
    hide SemanticIssues, ClearTxn, TxnFromUpdate, NamesEnvelope;
    if Accepts(t, p) {
      StillAccepted(t, p, ids);
      RewritesNames(t, p, ids);
    }
  }

  /** An update and then a delete of a group. */
  lemma GroupDeleteReplay(l: Ledger, p: TxnFields, groupId: Id)
    requires DistinctIds(l)
    ensures Replayable(l, [TxnUpdate(p), GroupDelete(groupId)]) <==>
            forall t :: t in l.transactions && t.id == p.id ==> SettlesAfterGroup(t, p, EnvelopesOfGroup(l, groupId))
  {
    hide Distinct, UpdateTxn, ClearTxn, SettlesAfterGroup;
    var ids := EnvelopesOfGroup(l, groupId);
    var f, g := UpdateTxn(p), ClearTxn(ids);
    var history := [TxnUpdate(p), GroupDelete(groupId)];
    var u := ApplyOp(l, history[0]);
    RunTwo(l, history[0], history[1]);
    assert EnvelopesOfGroup(u, groupId) == ids;
    var s := Run(l, history);
    var su := ApplyOp(s, history[0]);
    RunTwo(s, history[0], history[1]);
    EmptiedGroup(u, groupId);
    assert EnvelopesOfGroup(su, groupId) == {};
    DeleteNothing(su);
    FilterAll(su.groups, GroupOtherThan(groupId));
    assert Run(s, history) == s.(transactions := Update(s.transactions, TxnId, p.id, f));
    UpdatedThenKept(l.transactions, p, g, ids);
    forall t ensures f(g(f(t))) == g(f(t)) <==> SettlesAfterGroup(t, p, ids) { GroupDeleteRow(t, p, ids); }
  }

  lemma UpdatedThenKept(rows: seq<Transaction>, p: TxnFields, g: Transaction -> Transaction, ids: set<Id>)
    requires Distinct(rows, TxnId) && g == ClearTxn(ids)
    ensures var once := Map(Update(rows, TxnId, p.id, UpdateTxn(p)), g);
            Update(once, TxnId, p.id, UpdateTxn(p)) == once <==>
            forall t :: t in rows && t.id == p.id ==> UpdateTxn(p)(g(UpdateTxn(p)(t))) == g(UpdateTxn(p)(t))
  {
    ClearKeepsId(ids);
    hide ClearTxn;
    KeptRows(rows, p, g);
  }

  /** An update and a rewriting of every row, then the update alone. */
  lemma KeptRows(rows: seq<Transaction>, p: TxnFields, g: Transaction -> Transaction)
    requires Distinct(rows, TxnId) && Preserves(TxnId, g)
    ensures var once := Map(Update(rows, TxnId, p.id, UpdateTxn(p)), g);
            Update(once, TxnId, p.id, UpdateTxn(p)) == once <==>
            forall t :: t in rows && t.id == p.id ==> UpdateTxn(p)(g(UpdateTxn(p)(t))) == g(UpdateTxn(p)(t))
  {
    UpdateTxnKeepsId(p);
    var once := Map(Update(rows, TxnId, p.id, UpdateTxn(p)), g);
    var twice := Update(once, TxnId, p.id, UpdateTxn(p));
    assert Map(twice, Same()) == twice;
    hide UpdateTxn, Distinct, Preserves, Update, Map;
    RowsAgain(rows, TxnId, p.id, UpdateTxn(p), g, Same());
    assert forall t :: t in rows ==> TxnId(t) == t.id;
  }

  lemma EmptiedGroup(l: Ledger, groupId: Id)
    ensures EnvelopesOfGroup(ApplyOp(l, GroupDelete(groupId)), groupId) == {}
  {
    var ids := EnvelopesOfGroup(l, groupId);
    var left := Filter(l.envelopes, EnvelopeOutside(ids));
    forall i | 0 <= i < |left| ensures left[i].groupId != groupId {
      assert left[i] in left;
      assert left[i] in l.envelopes && left[i].id !in ids;
    }
  }

  lemma DeleteNothing(l: Ledger)
    ensures DeleteEnvelopes(l, {}) == l
  {
    FilterAll(l.envelopes, EnvelopeOutside({}));
    FilterAll(l.allocations, AllocationOutside({}));
    forall i | 0 <= i < |l.transactions| ensures ClearTxn({})(l.transactions[i]) == l.transactions[i] {
      ClearIdle(l.transactions[i], {});
    }
    hide ClearTxn, Filter, EnvelopeOutside, AllocationOutside;
    assert Map(l.transactions, ClearTxn({})) == l.transactions;
    assert Map(l.accounts, ClearAccount({})) == l.accounts;
  }

  lemma AccountGroupRow(a: Account, p: AccountPatch, ids: set<Id>)
    ensures var f, g := AccountPatching(p), ClearAccount(ids);
            f(g(f(a))) == g(f(a)) <==> !(p.automaticEnvelopeId.Put? && Names(p.automaticEnvelopeId.value, ids))
  {
  }

  lemma AccountKeepsId(p: AccountPatch, ids: set<Id>)
    ensures Preserves(AccountId, AccountPatching(p)) && Preserves(AccountId, ClearAccount(ids))
  {
  }

  /** An update of an account and a delete of a group, run once and then again. */
  lemma AccountGroupTwice(l: Ledger, id: Id, p: AccountPatch, groupId: Id)
    requires DistinctIds(l)
    ensures var s := Run(l, [AccountUpdate(id, p), GroupDelete(groupId)]);
            s.accounts == Map(Update(l.accounts, AccountId, id, AccountPatching(p)),
              ClearAccount(EnvelopesOfGroup(l, groupId))) &&
            Run(s, [AccountUpdate(id, p), GroupDelete(groupId)]) ==
            s.(accounts := Update(s.accounts, AccountId, id, AccountPatching(p)))
  {
    hide Distinct, AccountPatching, ClearAccount, ClearTxn, Update;
    var history := [AccountUpdate(id, p), GroupDelete(groupId)];
    var u := ApplyOp(l, history[0]);
    RunTwo(l, history[0], history[1]);
    assert EnvelopesOfGroup(u, groupId) == EnvelopesOfGroup(l, groupId);
    var s := Run(l, history);
    var su := ApplyOp(s, history[0]);
    RunTwo(s, history[0], history[1]);
    EmptiedGroup(u, groupId);
    assert EnvelopesOfGroup(su, groupId) == {};
    DeleteNothing(su);
    FilterAll(su.groups, GroupOtherThan(groupId));
  }

  /**
   * An update of an account and then a delete of a group: the replayed update writes a dead envelope
   * back, and the replayed delete no longer finds it.
   */
  lemma AccountGroupReplay(l: Ledger, id: Id, p: AccountPatch, groupId: Id)
    requires DistinctIds(l)
    ensures Replayable(l, [AccountUpdate(id, p), GroupDelete(groupId)]) <==>
            !(HasKey(l.accounts, AccountId, id) && p.automaticEnvelopeId.Put? &&
              Names(p.automaticEnvelopeId.value, EnvelopesOfGroup(l, groupId)))
  {
    var ids := EnvelopesOfGroup(l, groupId);
    var f, g := AccountPatching(p), ClearAccount(ids);
    AccountGroupTwice(l, id, p, groupId);
    AccountKeepsId(p, ids);
    KeyedRow(l.accounts, AccountId, id);
    forall a
      ensures f(g(f(a))) == g(f(a)) <==> !(p.automaticEnvelopeId.Put? && Names(p.automaticEnvelopeId.value, ids))
    {
      AccountGroupRow(a, p, ids);
    }
    hide Distinct, AccountPatching, ClearAccount, Run, Update, Map, Names, EnvelopesOfGroup, Preserves;
    KeptAccounts(l.accounts, id, f, g);
  }

  lemma KeyedRow<T(!new), K>(rows: seq<T>, key: T -> K, k: K)
    ensures HasKey(rows, key, k) <==> exists x :: x in rows && key(x) == k
  {
    if HasKey(rows, key, k) {
      var i :| 0 <= i < |rows| && key(rows[i]) == k;
      assert rows[i] in rows;
    }
  }

  lemma KeptAccounts(rows: seq<Account>, id: Id, f: Account -> Account, g: Account -> Account)
    requires Distinct(rows, AccountId) && Preserves(AccountId, f) && Preserves(AccountId, g)
    ensures var once := Map(Update(rows, AccountId, id, f), g);
            Update(once, AccountId, id, f) == once <==>
            forall a :: a in rows && AccountId(a) == id ==> f(g(f(a))) == g(f(a))
  {
    var same := (a: Account) => a;
    var twice := Update(Map(Update(rows, AccountId, id, f), g), AccountId, id, f);
    assert Map(twice, same) == twice;
    hide Distinct, Preserves, Update, Map;
    RowsAgain(rows, AccountId, id, f, g, same);
  }

  // ---- an update and then a merge of dictionary entries -------------------------------------------

  /** Both entries are listed and they differ: otherwise a merge moves nothing. */
  predicate Merges(entries: seq<Entry>, fromId: Id, intoId: Id) {
    HasKey(entries, EntryId, fromId) && HasKey(entries, EntryId, intoId) && fromId != intoId
  }

  lemma NoSuchEntry(entries: seq<Entry>, id: Id)
    ensures !HasKey(Filter(entries, EntryOtherThan(id)), EntryId, id)
  {
    var left := Filter(entries, EntryOtherThan(id));
    forall i | 0 <= i < |left| ensures left[i].id != id { assert left[i] in left; }
  }

  /** The rule does not look at the place, nor at what an update leaves as it was. */
  lemma PlaceUnseen(a: Transaction, b: Transaction)
    requires b == a.(placeId := b.placeId, tag := b.tag, sourceRef := b.sourceRef, createdAt := b.createdAt)
    ensures SemanticIssues(a) == SemanticIssues(b)
  {
  }

  lemma ReplacedBack(t: Transaction, p: TxnFields, fromId: Id, intoId: Id)
    ensures var once := Replace(fromId, intoId)(TxnFromUpdate(t, p));
            TxnFromUpdate(once, p) == once <==> fromId == intoId || p.placeId != Some(fromId)
    ensures Accepts(Replace(fromId, intoId)(TxnFromUpdate(t, p)), p) == Accepts(t, p)
    ensures Accepts(Replace(fromId, intoId)(t), p) == Accepts(t, p)
  {
    hide SemanticIssues;
    var n := TxnFromUpdate(t, p);
    PlaceUnseen(TxnFromUpdate(Replace(fromId, intoId)(t), p), n);
    PlaceUnseen(TxnFromUpdate(Replace(fromId, intoId)(n), p), n);
  }

  lemma PlaceMergeRow(t: Transaction, p: TxnFields, fromId: Id, intoId: Id)
    ensures var f, g := UpdateTxn(p), Replace(fromId, intoId);
            f(g(f(t))) == g(f(t)) <==> (fromId == intoId || !Accepts(t, p) || p.placeId != Some(fromId))
  {
    ReplacedBack(t, p, fromId, intoId);
    hide SemanticIssues, TxnFromUpdate, Replace;
  }

  lemma PlaceMergeTwice(l: Ledger, p: TxnFields, fromId: Id, intoId: Id)
    requires DistinctIds(l)
    ensures var history := [TxnUpdate(p), PlaceMerge(fromId, intoId)]; var s := Run(l, history);
            if HasKey(l.places, EntryId, fromId) && HasKey(l.places, EntryId, intoId)
            then
              s.transactions == Map(Update(l.transactions, TxnId, p.id, UpdateTxn(p)), Replace(fromId, intoId)) &&
              Run(s, history) == s.(transactions := Update(s.transactions, TxnId, p.id, UpdateTxn(p)))
            else Replayable(l, history)
  {
    hide Distinct, HasKey, UpdateTxn, Replace, Update, Map;
    var history := [TxnUpdate(p), PlaceMerge(fromId, intoId)];
    RunTwo(l, history[0], history[1]);
    RunTwo(Run(l, history), history[0], history[1]);
    UpdateTwice(l.transactions, p);
    NoSuchEntry(l.places, fromId);
  }

  /**
   * An update and then a merge of two places: the replayed merge finds no source and does nothing,
   * so the replay differs exactly when an accepted update names the merged place.
   */
  lemma PlaceMergeReplay(l: Ledger, p: TxnFields, fromId: Id, intoId: Id)
    requires DistinctIds(l)
    ensures Replayable(l, [TxnUpdate(p), PlaceMerge(fromId, intoId)]) <==>
            !(Merges(l.places, fromId, intoId) && p.placeId == Some(fromId) &&
              exists t :: t in l.transactions && t.id == p.id && Accepts(t, p))
  {
    PlaceMergeTwice(l, p, fromId, intoId);
    ReplaceKeepsId(fromId, intoId);
    var f, g := UpdateTxn(p), Replace(fromId, intoId);
    hide Distinct, HasKey, UpdateTxn, Accepts, Replace, Run, Update, Map;
    KeptRows(l.transactions, p, g);
    forall t ensures f(g(f(t))) == g(f(t)) <==> (fromId == intoId || !Accepts(t, p) || p.placeId != Some(fromId)) {
      PlaceMergeRow(t, p, fromId, intoId);
    }
  }

  /** The categories an update would write into the row. */
  predicate NamesCategory(p: TxnFields, id: Id) {
    TxnFromCreate(p).categoryId == Some(id) || exists i :: i in p.items && i.categoryId == Some(id)
  }

  lemma RecategorisedItems(items: seq<Item>, fromId: Id, intoId: Id)
    ensures Map(items, RecategoriseItem(fromId, intoId)) == items <==>
            fromId == intoId || forall i :: i in items ==> i.categoryId != Some(fromId)
  {
    var moved := Map(items, RecategoriseItem(fromId, intoId));
    if moved == items {
      forall i | i in items ensures fromId == intoId || i.categoryId != Some(fromId) {
        var k :| 0 <= k < |items| && items[k] == i;
        assert moved[k] == RecategoriseItem(fromId, intoId)(items[k]);
      }
    }
  }

  lemma BuiltCategories(p: TxnFields, txnId: Id, id: Id)
    ensures (exists i :: i in p.items && i.categoryId == Some(id)) <==>
            (exists i :: i in BuildItems(txnId, p.items) && i.categoryId == Some(id))
  {
    var built := BuildItems(txnId, p.items);
    forall j | 0 <= j < |built| ensures built[j] in built && p.items[j] in p.items &&
      built[j].categoryId == p.items[j].categoryId {}
  }

  lemma RecategorisedBack(t: Transaction, p: TxnFields, fromId: Id, intoId: Id)
    ensures var once := Recategorise(fromId, intoId)(TxnFromUpdate(t, p));
            TxnFromUpdate(once, p) == once <==> fromId == intoId || !NamesCategory(p, fromId)
    ensures Accepts(Recategorise(fromId, intoId)(TxnFromUpdate(t, p)), p) == Accepts(t, p)
    ensures Accepts(Recategorise(fromId, intoId)(t), p) == Accepts(t, p)
  {
    var n := TxnFromUpdate(t, p);
    var once := Recategorise(fromId, intoId)(n);
    assert TxnFromUpdate(once, p) == n;
    RecategorisedItems(n.items, fromId, intoId);
    BuiltCategories(p, t.id, fromId);
    assert SemanticIssues(TxnFromUpdate(Recategorise(fromId, intoId)(t), p)) == SemanticIssues(n);
  }

  lemma CategoryMergeRow(t: Transaction, p: TxnFields, fromId: Id, intoId: Id)
    ensures var f, g := UpdateTxn(p), Recategorise(fromId, intoId);
            f(g(f(t))) == g(f(t)) <==> (fromId == intoId || !Accepts(t, p) || !NamesCategory(p, fromId))
  {
    RecategorisedBack(t, p, fromId, intoId);
    hide SemanticIssues, TxnFromUpdate, Recategorise, NamesCategory;
  }

  lemma CategoryMergeTwice(l: Ledger, p: TxnFields, fromId: Id, intoId: Id)
    requires DistinctIds(l)
    ensures var history := [TxnUpdate(p), CategoryMerge(fromId, intoId)]; var s := Run(l, history);
            if HasKey(l.categories, EntryId, fromId) && HasKey(l.categories, EntryId, intoId)
            then
              s.transactions == Map(Update(l.transactions, TxnId, p.id, UpdateTxn(p)), Recategorise(fromId, intoId)) &&
              Run(s, history) == s.(transactions := Update(s.transactions, TxnId, p.id, UpdateTxn(p)))
            else Replayable(l, history)
  {
    hide Distinct, HasKey, UpdateTxn, Recategorise, Update, Map;
    var history := [TxnUpdate(p), CategoryMerge(fromId, intoId)];
    RunTwo(l, history[0], history[1]);
    RunTwo(Run(l, history), history[0], history[1]);
    UpdateTwice(l.transactions, p);
    NoSuchEntry(l.categories, fromId);
  }

  /** An update and then a merge of two categories: as for places, through the row and its items. */
  lemma CategoryMergeReplay(l: Ledger, p: TxnFields, fromId: Id, intoId: Id)
    requires DistinctIds(l)
    ensures Replayable(l, [TxnUpdate(p), CategoryMerge(fromId, intoId)]) <==>
            !(Merges(l.categories, fromId, intoId) && NamesCategory(p, fromId) &&
              exists t :: t in l.transactions && t.id == p.id && Accepts(t, p))
  {
    CategoryMergeTwice(l, p, fromId, intoId);
    ReplaceKeepsId(fromId, intoId);
    var f, g := UpdateTxn(p), Recategorise(fromId, intoId);
    hide Distinct, HasKey, UpdateTxn, Accepts, Recategorise, NamesCategory, Run, Update, Map;
    KeptRows(l.transactions, p, g);
    forall t ensures f(g(f(t))) == g(f(t)) <==> (fromId == intoId || !Accepts(t, p) || !NamesCategory(p, fromId)) {
      CategoryMergeRow(t, p, fromId, intoId);
    }
  }
}
