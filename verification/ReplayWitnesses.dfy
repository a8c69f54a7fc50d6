/** Well-formed ledgers on which replaying a history that may be queued gives another ledger. */
module ReplayWitnesses {
  import opened Sequences
  import opened Tables
  import opened Ledger
  import opened WellFormedLedger
  import opened ReplayLimits
  import opened ReplayEntries

  function PlainTxn(
    kind: TxnType, envelopeId: Option<Id>, allocation: Patch<Option<Id>>, placeId: Option<Id>,
    categoryId: Option<Id>): TxnFields
  {
    TxnFields(
      1, kind, 1, None, 100, Date(0, 1), false, envelopeId, placeId, categoryId, None, None, Keep, Keep, Keep,
        allocation, [], None)
  }

  /** One account, one envelope in one group, one transaction, two categories and two places. */
  function SmallLedger(t: Transaction): Ledger {
    var account := Account(1, "", "", "", "", true, 0, false, 0, None);
    var entries := [Entry(1, "", false), Entry(2, "", false)];
    Ledger([account], [Group(1, "", 0)], [Envelope(1, 1, "", "", "", None, None, false, 0, false)], [t], [], entries,
      entries, [])
  }

  lemma SmallWellFormed(t: Transaction)
    requires TxnResolved(t, {1}, {1})
    ensures var l := SmallLedger(t);
            WellFormed(l) && AccountIds(l) == {1} && EnvelopeIds(l) == {1} && EnvelopesOfGroup(l, 1) == {1}
    ensures Merges(SmallLedger(t).places, 1, 2) && Merges(SmallLedger(t).categories, 1, 2)
  {
    var l := SmallLedger(t);
    assert l.accounts[0].id == 1 && l.envelopes[0].id == 1 && l.groups[0].id == 1 && l.envelopes[0].groupId == 1;
    assert EntryId(l.places[0]) == 1 && EntryId(l.places[1]) == 2;
  }

  /** The update is one the reducer's callers may queue: what it names exists and it is valid by itself. */
  ghost predicate MayQueue(l: Ledger, p: TxnFields) {
    WellFormed(l) && RefsExist(l, TxnUpdate(p)) && SemanticsValid(TxnFromCreate(p))
  }

  lemma PlainMayQueue(t: Transaction, p: TxnFields)
    requires TxnResolved(t, {1}, {1}) && PayloadResolved(p, {1}, {1}) && SemanticIssues(TxnFromCreate(p)) == []
    ensures MayQueue(SmallLedger(t), p)
  {
    SmallWellFormed(t);
  }

  /** Income funding envelope 1, turned into an expense by an update that says nothing about the allocation. */
  lemma EnvelopeDeleteReplayFails()
    ensures exists l: Ledger, p: TxnFields :: MayQueue(l, p) && !Replayable(l, [TxnUpdate(p), EnvelopeDelete(1)])
  {
    var t := TxnFromCreate(PlainTxn(Income, None, Put(Some(1)), None, None));
    var p := PlainTxn(Expense, None, Keep, None, None);
    PlainMayQueue(t, p);
    assert ExpenseWithAllocationTo in SemanticIssues(TxnFromUpdate(t, p));
    assert SemanticIssues(TxnFromUpdate(ClearTxn({1})(t), p)) == [];
    assert t in SmallLedger(t).transactions && !SettlesAfterClear(t, p, {1});
    SmallWellFormed(t);
    EnvelopeDeleteReplay(SmallLedger(t), p, 1);
  }

  /** A plain expense moved into envelope 1, whose group is then deleted. */
  lemma GroupDeleteReplayFails()
    ensures exists l: Ledger, p: TxnFields :: MayQueue(l, p) && !Replayable(l, [TxnUpdate(p), GroupDelete(1)])
  {
    var t := TxnFromCreate(PlainTxn(Expense, None, Keep, None, None));
    var p := PlainTxn(Expense, Some(1), Keep, None, None);
    PlainMayQueue(t, p);
    assert SemanticIssues(TxnFromUpdate(t, p)) == [];
    assert t in SmallLedger(t).transactions && !SettlesAfterGroup(t, p, {1});
    SmallWellFormed(t);
    GroupDeleteReplay(SmallLedger(t), p, 1);
  }

  /** A plain expense given place 1, or category 1, which is then merged into the other entry. */
  lemma MergeReplayFails()
    ensures exists l: Ledger, p: TxnFields :: MayQueue(l, p) && !Replayable(l, [TxnUpdate(p), PlaceMerge(1, 2)])
    ensures exists l: Ledger, p: TxnFields :: MayQueue(l, p) && !Replayable(l, [TxnUpdate(p), CategoryMerge(1, 2)])
  {
    var t := TxnFromCreate(PlainTxn(Expense, None, Keep, None, None));
    var p := PlainTxn(Expense, None, Keep, Some(1), Some(1));
    var l := SmallLedger(t);
    PlainMayQueue(t, p);
    SmallWellFormed(t);
    assert SemanticIssues(TxnFromUpdate(t, p)) == [];
    assert t in l.transactions && Accepts(t, p) && NamesCategory(p, 1);
    PlaceMergeReplay(l, p, 1, 2);
    CategoryMergeReplay(l, p, 1, 2);
  }

  lemma SmallUses(t: Transaction, id: Id)
    ensures PlaceUsed(SmallLedger(t), id) <==> UsesPlace(t, id)
    ensures CategoryUsed(SmallLedger(t), id) <==> UsesCategory(t, id)
    ensures forall x :: x in SmallLedger(t).transactions <==> x == t
  {
  }

  lemma SmallListed(t: Transaction)
    ensures HasKey(SmallLedger(t).places, EntryId, 1) && HasKey(SmallLedger(t).categories, EntryId, 1)
    ensures HasKey(SmallLedger(t).accounts, AccountId, 1)
  {
    var l := SmallLedger(t);
    assert EntryId(l.places[0]) == 1 && AccountId(l.accounts[0]) == 1;
  }

  ghost predicate Queueable(l: Ledger, op: Op) {
    WellFormed(l) && RefsExist(l, op) && (op.TxnUpdate? ==> SemanticsValid(TxnFromCreate(op.txn)))
  }

  /** Account 1 is linked to envelope 1, whose group is then deleted. */
  lemma AccountGroupReplayFails()
    ensures exists l: Ledger, p: AccountPatch ::
      Queueable(l, AccountUpdate(1, p)) && !Replayable(l, [AccountUpdate(1, p), GroupDelete(1)])
  {
    var t := TxnFromCreate(PlainTxn(Expense, None, Keep, None, None));
    var p := AccountPatch(Keep, Keep, Keep, Keep, Keep, Keep, Keep, Keep, Put(Some(1)));
    var l := SmallLedger(t);
    SmallWellFormed(t);
    SmallListed(t);
    assert Queueable(l, AccountUpdate(1, p));
    AccountGroupReplay(l, 1, p, 1);
  }

  /** The expense every entry delete below starts from: place 1 and category 1 are used by nothing else. */
  function UsingTxn(): Transaction { TxnFromCreate(PlainTxn(Expense, None, Keep, Some(1), Some(1))) }

  function ClearingUpdate(): TxnFields { PlainTxn(Expense, None, Keep, None, None) }

  predicate DropsUsing(op: Op) { op == TxnUpdate(ClearingUpdate()) || op == TxnDelete(1) || op == AccountDelete(1) }

  /** Each of these operations may be queued and takes place 1 and category 1 away from the expense. */
  lemma UsingLoses(op: Op)
    requires DropsUsing(op)
    ensures var l := SmallLedger(UsingTxn());
      && Queueable(l, op) && TakesUses(op) && LosesPlace(l, op, 1) && LosesCategory(l, op, 1)
  {
    var t := UsingTxn();
    SmallWellFormed(t);
    SmallUses(t, 1);
    assert SemanticIssues(TxnFromUpdate(t, ClearingUpdate())) == [] &&
      SemanticIssues(TxnFromCreate(ClearingUpdate())) == [];
    assert TakesPlace(op, t, 1) && TakesCategory(SmallLedger(t), op, t, 1);
    hide TakesPlace, TakesCategory, UsesPlace, UsesCategory, SemanticIssues, WellFormed;
  }

  lemma UsingListed()
    ensures var l := SmallLedger(UsingTxn());
      && DistinctIds(l) && HasKey(l.places, EntryId, 1) && HasKey(l.categories, EntryId, 1)
      && PlaceUsed(l, 1) && CategoryUsed(l, 1)
  {
    SmallWellFormed(UsingTxn());
    SmallListed(UsingTxn());
    SmallUses(UsingTxn(), 1);
  }

  lemma UsingFails(op: Op)
    requires DropsUsing(op)
    ensures var l := SmallLedger(UsingTxn());
      Queueable(l, op) && !Replayable(l, [PlaceDelete(1), op]) && !Replayable(l, [CategoryDelete(1), op])
  {
    hide *;
    UsingLoses(op);
    UsingListed();
    PlaceDeleteReplay(SmallLedger(UsingTxn()), 1, op);
    CategoryDeleteReplay(SmallLedger(UsingTxn()), 1, op);
  }

  lemma DropsUsingAll()
    ensures DropsUsing(TxnUpdate(ClearingUpdate())) && DropsUsing(TxnDelete(1)) && DropsUsing(AccountDelete(1))
  {
  }

  /**
   * Place 1 is deleted while the one expense uses it, and then the expense loses it or goes, alone or with its
   * account.
   */
  lemma PlaceDeleteReplayFails()
    ensures exists l: Ledger, op: Op :: op.TxnUpdate? && Queueable(l, op) && !Replayable(l, [PlaceDelete(1), op])
    ensures exists l: Ledger, op: Op :: op.TxnDelete? && Queueable(l, op) && !Replayable(l, [PlaceDelete(1), op])
    ensures exists l: Ledger, op: Op :: op.AccountDelete? && Queueable(l, op) && !Replayable(l, [PlaceDelete(1), op])
  {
    hide *;
    DropsUsingAll();
    UsingFails(TxnUpdate(ClearingUpdate()));
    UsingFails(TxnDelete(1));
    UsingFails(AccountDelete(1));
  }

  /** The same for category 1. */
  lemma CategoryDeleteReplayFails()
    ensures exists l: Ledger, op: Op :: op.TxnUpdate? && Queueable(l, op) && !Replayable(l, [CategoryDelete(1), op])
    ensures exists l: Ledger, op: Op :: op.TxnDelete? && Queueable(l, op) && !Replayable(l, [CategoryDelete(1), op])
    ensures exists l: Ledger, op: Op :: op.AccountDelete? && Queueable(l, op) && !Replayable(l, [CategoryDelete(1), op])
  {
    hide *;
    DropsUsingAll();
    UsingFails(TxnUpdate(ClearingUpdate()));
    UsingFails(TxnDelete(1));
    UsingFails(AccountDelete(1));
  }

  /** A split whose one item names envelope 1 and category 1. */
  function SplitTxn(): Transaction {
    TxnFromCreate(PlainTxn(Expense, None, Keep, None, None).(items := [ItemFields(1, Some(1), 100)]))
  }

  lemma SplitFacts()
    ensures var t := SplitTxn();
      TxnResolved(t, {1}, {1}) && UsesCategory(t, 1) && t.categoryId == None && forall i :: i in t.items ==>
        i.envelopeId == 1
  {
    var t := SplitTxn();
    assert t.items[0] in t.items && t.items == [Item(LocalItem(1, 0), 1, Some(1), 100)];
  }

  lemma SplitLoses(op: Op)
    requires op == EnvelopeDelete(1) || op == GroupDelete(1)
    ensures var l := SmallLedger(SplitTxn());
      && Queueable(l, op) && TakesUses(op) && DistinctIds(l) && LosesCategory(l, op, 1)
      && HasKey(l.categories, EntryId, 1) && CategoryUsed(l, 1)
  {
    var t := SplitTxn();
    SplitFacts();
    SmallWellFormed(t);
    SmallListed(t);
    SmallUses(t, 1);
    assert Removed(SmallLedger(t), op) == {1};
    assert TakesCategory(SmallLedger(t), op, t, 1);
    hide SplitTxn, TakesCategory, UsesCategory, Removed, DistinctIds, CategoryUsed;
  }

  /** A category used by one item goes with the item's envelope, or with the group of the envelope. */
  lemma ItemCategoryReplayFails()
    ensures exists l: Ledger, op: Op ::
      op.EnvelopeDelete? && Queueable(l, op) && !Replayable(l, [CategoryDelete(1), op])
    ensures exists l: Ledger, op: Op :: op.GroupDelete? && Queueable(l, op) && !Replayable(l, [CategoryDelete(1), op])
  {
    hide *;
    SplitLoses(EnvelopeDelete(1));
    SplitLoses(GroupDelete(1));
    CategoryDeleteReplay(SmallLedger(SplitTxn()), 1, EnvelopeDelete(1));
    CategoryDeleteReplay(SmallLedger(SplitTxn()), 1, GroupDelete(1));
  }

  /** A new entry 3 merged into 1, and 1 into 2. */
  lemma ChainedMergeReplayFails()
    ensures exists l: Ledger :: WellFormed(l) && !Replayable(l, ChainedPlaces(3, 1, 2, ""))
    ensures exists l: Ledger :: WellFormed(l) && !Replayable(l, ChainedCategories(3, 1, 2, ""))
  {
    var l := SmallLedger(UsingTxn());
    SmallWellFormed(UsingTxn());
    assert !HasKey(l.places, EntryId, 3) && !HasKey(l.categories, EntryId, 3);
    hide SmallLedger, UsingTxn;
    ChainedPlacesReplay(l, 3, 1, 2, "");
    ChainedCategoriesReplay(l, 3, 1, 2, "");
  }
}
