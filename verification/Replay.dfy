// Replaying an outbox over a snapshot that already absorbed part of it.
//
// A full resync takes a fresh snapshot and applies every pending operation again. For the histories
// below the result is the ledger of one clean run, whatever prefix the snapshot had absorbed.
module Replay {
  import opened Sequences
  import opened Tables
  import opened TableReplay
  import opened Ledger
  import opened WellFormedLedger
  import opened ReplayPast
  import opened ReplayRel
  import opened ReplayDictionaries
  import opened ReplayGroups

  // ---- one operation on the whole ledger ----------------------------------------------------------

  lemma TransactionStep(base: Known, known: Known, s: Ledger, o: Ledger, r: Ledger, op: Op)
    requires Point(base, known, s, o, r) && CausalOp(o, known, op)
    requires Future(s, ApplyOp(o, op), Learn(known, op))
    requires op.TxnCreate? || op.TxnUpdate? || op.TxnDelete?
    ensures Rel(Both(base, KnownOf(s)), s, ApplyOp(o, op), ApplyOp(r, op))
  {
    hide TableRel, Resolved, Distinct, Keys;
    var seen := Both(base, KnownOf(s)).transactions;
    match op
    case TxnCreate(p) =>
      var row := TxnFromCreate(p);
      KeyIn(s.transactions, TxnId, p.id);
      KeyIn(o.transactions, TxnId, p.id);
      TableInsert(s.transactions, o.transactions, r.transactions, TxnId, Outside(seen), TxnBetween, row);
    case TxnUpdate(p) =>
      KeyIn(s.transactions, TxnId, p.id);
      KeyIn(o.transactions, TxnId, p.id);
      UpdateTxnStep(seen, s.transactions, o.transactions, r.transactions, p);
    case TxnDelete(id) =>
      DroppedKey(o.transactions, TxnId, TxnOtherThan(id), id);
      assert id !in Keys(s.transactions, TxnId);
      DropKeyStep(s.transactions, o.transactions, r.transactions, TxnId, Outside(seen), TxnBetween, TxnOtherThan(id));
  }

  lemma OffAccountEnd(s: Ledger, id: Id)
    requires WellFormed(s) && id !in AccountIds(s)
    ensures forall t :: t in s.transactions ==> OffAccount(id)(t)
  {
  }

  lemma AccountStep(base: Known, known: Known, s: Ledger, o: Ledger, r: Ledger, op: Op)
    requires Point(base, known, s, o, r) && CausalOp(o, known, op)
    requires Future(s, ApplyOp(o, op), Learn(known, op))
    requires op.AccountCreate? || op.AccountUpdate? || op.AccountDelete?
    ensures Rel(Both(base, KnownOf(s)), s, ApplyOp(o, op), ApplyOp(r, op))
  {
    hide TableRel, Resolved, Distinct, Keys;
    var seen := Both(base, KnownOf(s));
    match op
    case AccountCreate(id, name, p) =>
      CreateStep(base.accounts, known.accounts, s.accounts, o.accounts, r.accounts, AccountId, AccountBetween,
                 AccountFromCreate(id, name, p));
    case AccountUpdate(id, p) =>
      KeyIn(s.accounts, AccountId, id);
      KeyIn(o.accounts, AccountId, id);
      AccountPatchStep(seen.accounts, s.accounts, o.accounts, r.accounts, id, p);
    case AccountDelete(id) =>
      DroppedKey(o.accounts, AccountId, AccountOtherThan(id), id);
      assert id !in AccountIds(s);
      DropKeyStep(s.accounts, o.accounts, r.accounts, AccountId, Outside(seen.accounts), AccountBetween,
        AccountOtherThan(id));
      OffAccountEnd(s, id);
      DropTxnStep(seen.transactions, s.transactions, o.transactions, r.transactions, OffAccount(id));
  }

  lemma EnvelopeDeleteStep(base: Known, known: Known, s: Ledger, o: Ledger, r: Ledger, id: Id)
    requires Point(base, known, s, o, r) && id in known.envelopes
    requires Future(s, ApplyOp(o, EnvelopeDelete(id)), known)
    ensures Rel(Both(base, KnownOf(s)), s, ApplyOp(o, EnvelopeDelete(id)), ApplyOp(r, EnvelopeDelete(id)))
  {
    hide Rel, WellFormed, Keys, DeleteEnvelopes;
    DroppedEnvelope(o, id);
    ClearedStep(Both(base, KnownOf(s)), s, o, r, {id});
  }

  lemma DroppedEnvelope(o: Ledger, id: Id)
    ensures id !in EnvelopeIds(DeleteEnvelopes(o, {id}))
  {
    DroppedKey(o.envelopes, EnvelopeId, EnvelopeOutside({id}), id);
  }

  lemma EnvelopeStep(base: Known, known: Known, s: Ledger, o: Ledger, r: Ledger, op: Op)
    requires Point(base, known, s, o, r) && CausalOp(o, known, op)
    requires op.EnvelopeCreate? || op.EnvelopeUpdate?
    ensures Rel(Both(base, KnownOf(s)), s, ApplyOp(o, op), ApplyOp(r, op))
  {
    hide TableRel, Resolved, Distinct, Keys, Insert, Update, RefsExist, Survivors, HasKey;
    match op
    case EnvelopeCreate(id, groupId, name, p) =>
      CreateStep(base.envelopes, known.envelopes, s.envelopes, o.envelopes, r.envelopes, EnvelopeId, EnvelopeBetween,
                 EnvelopeFromCreate(id, groupId, name, p));
    case EnvelopeUpdate(id, p) =>
      PatchStep(base.envelopes, known.envelopes, s.envelopes, o.envelopes, r.envelopes, EnvelopeId, EnvelopeBetween, id,
                EnvelopePatching(p));
  }

  lemma GroupStep(base: Known, known: Known, s: Ledger, o: Ledger, r: Ledger, op: Op)
    requires Point(base, known, s, o, r) && CausalOp(o, known, op)
    requires op.GroupCreate? || op.GroupUpdate?
    ensures Rel(Both(base, KnownOf(s)), s, ApplyOp(o, op), ApplyOp(r, op))
  {
    hide TableRel, Resolved, Distinct, Keys, Insert, Update, RefsExist, Survivors, HasKey;
    match op
    case GroupCreate(g) =>
      CreateStep(base.groups, known.groups, s.groups, o.groups, r.groups, GroupId, GroupBetween, g);
    case GroupUpdate(id, name, sort) =>
      PatchStep(base.groups, known.groups, s.groups, o.groups, r.groups, GroupId, GroupBetween, id,
        GroupPatching(name, sort));
  }

  lemma CategoryStep(base: Known, known: Known, s: Ledger, o: Ledger, r: Ledger, op: Op)
    requires Point(base, known, s, o, r) && CausalOp(o, known, op)
    requires op.CategoryCreate? || op.CategoryUpdate?
    ensures Rel(Both(base, KnownOf(s)), s, ApplyOp(o, op), ApplyOp(r, op))
  {
    hide TableRel, Resolved, Distinct, Keys, Insert, Update, RefsExist, Survivors, HasKey;
    match op
    case CategoryCreate(id, name) =>
      CreateStep(base.categories, known.categories, s.categories, o.categories, r.categories, EntryId, EntryBetween,
                 Entry(id, name, false));
    case CategoryUpdate(id, name, archived) =>
      PatchStep(base.categories, known.categories, s.categories, o.categories, r.categories, EntryId, EntryBetween, id,
                EntryPatch(name, archived));
  }

  lemma PlaceStep(base: Known, known: Known, s: Ledger, o: Ledger, r: Ledger, op: Op)
    requires Point(base, known, s, o, r) && CausalOp(o, known, op)
    requires op.PlaceCreate? || op.PlaceUpdate?
    ensures Rel(Both(base, KnownOf(s)), s, ApplyOp(o, op), ApplyOp(r, op))
  {
    hide TableRel, Resolved, Distinct, Keys, Insert, Update, RefsExist, Survivors, HasKey;
    match op
    case PlaceCreate(id, name) =>
      CreateStep(base.places, known.places, s.places, o.places, r.places, EntryId, EntryBetween,
        Entry(id, name, false));
    case PlaceUpdate(id, name, archived) =>
      PatchStep(base.places, known.places, s.places, o.places, r.places, EntryId, EntryBetween, id,
        EntryPatch(name, archived));
  }

  lemma CurrencyStep(base: Known, known: Known, s: Ledger, o: Ledger, r: Ledger, op: Op)
    requires Point(base, known, s, o, r) && op.BudgetUpdate?
    ensures Rel(Both(base, KnownOf(s)), s, ApplyOp(o, op), ApplyOp(r, op))
  {
    hide TableRel, Resolved, Distinct, Keys, Update;
    KeyIn(s.budgets, BudgetId, op.id);
    KeyIn(o.budgets, BudgetId, op.id);
    UpdateStep(s.budgets, o.budgets, r.budgets, BudgetId, Outside(Both(base, KnownOf(s)).budgets), BudgetBetween, op.id,
               SetCurrency(op.currency));
  }

  /** One operation of the history, applied to the clean run and to the replay. */
  lemma ReplayStep(base: Known, known: Known, past: Past, s: Ledger, o: Ledger, r: Ledger, op: Op)
    requires Point(base, known, s, o, r) && CausalOp(o, known, op) && Lasting(o, past, op) && past.first == base
    requires Future(s, ApplyOp(o, op), Learn(known, op)) && Ahead(s, Track(o, past, op)) && Mentioned(past, s, r)
    ensures Rel(Both(base, KnownOf(s)), s, ApplyOp(o, op), ApplyOp(r, op))
  {
    hide *;
    RowsMentioned(past, s, r);
    LearnNothing(known, op);
    RemovalKnown(o, known, op);
    match op
    case TxnCreate(_) => TransactionStep(base, known, s, o, r, op);
    case TxnUpdate(_) => TransactionStep(base, known, s, o, r, op);
    case TxnDelete(_) => TransactionStep(base, known, s, o, r, op);
    case AllocSet(_, _, _) => AllocationsStep(base, known, s, o, r, op);
    case AccountCreate(_, _, _) => AccountStep(base, known, s, o, r, op);
    case AccountUpdate(_, _) => AccountStep(base, known, s, o, r, op);
    case AccountDelete(_) => AccountStep(base, known, s, o, r, op);
    case EnvelopeCreate(_, _, _, _) => EnvelopeStep(base, known, s, o, r, op);
    case EnvelopeUpdate(_, _) => EnvelopeStep(base, known, s, o, r, op);
    case EnvelopeDelete(id) => EnvelopeDeleteStep(base, known, s, o, r, id);
    case GroupCreate(_) => GroupStep(base, known, s, o, r, op);
    case GroupUpdate(_, _, _) => GroupStep(base, known, s, o, r, op);
    case GroupDelete(id) => GroupDeleteStep(base, known, past, s, o, r, id);
    case CategoryCreate(_, _) => CategoryStep(base, known, s, o, r, op);
    case CategoryUpdate(_, _, _) => CategoryStep(base, known, s, o, r, op);
    case CategoryMerge(fromId, intoId) => CategoryMergeStep(base, known, past, s, o, r, fromId, intoId);
    case CategoryDelete(id) => CategoryDeleteStep(base, known, past, s, o, r, id);
    case PlaceCreate(_, _) => PlaceStep(base, known, s, o, r, op);
    case PlaceUpdate(_, _, _) => PlaceStep(base, known, s, o, r, op);
    case PlaceMerge(fromId, intoId) => PlaceMergeStep(base, known, past, s, o, r, fromId, intoId);
    case PlaceDelete(id) => PlaceDeleteStep(base, known, past, s, o, r, id);
    case BudgetUpdate(_, _) => CurrencyStep(base, known, s, o, r, op);
    case UnknownKind => UnknownStep(base, known, s, o, r, op);
  }

  lemma RowsMentioned(past: Past, s: Ledger, r: Ledger)
    requires Mentioned(past, s, r)
    ensures forall x :: x in r.transactions ==> RowMentions(past, s.transactions, x)
  {
    hide RowMentions, RowEnvelopes, Keys;
    forall x | x in r.transactions ensures RowMentions(past, s.transactions, x) { assert RowMentioned(past, s, x); }
  }

  /** Only creates teach ids. */
  lemma LearnNothing(known: Known, op: Op)
    ensures op.EnvelopeDelete? || op.GroupDelete? || op.AllocSet? ==> Learn(known, op) == known
    ensures op.CategoryMerge? || op.CategoryDelete? || op.PlaceMerge? || op.PlaceDelete? ==> Learn(known, op) == known
  {
  }

  lemma UnknownStep(base: Known, known: Known, s: Ledger, o: Ledger, r: Ledger, op: Op)
    requires Point(base, known, s, o, r) && op.UnknownKind?
    ensures Rel(Both(base, KnownOf(s)), s, ApplyOp(o, op), ApplyOp(r, op))
  {
    hide Rel, KnownOf, Within, Future, WellFormed;
  }

  lemma AllocationsStep(base: Known, known: Known, s: Ledger, o: Ledger, r: Ledger, op: Op)
    requires Point(base, known, s, o, r) && CausalOp(o, known, op) && op.AllocSet?
    requires Future(s, ApplyOp(o, op), known)
    ensures Rel(Both(base, KnownOf(s)), s, ApplyOp(o, op), ApplyOp(r, op))
  {
    hide TableRel, Resolved, Distinct, Keys, SetAllocation, HasKey;
    AllocSetStep(Both(base, KnownOf(s)), known, s, o, r, op);
  }

  // ---- what the replay mentions stays accounted for -----------------------------------------------

  lemma NamedGrow(l: Ledger, past: Past, op: Op)
    ensures var later := Track(l, past, op);
      && past.envelopes + NamedEnvelopes(op) == later.envelopes
      && past.places.named + NamedPlaces(op) <= later.places.named
      && past.categories.named + NamedCategories(op) <= later.categories.named
    ensures PlaceEffect(l, op).MergedAway? ==> PlaceEffect(l, op).intoId in Track(l, past, op).places.named
    ensures CategoryEffect(l, op).MergedAway? ==> CategoryEffect(l, op).intoId in Track(l, past, op).categories.named
  {
    hide ApplyOp, NamedPlaces, NamedCategories, NamedEnvelopes, UsesPlaceStill, UsesCategoryStill, UsesItemStill,
      PlaceEffect, CategoryEffect;
  }

  predicate Grown(past: Past, later: Past) {
    past.envelopes <= later.envelopes && past.places.named <= later.places.named &&
    past.categories.named <= later.categories.named
  }

  lemma SameStaysMentioned(past: Past, later: Past, s: Ledger, x: Transaction)
    requires RowMentioned(past, s, x) && Grown(past, later)
    ensures RowMentioned(later, s, x)
  {
    hide SamePlaceAs, SameCategoryAs, SameItemsAs, RowEnvelopes, RowPlaces, ItemCategories, Keys;
  }

  /** The names of a payload are all in the record. */
  predicate PayloadNamed(later: Past, p: TxnFields) {
    var t := TxnFromCreate(p);
    && RowEnvelopes(t) <= later.envelopes && RowPlaces(t) <= later.places.named &&
      RowCategories(t) <= later.categories.named
  }

  lemma CreatedIsMentioned(later: Past, s: Ledger, p: TxnFields)
    requires PayloadNamed(later, p)
    ensures RowMentioned(later, s, TxnFromCreate(p))
  {
    hide SamePlaceAs, SameCategoryAs, SameItemsAs, TxnFromCreate, Keys;
  }

  lemma RewrittenIsMentioned(past: Past, later: Past, s: Ledger, x: Transaction, p: TxnFields)
    requires RowMentioned(past, s, x) && Grown(past, later) && PayloadNamed(later, p)
    ensures RowMentioned(later, s, TxnFromUpdate(x, p))
  {
    WrittenMentions(x, p);
    WrittenEnvelopes(x, p);
    hide SamePlaceAs, SameCategoryAs, SameItemsAs, TxnFromCreate, TxnFromUpdate, Keys, RowEnvelopes;
  }

  lemma WrittenIsMentioned(past: Past, later: Past, s: Ledger, x: Transaction, p: TxnFields)
    requires RowMentioned(past, s, x) && Grown(past, later) && PayloadNamed(later, p)
    ensures RowMentioned(later, s, UpdateTxn(p)(x))
  {
    hide RowMentioned, Grown, PayloadNamed, TxnFromUpdate, SemanticsValid;
    SameStaysMentioned(past, later, s, x);
    RewrittenIsMentioned(past, later, s, x, p);
  }

  lemma WrittenEnvelopes(x: Transaction, p: TxnFields)
    ensures RowEnvelopes(TxnFromUpdate(x, p)) <= RowEnvelopes(x) + RowEnvelopes(TxnFromCreate(p))
  {
    WrittenMentions(x, p);
    hide BuildItems, ItemEnvelopes;
  }

  lemma ClearedIsMentioned(past: Past, later: Past, s: Ledger, x: Transaction, ids: set<Id>)
    requires RowMentioned(past, s, x) && Grown(past, later) && WellFormed(s) && ids !! EnvelopeIds(s)
    ensures RowMentioned(later, s, ClearTxn(ids)(x))
  {
    ClearedMentions(x, ids);
    if SameItemsAs(s.transactions, x) {
      var a :| a in s.transactions && a.id == x.id && a.items == x.items;
      FinalItemsStay(s, a, ids);
      assert SameItemsAs(s.transactions, ClearTxn(ids)(x));
    }
    if SamePlaceAs(s.transactions, x) { assert SamePlaceAs(s.transactions, ClearTxn(ids)(x)); }
    if SameCategoryAs(s.transactions, x) { assert SameCategoryAs(s.transactions, ClearTxn(ids)(x)); }
    hide SamePlaceAs, SameCategoryAs, SameItemsAs, Keys, RowEnvelopes, ItemCategories, WellFormed;
  }

  lemma FinalItemsStay(s: Ledger, a: Transaction, ids: set<Id>)
    requires WellFormed(s) && a in s.transactions && ids !! EnvelopeIds(s)
    ensures Filter(a.items, ItemOutside(ids)) == a.items
  {
    hide Keys;
    FilterAll(a.items, ItemOutside(ids));
  }

  lemma MovedIsMentioned(past: Past, later: Past, s: Ledger, x: Transaction, fromId: Id, intoId: Id)
    requires RowMentioned(past, s, x) && Grown(past, later) && fromId != intoId && intoId in later.places.named
    ensures RowMentioned(later, s, Replace(fromId, intoId)(x))
  {
    var after := Replace(fromId, intoId)(x);
    ReplacedMentions(x, fromId, intoId);
    if fromId !in RowPlaces(x) { PlaceUnread(x, fromId, intoId); }
    if SameItemsAs(s.transactions, x) { assert SameItemsAs(s.transactions, after); }
    if SameCategoryAs(s.transactions, x) { assert SameCategoryAs(s.transactions, after); }
    SameStaysMentioned(past, later, s, x);
    hide SamePlaceAs, SameCategoryAs, SameItemsAs, Keys, RowEnvelopes, ItemCategories;
  }

  lemma MovedCategoryIsMentioned(past: Past, later: Past, s: Ledger, x: Transaction, fromId: Id, intoId: Id)
    requires RowMentioned(past, s, x) && Grown(past, later) && fromId != intoId && intoId in later.categories.named
    requires forall a :: a in s.transactions ==> fromId !in RowCategories(a)
    ensures RowMentioned(later, s, Recategorise(fromId, intoId)(x))
  {
    var after := Recategorise(fromId, intoId)(x);
    RecategorisedMentions(x, fromId, intoId);
    if SamePlaceAs(s.transactions, x) { assert SamePlaceAs(s.transactions, after); }
    if SameItemsAs(s.transactions, x) {
      var a :| a in s.transactions && a.id == x.id && a.items == x.items;
      assert fromId !in RowCategories(a);
      assert SameItemsAs(s.transactions, after);
    }
    if SameCategoryAs(s.transactions, x) {
      var a :| a in s.transactions && a.id == x.id && a.categoryId == x.categoryId;
      assert fromId !in RowCategories(a);
      assert SameCategoryAs(s.transactions, after);
    }
    SameStaysMentioned(past, later, s, x);
    hide SamePlaceAs, SameCategoryAs, SameItemsAs, Keys, RowEnvelopes, ItemCategories;
  }

  predicate RowsMentionedBy(past: Past, s: Ledger, rows: seq<Transaction>) {
    forall x :: x in rows ==> RowMentioned(past, s, x)
  }

  predicate AccountsMentionedBy(past: Past, s: Ledger, accounts: seq<Account>) {
    forall a :: a in accounts ==> AccountMentioned(past, s, a)
  }

  lemma CreatedRows(past: Past, later: Past, s: Ledger, rows: seq<Transaction>, p: TxnFields)
    requires RowsMentionedBy(past, s, rows) && Grown(past, later) && PayloadNamed(later, p)
    ensures RowsMentionedBy(later, s, Insert(rows, TxnId, TxnFromCreate(p)))
  {
    CreatedIsMentioned(later, s, p);
    hide RowMentioned, TxnFromCreate, HasKey;
    forall x | x in rows ensures RowMentioned(later, s, x) { SameStaysMentioned(past, later, s, x); }
  }

  lemma UpdatedRows(past: Past, later: Past, s: Ledger, rows: seq<Transaction>, p: TxnFields)
    requires RowsMentionedBy(past, s, rows) && Grown(past, later) && PayloadNamed(later, p)
    ensures RowsMentionedBy(later, s, Update(rows, TxnId, p.id, UpdateTxn(p)))
  {
    UpdateElements(rows, TxnId, p.id, UpdateTxn(p));
    hide RowMentioned, UpdateTxn, Update;
    forall x | x in rows ensures RowMentioned(later, s, x) && RowMentioned(later, s, UpdateTxn(p)(x)) {
      SameStaysMentioned(past, later, s, x);
      WrittenIsMentioned(past, later, s, x, p);
    }
  }

  lemma ClearedRows(past: Past, later: Past, s: Ledger, rows: seq<Transaction>, ids: set<Id>)
    requires RowsMentionedBy(past, s, rows) && Grown(past, later) && WellFormed(s) && ids !! EnvelopeIds(s)
    ensures RowsMentionedBy(later, s, Map(rows, ClearTxn(ids)))
  {
    MapElements(rows, ClearTxn(ids));
    hide RowMentioned, ClearTxn, Map, WellFormed, Keys;
    forall x | x in rows ensures RowMentioned(later, s, ClearTxn(ids)(x))
    { ClearedIsMentioned(past, later, s, x, ids); }
  }

  lemma MovedRows(past: Past, later: Past, s: Ledger, rows: seq<Transaction>, fromId: Id, intoId: Id)
    requires RowsMentionedBy(past, s, rows) && Grown(past, later) && fromId != intoId && intoId in later.places.named
    ensures RowsMentionedBy(later, s, Map(rows, Replace(fromId, intoId)))
  {
    MapElements(rows, Replace(fromId, intoId));
    hide RowMentioned, Replace, Map;
    forall x | x in rows ensures RowMentioned(later, s, Replace(fromId, intoId)(x)) {
      MovedIsMentioned(past, later, s, x, fromId, intoId);
    }
  }

  lemma MovedCategoryRows(past: Past, later: Past, s: Ledger, rows: seq<Transaction>, fromId: Id, intoId: Id)
    requires RowsMentionedBy(past, s, rows) && Grown(past, later) && fromId != intoId &&
      intoId in later.categories.named
    requires forall a :: a in s.transactions ==> fromId !in RowCategories(a)
    ensures RowsMentionedBy(later, s, Map(rows, Recategorise(fromId, intoId)))
  {
    MapElements(rows, Recategorise(fromId, intoId));
    hide RowMentioned, Recategorise, Map, RowCategories;
    forall x | x in rows ensures RowMentioned(later, s, Recategorise(fromId, intoId)(x)) {
      MovedCategoryIsMentioned(past, later, s, x, fromId, intoId);
    }
  }

  lemma FewerRows(past: Past, later: Past, s: Ledger, rows: seq<Transaction>, left: seq<Transaction>)
    requires RowsMentionedBy(past, s, rows) && Grown(past, later) && forall x :: x in left ==> x in rows
    ensures RowsMentionedBy(later, s, left)
  {
    hide RowMentioned;
    forall x | x in left ensures RowMentioned(later, s, x) { SameStaysMentioned(past, later, s, x); }
  }

  /** What is known of the operation where the replay applies it. */
  ghost predicate Replaying(past: Past, later: Past, s: Ledger, r: Ledger, op: Op) {
    && Grown(past, later) && WellFormed(s)
    && (op.TxnCreate? || op.TxnUpdate? ==> PayloadNamed(later, op.txn))
    && NamedEnvelopes(op) <= later.envelopes
    && (op.EnvelopeDelete? ==> {op.id} !! EnvelopeIds(s))
    && (op.GroupDelete? ==> EnvelopesOfGroup(r, op.id) !! EnvelopeIds(s))
    && (op.PlaceMerge? && HasKey(r.places, EntryId, op.fromId) && HasKey(r.places, EntryId, op.intoId) ==>
      op.fromId != op.intoId && op.intoId in later.places.named)
    && (op.CategoryMerge? && HasKey(r.categories, EntryId, op.fromId) && HasKey(r.categories, EntryId, op.intoId) ==>
      op.fromId != op.intoId && op.intoId in later.categories.named &&
      forall a :: a in s.transactions ==> op.fromId !in RowCategories(a))
  }

  lemma RowsStayMentioned(past: Past, later: Past, s: Ledger, r: Ledger, op: Op)
    requires RowsMentionedBy(past, s, r.transactions) && Replaying(past, later, s, r, op)
    ensures RowsMentionedBy(later, s, ApplyOp(r, op).transactions)
  {
    hide RowsMentionedBy, Grown, PayloadNamed, Insert, Update, Map, HasKey, WellFormed, Keys, RowCategories,
      NamedEnvelopes,
      EnvelopesOfGroup, DropEntry, PlaceUsed, CategoryUsed, SetAllocation;
    match op
    case TxnCreate(p) => CreatedRows(past, later, s, r.transactions, p);
    case TxnUpdate(p) => UpdatedRows(past, later, s, r.transactions, p);
    case EnvelopeDelete(id) => ClearedRows(past, later, s, r.transactions, {id});
    case GroupDelete(id) => ClearedRows(past, later, s, r.transactions, EnvelopesOfGroup(r, id));
    case PlaceMerge(fromId, intoId) =>
      FewerRows(past, later, s, r.transactions, r.transactions);
      if HasKey(r.places, EntryId, fromId) && HasKey(r.places, EntryId, intoId) {
        MovedRows(past, later, s, r.transactions, fromId, intoId);
      }
    case CategoryMerge(fromId, intoId) =>
      FewerRows(past, later, s, r.transactions, r.transactions);
      if HasKey(r.categories, EntryId, fromId) && HasKey(r.categories, EntryId, intoId) {
        MovedCategoryRows(past, later, s, r.transactions, fromId, intoId);
      }
    case TxnDelete(id) => FewerRows(past, later, s, r.transactions, Filter(r.transactions, TxnOtherThan(id)));
    case AccountDelete(id) => FewerRows(past, later, s, r.transactions, Filter(r.transactions, OffAccount(id)));
    case _ => FewerRows(past, later, s, r.transactions, r.transactions);
  }

  lemma PatchedAccount(later: Past, s: Ledger, a: Account, p: AccountPatch)
    requires AccountMentioned(later, s, a) && Some1(OrNull(p.automaticEnvelopeId)) <= later.envelopes
    ensures AccountMentioned(later, s, AccountPatching(p)(a))
  {
    hide Keys;
  }

  lemma ClearedAccounts(later: Past, s: Ledger, accounts: seq<Account>, ids: set<Id>)
    requires AccountsMentionedBy(later, s, accounts)
    ensures AccountsMentionedBy(later, s, Map(accounts, ClearAccount(ids)))
  {
    MapElements(accounts, ClearAccount(ids));
    hide Keys, Map;
  }

  lemma PatchedAccounts(later: Past, s: Ledger, accounts: seq<Account>, id: Id, p: AccountPatch)
    requires AccountsMentionedBy(later, s, accounts) && Some1(OrNull(p.automaticEnvelopeId)) <= later.envelopes
    ensures AccountsMentionedBy(later, s, Update(accounts, AccountId, id, AccountPatching(p)))
  {
    UpdateElements(accounts, AccountId, id, AccountPatching(p));
    hide Keys, Update, AccountPatching, AccountMentioned;
    forall a | a in accounts ensures AccountMentioned(later, s, AccountPatching(p)(a))
    { PatchedAccount(later, s, a, p); }
  }

  lemma CreatedAccount(later: Past, s: Ledger, accounts: seq<Account>, id: Id, name: string, p: AccountPatch)
    requires AccountsMentionedBy(later, s, accounts) && Some1(OrNull(p.automaticEnvelopeId)) <= later.envelopes
    ensures AccountsMentionedBy(later, s, Insert(accounts, AccountId, AccountFromCreate(id, name, p)))
  {
    InsertElements(accounts, AccountId, AccountFromCreate(id, name, p));
    hide Keys, Insert;
  }

  lemma AccountsGrow(past: Past, later: Past, s: Ledger, accounts: seq<Account>)
    requires AccountsMentionedBy(past, s, accounts) && past.envelopes <= later.envelopes
    ensures AccountsMentionedBy(later, s, accounts)
  {
    hide Keys;
  }

  lemma AccountsStayMentioned(past: Past, later: Past, s: Ledger, r: Ledger, op: Op)
    requires AccountsMentionedBy(past, s, r.accounts) && past.envelopes <= later.envelopes
    requires NamedEnvelopes(op) <= later.envelopes
    ensures AccountsMentionedBy(later, s, ApplyOp(r, op).accounts)
  {
    AccountsGrow(past, later, s, r.accounts);
    hide Keys, HasKey, Insert, Update, Map, EnvelopesOfGroup, DropEntry, PlaceUsed, CategoryUsed, SetAllocation,
      AccountMentioned,
      AccountPatching, AccountFromCreate;
    match op
    case AccountCreate(id, name, p) => CreatedAccount(later, s, r.accounts, id, name, p);
    case AccountUpdate(id, p) => PatchedAccounts(later, s, r.accounts, id, p);
    case EnvelopeDelete(id) => ClearedAccounts(later, s, r.accounts, {id});
    case GroupDelete(id) => ClearedAccounts(later, s, r.accounts, EnvelopesOfGroup(r, id));
    case _ =>
  }

  lemma InsertElements<T(!new), K>(rows: seq<T>, key: T -> K, row: T)
    ensures forall x :: x in Insert(rows, key, row) ==> x in rows || x == row
  {
  }

  lemma TrackGrows(l: Ledger, past: Past, op: Op)
    ensures Grown(past, Track(l, past, op)) && NamedEnvelopes(op) <= Track(l, past, op).envelopes
    ensures op.TxnCreate? || op.TxnUpdate? ==> PayloadNamed(Track(l, past, op), op.txn)
  {
    NamedGrow(l, past, op);
    hide Track, TxnFromCreate, RowEnvelopes, RowPlaces, RowCategories;
  }

  lemma PlaceMergeChecks(l: Ledger, past: Past, fromId: Id, intoId: Id)
    requires Lasting(l, past, PlaceMerge(fromId, intoId))
    requires HasKey(l.places, EntryId, fromId) && HasKey(l.places, EntryId, intoId)
    ensures fromId != intoId && intoId in Track(l, past, PlaceMerge(fromId, intoId)).places.named
  {
    NamedGrow(l, past, PlaceMerge(fromId, intoId));
    hide Track, TrackPlaces, TrackCategories, TrackItems, HasKey;
  }

  lemma PlaceMergeTogether(
    base: Known, known: Known, past: Past, s: Ledger, o: Ledger, r: Ledger, fromId: Id, intoId: Id)
    requires Point(base, known, s, o, r) && CausalOp(o, known, PlaceMerge(fromId, intoId))
    requires Lasting(o, past, PlaceMerge(fromId, intoId)) && past.first == base && Mentioned(past, s, r)
    requires Future(s, ApplyOp(o, PlaceMerge(fromId, intoId)), known) &&
      Ahead(s, Track(o, past, PlaceMerge(fromId, intoId)))
    ensures Replaying(past, Track(o, past, PlaceMerge(fromId, intoId)), s, r, PlaceMerge(fromId, intoId))
  {
    PointFacts(base, known, s, o, r, PlaceMerge(fromId, intoId));
    TrackGrows(o, past, PlaceMerge(fromId, intoId));
    RelParts(base, s, o, r);
    RowsMentioned(past, s, r);
    PointWellFormed(base, known, s, o, r);
    MergeListing(base.places, known.places, s.places, o.places, r.places, fromId, intoId);
    if HasKey(o.places, EntryId, fromId) && HasKey(o.places, EntryId, intoId) {
      PlaceMergeChecks(o, past, fromId, intoId);
      PlaceMergeFacts(base, known, past, s, o, r, fromId, intoId);
    }
    hide Point, CausalOp, Lasting, Mentioned, Future, Ahead, Track, Grown, WellFormed, HasKey, RowMentions,
      RowCategories,
      RowPlaces, Keys, TableRel, Survivors, ApplyOp, KnownOf, Both, Rel;
  }

  lemma CategoryMergeChecks(l: Ledger, past: Past, fromId: Id, intoId: Id)
    requires Lasting(l, past, CategoryMerge(fromId, intoId))
    requires HasKey(l.categories, EntryId, fromId) && HasKey(l.categories, EntryId, intoId)
    ensures fromId != intoId && intoId in Track(l, past, CategoryMerge(fromId, intoId)).categories.named
  {
    NamedGrow(l, past, CategoryMerge(fromId, intoId));
    hide Track, TrackPlaces, TrackCategories, TrackItems, HasKey;
  }

  lemma CategoryMergeTogether(
    base: Known, known: Known, past: Past, s: Ledger, o: Ledger, r: Ledger, fromId: Id, intoId: Id)
    requires Point(base, known, s, o, r) && CausalOp(o, known, CategoryMerge(fromId, intoId))
    requires Lasting(o, past, CategoryMerge(fromId, intoId)) && past.first == base && Mentioned(past, s, r)
    requires Future(s, ApplyOp(o, CategoryMerge(fromId, intoId)), known) &&
      Ahead(s, Track(o, past, CategoryMerge(fromId, intoId)))
    ensures Replaying(past, Track(o, past, CategoryMerge(fromId, intoId)), s, r, CategoryMerge(fromId, intoId))
  {
    PointFacts(base, known, s, o, r, CategoryMerge(fromId, intoId));
    TrackGrows(o, past, CategoryMerge(fromId, intoId));
    RelParts(base, s, o, r);
    RowsMentioned(past, s, r);
    PointWellFormed(base, known, s, o, r);
    MergeListing(base.categories, known.categories, s.categories, o.categories, r.categories, fromId, intoId);
    if HasKey(o.categories, EntryId, fromId) && HasKey(o.categories, EntryId, intoId) {
      CategoryMergeChecks(o, past, fromId, intoId);
      CategoryMergeFacts(base, known, past, s, o, r, fromId, intoId);
    }
    hide Point, CausalOp, Lasting, Mentioned, Future, Ahead, Track, Grown, WellFormed, HasKey, RowMentions,
      RowCategories,
      RowPlaces, Keys, TableRel, Survivors, ApplyOp, KnownOf, Both, Rel;
  }

  lemma PointWellFormed(base: Known, known: Known, s: Ledger, o: Ledger, r: Ledger)
    requires Point(base, known, s, o, r)
    ensures WellFormed(s) && WellFormed(o)
  {
    hide WellFormed, Rel, Future, Within, KnownOf;
  }

  lemma ReplayingOther(past: Past, later: Past, s: Ledger, r: Ledger, op: Op)
    requires Grown(past, later) && WellFormed(s) && !op.PlaceMerge? && !op.CategoryMerge?
    requires op.TxnCreate? || op.TxnUpdate? ==> PayloadNamed(later, op.txn)
    requires NamedEnvelopes(op) <= later.envelopes
    requires op.EnvelopeDelete? ==> op.id !in EnvelopeIds(s)
    requires op.GroupDelete? ==> EnvelopesOfGroup(r, op.id) !! EnvelopeIds(s)
    ensures Replaying(past, later, s, r, op)
  {
    hide Grown, WellFormed, PayloadNamed, NamedEnvelopes, Keys;
  }

  lemma EnvelopeGone(s: Ledger, o: Ledger, known: Known, id: Id)
    requires Future(s, ApplyOp(o, EnvelopeDelete(id)), known) && id in known.envelopes
    ensures id !in EnvelopeIds(s)
  {
    DroppedEnvelope(o, id);
    hide Keys, DeleteEnvelopes;
  }

  lemma RemovalKnown(l: Ledger, known: Known, op: Op)
    requires CausalOp(l, known, op)
    ensures op.EnvelopeDelete? ==> op.id in known.envelopes
    ensures op.GroupDelete? ==> op.id in known.groups
  {
    hide RefsExist;
  }

  lemma FoundIsGone(s: Ledger, r: Ledger, found: set<Id>, all: set<Id>)
    requires FindsPart(s, r, found, all)
    ensures found !! EnvelopeIds(s)
  {
    hide Keys;
  }

  /** What the replay mentions after the operation is accounted for as well. */
  lemma MentionedStep(base: Known, known: Known, past: Past, s: Ledger, o: Ledger, r: Ledger, op: Op)
    requires Point(base, known, s, o, r) && CausalOp(o, known, op) && Lasting(o, past, op) && past.first == base
    requires Future(s, ApplyOp(o, op), Learn(known, op)) && Ahead(s, Track(o, past, op)) && Mentioned(past, s, r)
    ensures Mentioned(Track(o, past, op), s, ApplyOp(r, op))
  {
    hide *;
    var later := Track(o, past, op);
    LearnNothing(known, op);
    TrackGrows(o, past, op);
    PointWellFormed(base, known, s, o, r);
    RemovalKnown(o, known, op);
    match op {
      case PlaceMerge(fromId, intoId) => PlaceMergeTogether(base, known, past, s, o, r, fromId, intoId);
      case CategoryMerge(fromId, intoId) => CategoryMergeTogether(base, known, past, s, o, r, fromId, intoId);
      case EnvelopeDelete(id) =>
        EnvelopeGone(s, o, known, id);
        ReplayingOther(past, later, s, r, op);
      case GroupDelete(id) =>
        GroupFinds(base, known, s, o, r, id);
        FoundIsGone(s, r, EnvelopesOfGroup(r, id), EnvelopesOfGroup(o, id));
        ReplayingOther(past, later, s, r, op);
      case _ => ReplayingOther(past, later, s, r, op);
    }
    MentionedAfter(past, later, s, r, op);
  }

  lemma MentionedAfter(past: Past, later: Past, s: Ledger, r: Ledger, op: Op)
    requires Mentioned(past, s, r) && Replaying(past, later, s, r, op)
    ensures Mentioned(later, s, ApplyOp(r, op))
  {
    hide RowMentioned, AccountMentioned, ApplyOp, WellFormed, PayloadNamed, Keys, RowCategories, NamedEnvelopes, HasKey;
    RowsStayMentioned(past, later, s, r, op);
    AccountsStayMentioned(past, later, s, r, op);
  }

  // ---- no id comes back to life -----------------------------------------------------------------

  lemma KnownGrowsRows(o: Ledger, known: Known, op: Op)
    requires WellFormed(o) && CausalOp(o, known, op)
    requires op.TxnCreate? || op.TxnUpdate? || op.TxnDelete? || op.AllocSet? ||
             op.AccountCreate? || op.AccountUpdate? || op.AccountDelete?
    ensures Within(KnownOf(ApplyOp(o, op)), Learn(KnownOf(o), op))
  {
    hide Distinct, Resolved, RefsExist, Keys, Insert, Update;
    match op
    case TxnCreate(p) => DistinctInsert(o.transactions, TxnId, TxnFromCreate(p));
    case TxnUpdate(p) => UpdatedKeys(o.transactions, p);
    case TxnDelete(id) => KeysFilter(o.transactions, TxnId, TxnOtherThan(id));
    case AllocSet(_, _, _) =>
    case AccountCreate(id, name, p) => DistinctInsert(o.accounts, AccountId, AccountFromCreate(id, name, p));
    case AccountUpdate(id, p) => DistinctUpdate(o.accounts, AccountId, id, AccountPatching(p));
    case AccountDelete(id) =>
      KeysFilter(o.accounts, AccountId, AccountOtherThan(id));
      KeysFilter(o.transactions, TxnId, OffAccount(id));
  }

  lemma KnownGrowsPlan(o: Ledger, known: Known, op: Op)
    requires WellFormed(o) && CausalOp(o, known, op)
    requires op.EnvelopeCreate? || op.EnvelopeUpdate? || op.EnvelopeDelete? ||
             op.GroupCreate? || op.GroupUpdate? || op.GroupDelete?
    ensures Within(KnownOf(ApplyOp(o, op)), Learn(KnownOf(o), op))
  {
    hide Distinct, Resolved, RefsExist, Keys, Insert, Update;
    match op
    case EnvelopeCreate(id, groupId, name, p) => DistinctInsert(o.envelopes, EnvelopeId,
      EnvelopeFromCreate(id, groupId, name, p));
    case EnvelopeUpdate(id, p) => DistinctUpdate(o.envelopes, EnvelopeId, id, EnvelopePatching(p));
    case EnvelopeDelete(id) => ClearedKeys(o, {id});
    case GroupCreate(g) => DistinctInsert(o.groups, GroupId, g);
    case GroupUpdate(id, name, sort) => DistinctUpdate(o.groups, GroupId, id, GroupPatching(name, sort));
    case GroupDelete(id) =>
      ClearedKeys(o, EnvelopesOfGroup(o, id));
      KeysFilter(DeleteEnvelopes(o, EnvelopesOfGroup(o, id)).groups, GroupId, GroupOtherThan(id));
  }

  lemma KnownGrowsDictionary(o: Ledger, known: Known, op: Op)
    requires WellFormed(o) && CausalOp(o, known, op)
    requires op.CategoryCreate? || op.CategoryUpdate? || op.PlaceCreate? || op.PlaceUpdate? || op.BudgetUpdate?
    ensures Within(KnownOf(ApplyOp(o, op)), Learn(KnownOf(o), op))
    ensures Keys(ApplyOp(o, op).budgets, BudgetId) == Keys(o.budgets, BudgetId)
  {
    hide Distinct, Resolved, RefsExist, Keys, Insert, Update;
    match op
    case CategoryCreate(id, name) => DistinctInsert(o.categories, EntryId, Entry(id, name, false));
    case CategoryUpdate(id, name, archived) => DistinctUpdate(o.categories, EntryId, id, EntryPatch(name, archived));
    case PlaceCreate(id, name) => DistinctInsert(o.places, EntryId, Entry(id, name, false));
    case PlaceUpdate(id, name, archived) => DistinctUpdate(o.places, EntryId, id, EntryPatch(name, archived));
    case BudgetUpdate(id, currency) => DistinctUpdate(o.budgets, BudgetId, id, SetCurrency(currency));
  }

  lemma DroppedKeys(entries: seq<Entry>, id: Id, used: bool)
    ensures Keys(DropEntry(entries, id, used), EntryId) <= Keys(entries, EntryId)
  {
    KeysFilter(entries, EntryId, EntryOtherThan(id));
    var archived := Map(entries, ArchiveEntry(id));
    forall i | 0 <= i < |entries| ensures EntryId(archived[i]) in Keys(entries, EntryId) {
      assert entries[i] in entries;
    }
  }

  lemma MovedKeys(rows: seq<Transaction>, f: Transaction -> Transaction)
    requires Preserves(TxnId, f)
    ensures Keys(Map(rows, f), TxnId) <= Keys(rows, TxnId)
  {
    forall i | 0 <= i < |rows| ensures TxnId(Map(rows, f)[i]) in Keys(rows, TxnId) { assert rows[i] in rows; }
  }

  lemma KnownGrowsMerge(o: Ledger, op: Op)
    requires op.CategoryMerge? || op.PlaceMerge? || op.CategoryDelete? || op.PlaceDelete?
    ensures Within(KnownOf(ApplyOp(o, op)), KnownOf(o))
    ensures Keys(ApplyOp(o, op).budgets, BudgetId) == Keys(o.budgets, BudgetId)
  {
    hide Keys, Filter, Map, DropEntry, HasKey, CategoryUsed, PlaceUsed;
    match op
    case CategoryMerge(fromId, intoId) =>
      MoveKeepsId(fromId, intoId);
      MovedKeys(o.transactions, Recategorise(fromId, intoId));
      KeysFilter(o.categories, EntryId, EntryOtherThan(fromId));
    case PlaceMerge(fromId, intoId) =>
      MoveKeepsId(fromId, intoId);
      MovedKeys(o.transactions, Replace(fromId, intoId));
      KeysFilter(o.places, EntryId, EntryOtherThan(fromId));
    case CategoryDelete(id) => DroppedKeys(o.categories, id, CategoryUsed(o, id));
    case PlaceDelete(id) => DroppedKeys(o.places, id, PlaceUsed(o, id));
  }

  /** The ids an operation can add are the ones it teaches. */
  lemma KnownGrows(o: Ledger, known: Known, op: Op)
    requires WellFormed(o) && CausalOp(o, known, op)
    ensures Within(KnownOf(ApplyOp(o, op)), Learn(KnownOf(o), op))
    ensures Keys(ApplyOp(o, op).budgets, BudgetId) == Keys(o.budgets, BudgetId)
  {
    hide WellFormed, RefsExist, Keys, Within;
    match op
    case TxnCreate(_) => KnownGrowsRows(o, known, op);
    case TxnUpdate(_) => KnownGrowsRows(o, known, op);
    case TxnDelete(_) => KnownGrowsRows(o, known, op);
    case AllocSet(_, _, _) => KnownGrowsRows(o, known, op);
    case AccountCreate(_, _, _) => KnownGrowsRows(o, known, op);
    case AccountUpdate(_, _) => KnownGrowsRows(o, known, op);
    case AccountDelete(_) => KnownGrowsRows(o, known, op);
    case EnvelopeCreate(_, _, _, _) => KnownGrowsPlan(o, known, op);
    case EnvelopeUpdate(_, _) => KnownGrowsPlan(o, known, op);
    case EnvelopeDelete(_) => KnownGrowsPlan(o, known, op);
    case GroupCreate(_) => KnownGrowsPlan(o, known, op);
    case GroupUpdate(_, _, _) => KnownGrowsPlan(o, known, op);
    case GroupDelete(_) => KnownGrowsPlan(o, known, op);
    case UnknownKind => WithinItself(KnownOf(o));
    case CategoryMerge(_, _) => KnownGrowsMerge(o, op);
    case CategoryDelete(_) => KnownGrowsMerge(o, op);
    case PlaceMerge(_, _) => KnownGrowsMerge(o, op);
    case PlaceDelete(_) => KnownGrowsMerge(o, op);
    case _ => KnownGrowsDictionary(o, known, op);
  }

  lemma WithinItself(known: Known)
    ensures Within(known, known)
  {
  }

  lemma UpdatedKeys(rows: seq<Transaction>, p: TxnFields)
    requires Distinct(rows, TxnId)
    ensures Keys(Update(rows, TxnId, p.id, UpdateTxn(p)), TxnId) == Keys(rows, TxnId)
  {
    UpdateTxnKeepsId(p);
    DistinctUpdate(rows, TxnId, p.id, UpdateTxn(p));
  }

  lemma ClearedKeys(o: Ledger, ids: set<Id>)
    requires DistinctIds(o)
    ensures Within(KnownOf(DeleteEnvelopes(o, ids)), KnownOf(o))
  {
    DeleteEnvelopesIds(o, ids);
    DistinctMap(o.transactions, TxnId, ClearTxn(ids));
  }

  /** An allocation only disappears with its envelope. */
  lemma AllocationsStay(o: Ledger, op: Op, k: (Id, Month))
    requires WellFormed(o) && k in Keys(o.allocations, AllocationKey)
    requires k.0 in EnvelopeIds(ApplyOp(o, op))
    ensures k in Keys(ApplyOp(o, op).allocations, AllocationKey)
  {
    hide Distinct, Resolved;
    match op
    case AllocSet(envelopeId, month, amount) =>
      if HasKey(o.envelopes, EnvelopeId, envelopeId) { SetAllocationKeeps(o, envelopeId, month, amount); }
    case EnvelopeDelete(id) => ClearedAllocations(o, {id}, k);
    case GroupDelete(id) => ClearedAllocations(o, EnvelopesOfGroup(o, id), k);
    case _ =>
  }

  lemma ClearedAllocations(o: Ledger, ids: set<Id>, k: (Id, Month))
    requires DistinctIds(o) && k in Keys(o.allocations, AllocationKey)
    requires k.0 in EnvelopeIds(DeleteEnvelopes(o, ids))
    ensures k in Keys(DeleteEnvelopes(o, ids).allocations, AllocationKey)
  {
    DeleteEnvelopesIds(o, ids);
    KeysFilter(o.allocations, AllocationKey, AllocationOutside(ids));
  }

  lemma AllocationsAhead(s: Ledger, o: Ledger, op: Op, k: (Id, Month))
    requires WellFormed(o) && k in Keys(o.allocations, AllocationKey) && k.0 in EnvelopeIds(s)
    requires k.0 in EnvelopeIds(o) ==> k.0 in EnvelopeIds(ApplyOp(o, op))
    requires k in Keys(ApplyOp(o, op).allocations, AllocationKey) ==> k in Keys(s.allocations, AllocationKey)
    ensures k in Keys(s.allocations, AllocationKey)
  {
    hide Distinct;
    var a :| a in o.allocations && AllocationKey(a) == k;
    AllocationsStay(o, op, k);
  }

  lemma FutureBack(s: Ledger, o: Ledger, known: Known, op: Op)
    requires WellFormed(o) && Within(KnownOf(o), known) && CausalOp(o, known, op)
    requires Future(s, ApplyOp(o, op), Learn(known, op))
    ensures Future(s, o, known)
  {
    hide WellFormed, RefsExist, Keys, ApplyOp;
    KnownGrows(o, known, op);
    forall k | k in Keys(o.allocations, AllocationKey) && k.0 in EnvelopeIds(s)
      ensures k in Keys(s.allocations, AllocationKey)
    {
      AllocationsAhead(s, o, op, k);
    }
  }

  lemma FutureNow(o: Ledger, known: Known)
    ensures Future(o, o, known)
  {
    hide Keys;
  }

  lemma {:induction false} FutureHolds(o: Ledger, known: Known, past: Past, rest: seq<Op>)
    requires WellFormed(o) && Within(KnownOf(o), known) && Standing(o, past) && Causal(o, known, past, rest)
    ensures WellFormed(Run(o, rest)) && Future(Run(o, rest), o, known) && Ahead(Run(o, rest), past)
    decreases |rest|
  {
    hide WellFormed, Future, CausalOp, Within, KnownOf, Learn, ApplyOp, Standing, Ahead, Lasting, Track;
    if rest == [] {
      FutureNow(o, known);
      AheadNow(o, past);
    } else {
      OpKeepsWellFormedCausal(o, known, rest[0]);
      KnownStep(KnownOf(o), known, o, rest[0]);
      StandingStep(o, past, rest[0]);
      FutureHolds(ApplyOp(o, rest[0]), Learn(known, rest[0]), Track(o, past, rest[0]), rest[1..]);
      FutureBack(Run(o, rest), o, known, rest[0]);
      AheadBack(Run(o, rest), o, past, rest[0]);
    }
  }

  // ---- the theorem ------------------------------------------------------------------------------

  lemma IdTableStart<T(!new)>(seen: set<Id>, s: seq<T>, o: seq<T>, key: T -> Id, between: (T, T, T) -> bool)
    requires seen == Keys(o, key) + Keys(s, key)
    requires forall a, b :: key(a) == key(b) ==> between(a, b, a)
    ensures TableRel(s, o, s, key, Outside(seen), between)
  {
    TableStart(s, o, key, Outside(seen), between);
  }

  lemma AllocationStart(l: Ledger, s: Ledger)
    requires Resolved(l) && Resolved(s)
    ensures AllocationRel(EnvelopeIds(l) + EnvelopeIds(s), s.allocations, l.allocations, s.allocations)
  {
    TableStart(s.allocations, l.allocations, AllocationKey, OutsideEnvelopes(EnvelopeIds(l) + EnvelopeIds(s)),
      AllocationBetween);
  }

  lemma RelStart(l: Ledger, s: Ledger)
    requires WellFormed(l) && WellFormed(s)
    ensures Rel(Both(KnownOf(l), KnownOf(s)), s, l, s)
  {
    hide DistinctIds, Resolved, TableRel, Keys;
    var seen := Both(KnownOf(l), KnownOf(s));
    IdTableStart(seen.transactions, s.transactions, l.transactions, TxnId, TxnBetween);
    IdTableStart(seen.accounts, s.accounts, l.accounts, AccountId, AccountBetween);
    IdTableStart(seen.envelopes, s.envelopes, l.envelopes, EnvelopeId, EnvelopeBetween);
    IdTableStart(seen.groups, s.groups, l.groups, GroupId, GroupBetween);
    IdTableStart(seen.categories, s.categories, l.categories, EntryId, EntryBetween);
    IdTableStart(seen.places, s.places, l.places, EntryId, EntryBetween);
    IdTableStart(seen.budgets, s.budgets, l.budgets, BudgetId, BudgetBetween);
    AllocationStart(l, s);
  }

  lemma RelEnd(seen: Known, s: Ledger, r: Ledger)
    requires Rel(seen, s, s, r)
    ensures r == s
  {
    hide TableRel;
    TableEnd(s.transactions, r.transactions, TxnId, Outside(seen.transactions), TxnBetween);
    TableEnd(s.accounts, r.accounts, AccountId, Outside(seen.accounts), AccountBetween);
    TableEnd(s.envelopes, r.envelopes, EnvelopeId, Outside(seen.envelopes), EnvelopeBetween);
    TableEnd(s.groups, r.groups, GroupId, Outside(seen.groups), GroupBetween);
    TableEnd(s.categories, r.categories, EntryId, Outside(seen.categories), EntryBetween);
    TableEnd(s.places, r.places, EntryId, Outside(seen.places), EntryBetween);
    TableEnd(s.budgets, r.budgets, BudgetId, Outside(seen.budgets), BudgetBetween);
    TableEnd(s.allocations, r.allocations, AllocationKey, OutsideEnvelopes(seen.envelopes), AllocationBetween);
  }

  lemma {:induction false} ReplayRun(
    base: Known, known: Known, past: Past, s: Ledger, o: Ledger, r: Ledger, rest: seq<Op>)
    requires Rel(Both(base, KnownOf(s)), s, o, r) && Mentioned(past, s, r) && past.first == base
    requires WellFormed(o) && Within(base, known) && Within(KnownOf(o), known) && Standing(o, past)
    requires Causal(o, known, past, rest) && s == Run(o, rest)
    ensures Run(r, rest) == s
    decreases |rest|
  {
    FutureHolds(o, known, past, rest);
    if rest == [] {
      RelEnd(Both(base, KnownOf(s)), s, r);
    } else {
      hide Rel, WellFormed, Future, CausalOp, ApplyOp, KnownOf, Both, Within, Learn, Standing, Ahead, Lasting, Track,
        Mentioned;
      var o', known', past' := ApplyOp(o, rest[0]), Learn(known, rest[0]), Track(o, past, rest[0]);
      OpKeepsWellFormedCausal(o, known, rest[0]);
      KnownStep(base, known, o, rest[0]);
      StandingStep(o, past, rest[0]);
      FutureHolds(o', known', past', rest[1..]);
      ReplayStep(base, known, past, s, o, r, rest[0]);
      MentionedStep(base, known, past, s, o, r, rest[0]);
      TrackKeepsFirst(o, past, rest[0]);
      ReplayRun(base, known', past', s, o', ApplyOp(r, rest[0]), rest[1..]);
    }
  }

  lemma TrackKeepsFirst(l: Ledger, past: Past, op: Op)
    ensures Track(l, past, op).first == past.first
  {
    hide TrackPlaces, TrackCategories, TrackItems;
  }

  lemma KnownStep(base: Known, known: Known, o: Ledger, op: Op)
    requires WellFormed(o) && CausalOp(o, known, op) && Within(base, known) && Within(KnownOf(o), known)
    ensures Within(base, Learn(known, op)) && Within(KnownOf(ApplyOp(o, op)), Learn(known, op))
  {
    hide WellFormed, CausalOp, ApplyOp, KnownOf;
    KnownGrows(o, known, op);
  }

  lemma OpKeepsWellFormedCausal(o: Ledger, known: Known, op: Op)
    requires WellFormed(o) && CausalOp(o, known, op)
    ensures WellFormed(ApplyOp(o, op))
  {
    OpKeepsWellFormed(o, op);
  }

  lemma {:induction false} CausalPrefix(l: Ledger, known: Known, past: Past, history: seq<Op>, k: nat)
    requires Causal(l, known, past, history) && k <= |history|
    ensures Causal(l, known, past, history[..k])
    decreases k
  {
    hide CausalOp, Lasting, ApplyOp, Learn, Track;
    if k == 0 {
    } else {
      CausalPrefix(ApplyOp(l, history[0]), Learn(known, history[0]), Track(l, past, history[0]), history[1..], k - 1);
      assert history[..k][0] == history[0] && history[..k][1..] == history[1..][..k - 1];
    }
  }

  /** The history may be replayed: every operation is causal and lasting, starting from this ledger. */
  ghost predicate MayReplay(l: Ledger, history: seq<Op>) { Causal(l, KnownOf(l), NewPast(l), history) }

  /** A snapshot that absorbed a whole such history is not changed by replaying it. */
  lemma AbsorbedHistoryIsStable(l: Ledger, history: seq<Op>)
    requires WellFormed(l) && MayReplay(l, history)
    ensures Run(Run(l, history), history) == Run(l, history)
  {
    hide Causal, Rel, KnownOf, Both, Within, Standing, Ahead, Mentioned, Future, WellFormed;
    var s := Run(l, history);
    WithinItself(KnownOf(l));
    StandingFirst(l);
    FutureHolds(l, KnownOf(l), NewPast(l), history);
    RelStart(l, s);
    MentionedFirst(l, s);
    ReplayRun(KnownOf(l), KnownOf(l), NewPast(l), s, l, s, history);
  }

  /**
   * Replaying a whole history over a snapshot that absorbed any prefix of it gives exactly the
   * ledger of one clean run.
   */
  lemma ReplayOverSnapshot(l: Ledger, history: seq<Op>, absorbed: nat)
    requires WellFormed(l) && MayReplay(l, history) && absorbed <= |history|
    ensures Run(Run(l, history[..absorbed]), history) == Run(l, history)
  {
    hide Causal, Run, KnownOf, WellFormed;
    var before, after := history[..absorbed], history[absorbed..];
    var snapshot := Run(l, before);
    assert history == before + after;
    CausalPrefix(l, KnownOf(l), NewPast(l), history, absorbed);
    AbsorbedHistoryIsStable(l, before);
    RunConcat(l, before, after);
    RunConcat(snapshot, before, after);
  }

  // ---- histories that need no record --------------------------------------------------------------

  /** No merge, no delete of a dictionary entry, and no delete of a group that still has envelopes. */
  predicate Ordinary(l: Ledger, op: Op) {
    && !op.PlaceMerge? && !op.PlaceDelete? && !op.CategoryMerge? && !op.CategoryDelete?
    && (op.GroupDelete? ==> EnvelopesOfGroup(l, op.id) == {})
  }

  ghost predicate OrdinaryRun(l: Ledger, known: Known, history: seq<Op>)
    decreases |history|
  {
    history == [] ||
    (CausalOp(l, known, history[0]) && Ordinary(l, history[0]) &&
      OrdinaryRun(ApplyOp(l, history[0]), Learn(known, history[0]), history[1..]))
  }

  predicate NothingDone(m: Mentions) { m.gone == {} && m.kept == {} && m.archived == {} }

  lemma OrdinaryLasts(l: Ledger, past: Past, op: Op)
    requires NothingDone(past.places) && NothingDone(past.categories) && Ordinary(l, op)
    ensures Lasting(l, past, op)
    ensures NothingDone(Track(l, past, op).places) && NothingDone(Track(l, past, op).categories)
  {
    UntouchedLasts(l, past, op);
    hide TrackPlaces, TrackCategories, TrackItems, PlaceEffect, CategoryEffect, EffectLasts, PlacesStillUsed,
      CategoriesStillUsed,
      NamedPlaces, NamedCategories, EnvelopesOfGroup;
  }

  lemma UntouchedLasts(l: Ledger, past: Past, op: Op)
    requires NothingDone(past.places) && NothingDone(past.categories) && Ordinary(l, op)
    ensures EffectLasts(past.places, past.first.places, PlaceEffect(l, op))
    ensures EffectLasts(past.categories, past.first.categories, CategoryEffect(l, op))
    ensures NothingDone(TrackPlaces(l, past, op)) && NothingDone(TrackCategories(l, past, op))
    ensures PlacesStillUsed(TrackPlaces(l, past, op))
    ensures CategoriesStillUsed(TrackCategories(l, past, op), TrackItems(l, past, op))
  {
    assert PlaceEffect(l, op) == Untouched && CategoryEffect(l, op) == Untouched;
    hide ApplyOp, PlaceEffect, CategoryEffect, UsesPlaceStill, UsesCategoryStill, UsesItemStill, NamedPlaces,
      NamedCategories, TrackItems;
  }

  lemma {:induction false} OrdinaryIsCausal(l: Ledger, known: Known, past: Past, history: seq<Op>)
    requires OrdinaryRun(l, known, history) && NothingDone(past.places) && NothingDone(past.categories)
    ensures Causal(l, known, past, history)
    decreases |history|
  {
    hide CausalOp, Lasting, ApplyOp, Learn, Track, Ordinary, NothingDone;
    if history != [] {
      OrdinaryLasts(l, past, history[0]);
      OrdinaryIsCausal(ApplyOp(l, history[0]), Learn(known, history[0]), Track(l, past, history[0]), history[1..]);
    }
  }

  /** A causal history of ordinary operations replays over a snapshot that absorbed any prefix of it. */
  lemma OrdinaryHistoriesReplay(l: Ledger, history: seq<Op>, absorbed: nat)
    requires WellFormed(l) && OrdinaryRun(l, KnownOf(l), history) && absorbed <= |history|
    ensures Run(Run(l, history[..absorbed]), history) == Run(l, history)
  {
    assert NothingDone(NewPast(l).places) && NothingDone(NewPast(l).categories);
    assert MayReplay(l, history) by { OrdinaryIsCausal(l, KnownOf(l), NewPast(l), history); }
    hide *;
    ReplayOverSnapshot(l, history, absorbed);
  }

  lemma FirstUsers(l: Ledger, id: Id)
    ensures PlaceUsed(l, id) ==> exists u :: u in PlaceUsers(l, id) && u.0 == id && UsesPlaceStill(l, u)
    ensures CategoryUsed(l, id) ==>
      (exists u :: u in CategoryUsers(l, id) && u.0 == id && UsesCategoryStill(l, u)) ||
      exists u :: u in ItemUsers(l, id) && u.0 == id && UsesItemStill(l, u)
  {
    if PlaceUsed(l, id) {
      var t :| t in l.transactions && t.placeId == Some(id);
      assert (id, t.id) in PlaceUsers(l, id);
    }
    if CategoryUsed(l, id) {
      var t :| t in l.transactions &&
        (t.categoryId == Some(id) || exists i :: i in t.items && i.categoryId == Some(id));
      if t.categoryId == Some(id) {
        assert (id, t.id) in CategoryUsers(l, id);
      } else {
        assert (id, t.id) in ItemUsers(l, id);
      }
    }
  }

  lemma FirstPlacesUsed(l: Ledger, op: Op)
    ensures PlacesStillUsed(TrackPlaces(l, NewPast(l), op))
    ensures EffectLasts(NO_MENTIONS, KnownOf(l).places, PlaceEffect(l, op)) || op.PlaceMerge?
  {
    if op.PlaceDelete? {
      FirstUsers(l, op.id);
      assert ApplyOp(l, op).transactions == l.transactions;
    }
    hide ApplyOp, PlaceUsed, PlaceUsers, HasKey, KnownOf;
  }

  lemma FirstCategoriesUsed(l: Ledger, op: Op)
    ensures CategoriesStillUsed(TrackCategories(l, NewPast(l), op), TrackItems(l, NewPast(l), op))
    ensures EffectLasts(NO_MENTIONS, KnownOf(l).categories, CategoryEffect(l, op)) || op.CategoryMerge?
  {
    if op.CategoryDelete? {
      FirstUsers(l, op.id);
      assert ApplyOp(l, op).transactions == l.transactions;
    }
    hide ApplyOp, CategoryUsed, CategoryUsers, ItemUsers, HasKey, KnownOf;
  }

  lemma FirstMergeLasts(l: Ledger, op: Op)
    requires (op.PlaceMerge? || op.CategoryMerge?) && op.fromId != op.intoId
    ensures EffectLasts(NO_MENTIONS, KnownOf(l).places, PlaceEffect(l, op))
    ensures EffectLasts(NO_MENTIONS, KnownOf(l).categories, CategoryEffect(l, op))
  {
    hide HasKey, KnownOf;
  }

  /** Nothing has been named yet, so any first operation lasts, unless it merges an entry into itself. */
  lemma FirstLasts(l: Ledger, op: Op)
    requires (op.PlaceMerge? || op.CategoryMerge?) ==> op.fromId != op.intoId
    ensures Lasting(l, NewPast(l), op)
  {
    FirstPlacesUsed(l, op);
    FirstCategoriesUsed(l, op);
    if op.PlaceMerge? || op.CategoryMerge? { FirstMergeLasts(l, op); }
    hide TrackPlaces, TrackCategories, TrackItems, PlacesStillUsed, CategoriesStillUsed, EffectLasts, PlaceEffect,
      CategoryEffect,
      KnownOf, NamedPlaces, NamedCategories, EnvelopesOfGroup;
  }

  /** Any one operation, of whatever kind, changes nothing when it is applied again. */
  lemma AnyOperationReplays(l: Ledger, op: Op)
    requires WellFormed(l) && CausalOp(l, KnownOf(l), op)
    requires (op.PlaceMerge? || op.CategoryMerge?) ==> op.fromId != op.intoId
    ensures ApplyOp(ApplyOp(l, op), op) == ApplyOp(l, op)
  {
    hide *;
    FirstLasts(l, op);
    OneMayReplay(l, op);
    RunsOne(op);
    AbsorbedHistoryIsStable(l, [op]);
  }

  lemma OneMayReplay(l: Ledger, op: Op)
    requires CausalOp(l, KnownOf(l), op) && Lasting(l, NewPast(l), op)
    ensures MayReplay(l, [op])
  {
    hide CausalOp, Lasting, ApplyOp, Learn, Track, KnownOf, NewPast;
    assert [op][1..] == [];
    assert Causal(ApplyOp(l, op), Learn(KnownOf(l), op), Track(l, NewPast(l), op), []);
  }

  lemma RunsOne(op: Op)
    ensures forall l :: Run(l, [op]) == ApplyOp(l, op)
  {
    hide ApplyOp;
    forall l ensures Run(l, [op]) == ApplyOp(l, op) { assert [op][1..] == []; }
  }
}
