// What a history has done so far, as far as replaying the rest of it depends on it.
//
// A replay applies operations to rows that may already hold their final values. It goes wrong only
// when it writes back something that is gone, or decides a merge or a delete differently. What is
// recorded here is what a caller has to look at before queueing the next operation.
module ReplayPast {
  import opened Sequences
  import opened Tables
  import opened Ledger
  import opened WellFormedLedger

  /** The ids ever seen in each table. */
  datatype Known = Known(
    accounts: set<Id>, groups: set<Id>, envelopes: set<Id>, transactions: set<Id>,
    categories: set<Id>, places: set<Id>, budgets: set<Id>)

  function KnownOf(l: Ledger): Known {
    Known(
      AccountIds(l), GroupIds(l), EnvelopeIds(l), Keys(l.transactions, TxnId),
      Keys(l.categories, EntryId), Keys(l.places, EntryId), Keys(l.budgets, BudgetId))
  }

  /**
   * Of one dictionary: the ids operations wrote into rows, those merged away or removed, those that
   * entries created by the history were merged into, those a delete archived because rows used them,
   * and for each of these the rows (entry, transaction) that have used it ever since.
   */
  datatype Mentions = Mentions(
    named: set<Id>, gone: set<Id>, kept: set<Id>, archived: set<Id>, users: set<(Id, Id)>)

  /** `first` are the ids of the ledger the history started from, `envelopes` those operations named. */
  datatype Past = Past(first: Known, envelopes: set<Id>, places: Mentions, categories: Mentions,
    itemUsers: set<(Id, Id)>)

  const NO_MENTIONS := Mentions({}, {}, {}, {}, {})

  function NewPast(l: Ledger): Past { Past(KnownOf(l), {}, NO_MENTIONS, NO_MENTIONS, {}) }

  // ---- what rows and operations name --------------------------------------------------------------

  function Some1(ref: Option<Id>): set<Id> { if ref.Some? then {ref.value} else {} }

  function ItemEnvelopes(items: seq<Item>): set<Id> { set i | i in items :: i.envelopeId }

  function ItemCategories(items: seq<Item>): set<Id> { set i | i in items && i.categoryId.Some? :: i.categoryId.value }

  function RowEnvelopes(t: Transaction): set<Id> {
    Some1(t.envelopeId) + Some1(t.allocationFrom) + Some1(t.allocationTo) + ItemEnvelopes(t.items)
  }

  function RowPlaces(t: Transaction): set<Id> { Some1(t.placeId) }

  function RowCategories(t: Transaction): set<Id> { Some1(t.categoryId) + ItemCategories(t.items) }

  function NamedEnvelopes(op: Op): set<Id> {
    match op
    case TxnCreate(p) => RowEnvelopes(TxnFromCreate(p))
    case TxnUpdate(p) => RowEnvelopes(TxnFromCreate(p))
    case AccountCreate(_, _, p) => Some1(OrNull(p.automaticEnvelopeId))
    case AccountUpdate(_, p) => Some1(OrNull(p.automaticEnvelopeId))
    case _ => {}
  }

  function NamedPlaces(op: Op): set<Id> {
    match op
    case TxnCreate(p) => RowPlaces(TxnFromCreate(p))
    case TxnUpdate(p) => RowPlaces(TxnFromCreate(p))
    case _ => {}
  }

  function NamedCategories(op: Op): set<Id> {
    match op
    case TxnCreate(p) => RowCategories(TxnFromCreate(p))
    case TxnUpdate(p) => RowCategories(TxnFromCreate(p))
    case _ => {}
  }

  // ---- what an operation does to a dictionary -----------------------------------------------------

  datatype EntryEffect = Untouched | MergedAway(fromId: Id, intoId: Id) | Archived(id: Id) | Removed(id: Id)

  function MergeEffect(entries: seq<Entry>, fromId: Id, intoId: Id): EntryEffect {
    if HasKey(entries, EntryId, fromId) && HasKey(entries, EntryId, intoId) then MergedAway(fromId, intoId)
      else Untouched
  }

  function DeleteEffect(entries: seq<Entry>, id: Id, used: bool): EntryEffect {
    if !HasKey(entries, EntryId, id) then Untouched else if used then Archived(id) else Removed(id)
  }

  function PlaceEffect(l: Ledger, op: Op): EntryEffect {
    match op
    case PlaceMerge(fromId, intoId) => MergeEffect(l.places, fromId, intoId)
    case PlaceDelete(id) => DeleteEffect(l.places, id, PlaceUsed(l, id))
    case _ => Untouched
  }

  function CategoryEffect(l: Ledger, op: Op): EntryEffect {
    match op
    case CategoryMerge(fromId, intoId) => MergeEffect(l.categories, fromId, intoId)
    case CategoryDelete(id) => DeleteEffect(l.categories, id, CategoryUsed(l, id))
    case _ => Untouched
  }

  // ---- the record of a history --------------------------------------------------------------------

  predicate UsesPlaceStill(l: Ledger, u: (Id, Id)) {
    exists t :: t in l.transactions && t.id == u.1 && t.placeId == Some(u.0)
  }

  predicate UsesCategoryStill(l: Ledger, u: (Id, Id)) {
    exists t :: t in l.transactions && t.id == u.1 && t.categoryId == Some(u.0)
  }

  predicate UsesItemStill(l: Ledger, u: (Id, Id)) {
    exists t :: t in l.transactions && t.id == u.1 && u.0 in ItemCategories(t.items)
  }

  function PlaceUsers(l: Ledger, id: Id): set<(Id, Id)> {
    set t | t in l.transactions && t.placeId == Some(id) :: (id, t.id)
  }

  function CategoryUsers(l: Ledger, id: Id): set<(Id, Id)> {
    set t | t in l.transactions && t.categoryId == Some(id) :: (id, t.id)
  }

  function ItemUsers(l: Ledger, id: Id): set<(Id, Id)> {
    set t | t in l.transactions && id in ItemCategories(t.items) :: (id, t.id)
  }

  /** The ids, kept and archived entries after the operation; `users` is filled in by the caller. */
  function TrackEntry(
    m: Mentions, first: set<Id>, named: set<Id>, effect: EntryEffect, users: set<(Id, Id)>): Mentions
  {
    match effect
    case Untouched => m.(named := m.named + named, users := users)
    case MergedAway(fromId, intoId) =>
      m.(named := m.named + named + {intoId}, gone := m.gone + {fromId},
         kept := if fromId !in first && intoId in first then m.kept + {intoId} else m.kept, users := users)
    case Archived(id) => m.(named := m.named + named, archived := m.archived + {id}, users := users)
    case Removed(id) => m.(named := m.named + named, gone := m.gone + {id}, users := users)
  }

  /** The rows that count as users of an entry the operation archives, if no earlier delete archived it. */
  predicate NewlyArchived(m: Mentions, effect: EntryEffect) { effect.Archived? && effect.id !in m.archived }

  function TrackPlaces(l: Ledger, past: Past, op: Op): Mentions {
    var m, effect, after := past.places, PlaceEffect(l, op), ApplyOp(l, op);
    var users := m.users + if NewlyArchived(m, effect) then PlaceUsers(l, effect.id) else {};
    TrackEntry(m, past.first.places, NamedPlaces(op), effect, set u | u in users && UsesPlaceStill(after, u))
  }

  function TrackCategories(l: Ledger, past: Past, op: Op): Mentions {
    var m, effect, after := past.categories, CategoryEffect(l, op), ApplyOp(l, op);
    var users := m.users + if NewlyArchived(m, effect) then CategoryUsers(l, effect.id) else {};
    TrackEntry(m, past.first.categories, NamedCategories(op), effect, set u | u in users && UsesCategoryStill(after, u))
  }

  function TrackItems(l: Ledger, past: Past, op: Op): set<(Id, Id)> {
    var m, effect, after := past.categories, CategoryEffect(l, op), ApplyOp(l, op);
    var users := past.itemUsers + if NewlyArchived(m, effect) then ItemUsers(l, effect.id) else {};
    set u | u in users && UsesItemStill(after, u)
  }

  /** The record after one more operation. */
  function Track(l: Ledger, past: Past, op: Op): Past {
    Past(past.first, past.envelopes + NamedEnvelopes(op), TrackPlaces(l, past, op), TrackCategories(l, past, op),
         TrackItems(l, past, op))
  }

  // ---- when replaying the operation comes to the same ---------------------------------------------

  /** Nothing in the history has named an entry that was there before it, and nothing depends on it. */
  predicate EffectLasts(m: Mentions, first: set<Id>, effect: EntryEffect) {
    match effect
    case Untouched => true
    case MergedAway(fromId, intoId) =>
      fromId != intoId && fromId !in m.kept && fromId !in m.archived && intoId !in m.gone &&
      (fromId in first ==> fromId !in m.named)
    case Archived(id) => true
    case Removed(id) => id !in m.kept
  }

  predicate PlacesStillUsed(m: Mentions) { forall id :: id in m.archived ==> exists u :: u in m.users && u.0 == id }

  predicate CategoriesStillUsed(m: Mentions, items: set<(Id, Id)>) {
    forall id :: id in m.archived ==> (exists u :: u in m.users && u.0 == id) || exists u :: u in items && u.0 == id
  }

  /**
   * The conditions on an operation, read off the ledger, the payload and the record:
   * it names no entry that is gone; it deletes no group with an envelope that was there from the
   * start and that the history named; a merge does not take away an entry the history named, merged
   * into or archived; and an entry archived by a delete keeps a row that has used it since.
   */
  predicate Lasting(l: Ledger, past: Past, op: Op) {
    && NamedPlaces(op) !! past.places.gone && NamedCategories(op) !! past.categories.gone
    && (op.GroupDelete? ==> EnvelopesOfGroup(l, op.id) * past.envelopes * past.first.envelopes == {})
    && EffectLasts(past.places, past.first.places, PlaceEffect(l, op))
    && EffectLasts(past.categories, past.first.categories, CategoryEffect(l, op))
    && PlacesStillUsed(TrackPlaces(l, past, op))
    && CategoriesStillUsed(TrackCategories(l, past, op), TrackItems(l, past, op))
  }

  // ---- the record tells the truth about the ledger ------------------------------------------------

  predicate NoneGone(rows: seq<Transaction>, past: Past) {
    forall t :: t in rows ==> RowPlaces(t) !! past.places.gone && RowCategories(t) !! past.categories.gone
  }

  predicate Standing(l: Ledger, past: Past) {
    && NoneGone(l.transactions, past)
    && past.places.kept <= Keys(l.places, EntryId) && past.categories.kept <= Keys(l.categories, EntryId)
    && (forall u :: u in past.places.users ==> UsesPlaceStill(l, u))
    && (forall u :: u in past.categories.users ==> UsesCategoryStill(l, u))
    && (forall u :: u in past.itemUsers ==> UsesItemStill(l, u))
    && PlacesStillUsed(past.places) && CategoriesStillUsed(past.categories, past.itemUsers)
  }

  lemma StandingFirst(l: Ledger)
    ensures Standing(l, NewPast(l))
  {
  }

  /** What the end of the history still owes to what is recorded now. */
  predicate Ahead(s: Ledger, past: Past) {
    && NoneGone(s.transactions, past)
    && past.places.kept <= Keys(s.places, EntryId) && past.categories.kept <= Keys(s.categories, EntryId)
    && (forall id :: id in past.places.archived ==>
      exists u :: u in past.places.users && u.0 == id && UsesPlaceStill(s, u))
    && (forall id :: id in past.categories.archived ==>
      (exists u :: u in past.categories.users && u.0 == id && UsesCategoryStill(s, u)) ||
      exists u :: u in past.itemUsers && u.0 == id && UsesItemStill(s, u))
  }

  lemma AheadNow(l: Ledger, past: Past)
    requires Standing(l, past)
    ensures Ahead(l, past)
  {
    hide Keys, NoneGone, UsesPlaceStill, UsesCategoryStill, UsesItemStill;
  }

  lemma AheadBack(s: Ledger, l: Ledger, past: Past, op: Op)
    requires Ahead(s, Track(l, past, op))
    ensures Ahead(s, past)
  {
    var later := Track(l, past, op);
    hide Keys, UsesPlaceStill, UsesCategoryStill, UsesItemStill, ApplyOp, PlaceEffect, CategoryEffect;
    forall id | id in past.places.archived
      ensures exists u :: u in past.places.users && u.0 == id && UsesPlaceStill(s, u)
    {
      var u :| u in later.places.users && u.0 == id && UsesPlaceStill(s, u);
      assert u in past.places.users;
    }
    forall id | id in past.categories.archived
      ensures (exists u :: u in past.categories.users && u.0 == id && UsesCategoryStill(s, u)) ||
        exists u :: u in past.itemUsers && u.0 == id && UsesItemStill(s, u)
    {
      if u :| u in later.categories.users && u.0 == id && UsesCategoryStill(s, u) {
        assert u in past.categories.users;
      } else {
        var u :| u in later.itemUsers && u.0 == id && UsesItemStill(s, u);
        assert u in past.itemUsers;
      }
    }
  }

  // ---- every operation keeps the record true ------------------------------------------------------

  lemma WrittenMentions(t: Transaction, p: TxnFields)
    ensures RowPlaces(TxnFromUpdate(t, p)) == RowPlaces(TxnFromCreate(p))
    ensures RowCategories(TxnFromUpdate(t, p)) == RowCategories(TxnFromCreate(p))
    ensures ItemCategories(TxnFromUpdate(t, p).items) == ItemCategories(TxnFromCreate(p).items)
    ensures ItemEnvelopes(TxnFromUpdate(t, p).items) == ItemEnvelopes(TxnFromCreate(p).items)
  {
    var a, b := BuildItems(t.id, p.items), BuildItems(p.id, p.items);
    forall i | 0 <= i < |a|
      ensures a[i] in a && b[i] in b && a[i].categoryId == b[i].categoryId && a[i].envelopeId == b[i].envelopeId
    {
    }
  }

  lemma ClearedMentions(t: Transaction, ids: set<Id>)
    ensures RowPlaces(ClearTxn(ids)(t)) == RowPlaces(t) && RowCategories(ClearTxn(ids)(t)) <= RowCategories(t)
    ensures RowEnvelopes(ClearTxn(ids)(t)) <= RowEnvelopes(t)
    ensures ItemCategories(ClearTxn(ids)(t).items) <= ItemCategories(t.items)
  {
  }

  lemma ReplacedMentions(t: Transaction, fromId: Id, intoId: Id)
    requires fromId != intoId
    ensures var x := Replace(fromId, intoId)(t);
      && RowCategories(x) == RowCategories(t) && RowEnvelopes(x) == RowEnvelopes(t) && x.items == t.items
      && RowPlaces(x) == if fromId in RowPlaces(t) then {intoId} else RowPlaces(t)
  {
  }

  lemma RecategorisedMentions(t: Transaction, fromId: Id, intoId: Id)
    requires fromId != intoId
    ensures var x := Recategorise(fromId, intoId)(t);
      && RowPlaces(x) == RowPlaces(t) && RowEnvelopes(x) == RowEnvelopes(t)
      && RowCategories(x) <= RowCategories(t) - {fromId} + {intoId}
      && ItemCategories(x.items) <= ItemCategories(t.items) - {fromId} + {intoId}
      && (fromId !in RowCategories(t) ==> x == t)
      && (fromId !in ItemCategories(t.items) ==> x.items == t.items)
  {
    var x := Recategorise(fromId, intoId)(t);
    forall i | 0 <= i < |t.items|
      ensures t.items[i] in t.items && x.items[i] in x.items && x.items[i].envelopeId == t.items[i].envelopeId
      ensures x.items[i].categoryId == MoveRef(t.items[i].categoryId, fromId, intoId)
    {
    }
    assert forall k :: k in ItemEnvelopes(t.items) <==> k in ItemEnvelopes(x.items);
    if fromId !in ItemCategories(t.items) { assert x.items == t.items; }
  }

  predicate RowClear(t: Transaction, past: Past) {
    RowPlaces(t) !! past.places.gone && RowCategories(t) !! past.categories.gone
  }

  lemma WrittenStaysClear(rows: seq<Transaction>, past: Past, p: TxnFields, x: Transaction)
    requires NoneGone(rows, past) && x in Update(rows, TxnId, p.id, UpdateTxn(p))
    requires RowClear(TxnFromCreate(p), past)
    ensures RowClear(x, past)
  {
    UpdateElements(rows, TxnId, p.id, UpdateTxn(p));
    hide Update, RowPlaces, RowCategories, TxnFromUpdate, TxnFromCreate, SemanticIssues;
    if x !in rows {
      var t :| t in rows && x == UpdateTxn(p)(t);
      WrittenMentions(t, p);
    }
  }

  lemma ClearedStaysClear(rows: seq<Transaction>, past: Past, ids: set<Id>, x: Transaction)
    requires NoneGone(rows, past) && x in Map(rows, ClearTxn(ids))
    ensures RowClear(x, past)
  {
    MapElements(rows, ClearTxn(ids));
    var t :| t in rows && x == ClearTxn(ids)(t);
    ClearedMentions(t, ids);
    hide RowPlaces, RowCategories, ClearTxn;
  }

  lemma MergedStaysClear(l: Ledger, past: Past, op: Op, x: Transaction)
    requires NoneGone(l.transactions, past) && Lasting(l, past, op) && x in ApplyOp(l, op).transactions
    requires op.PlaceMerge? || op.CategoryMerge?
    ensures RowClear(x, Track(l, past, op))
  {
    var later := Track(l, past, op);
    hide RowPlaces, RowCategories, Keys, HasKey;
    if op.PlaceMerge? && PlaceEffect(l, op).MergedAway? {
      MapElements(l.transactions, Replace(op.fromId, op.intoId));
      var t :| t in l.transactions && x == Replace(op.fromId, op.intoId)(t);
      ReplacedMentions(t, op.fromId, op.intoId);
    } else if op.CategoryMerge? && CategoryEffect(l, op).MergedAway? {
      MapElements(l.transactions, Recategorise(op.fromId, op.intoId));
      var t :| t in l.transactions && x == Recategorise(op.fromId, op.intoId)(t);
      RecategorisedMentions(t, op.fromId, op.intoId);
    } else {
      assert x in l.transactions;
    }
  }

  /** An entry is removed only while no row uses it. */
  lemma RemovedStaysClear(l: Ledger, past: Past, op: Op)
    requires NoneGone(l.transactions, past) && (op.PlaceDelete? || op.CategoryDelete?)
    ensures NoneGone(l.transactions, Track(l, past, op))
  {
    hide HasKey;
  }

  lemma NoneGoneStep(l: Ledger, past: Past, op: Op)
    requires NoneGone(l.transactions, past) && Lasting(l, past, op)
    ensures NoneGone(ApplyOp(l, op).transactions, Track(l, past, op))
  {
    var later, after := Track(l, past, op), ApplyOp(l, op);
    if op.PlaceDelete? || op.CategoryDelete? {
      assert after.transactions == l.transactions;
      hide ApplyOp, Lasting, Track;
      RemovedStaysClear(l, past, op);
    } else {
      hide ApplyOp, Lasting, Track, RowPlaces, RowCategories;
      if op.PlaceMerge? || op.CategoryMerge? {
        forall x | x in after.transactions ensures RowClear(x, later) { MergedStaysClear(l, past, op, x); }
      } else {
        GoneAsBefore(l, past, op);
        forall x | x in after.transactions ensures RowClear(x, past) { RowStaysClear(l, past, op, x); }
      }
    }
  }

  lemma GoneAsBefore(l: Ledger, past: Past, op: Op)
    requires !op.PlaceMerge? && !op.CategoryMerge? && !op.PlaceDelete? && !op.CategoryDelete?
    ensures Track(l, past, op).places.gone == past.places.gone &&
      Track(l, past, op).categories.gone == past.categories.gone
    ensures Track(l, past, op).places.kept == past.places.kept &&
      Track(l, past, op).categories.kept == past.categories.kept
  {
    assert PlaceEffect(l, op) == Untouched && CategoryEffect(l, op) == Untouched;
    hide UsesPlaceStill, UsesCategoryStill, UsesItemStill, ApplyOp;
  }

  lemma RowStaysClear(l: Ledger, past: Past, op: Op, x: Transaction)
    requires NoneGone(l.transactions, past) && Lasting(l, past, op) && x in ApplyOp(l, op).transactions
    requires !op.PlaceMerge? && !op.CategoryMerge? && !op.PlaceDelete? && !op.CategoryDelete?
    ensures RowClear(x, past)
  {
    hide RowPlaces, RowCategories, UpdateTxn, ClearTxn, TxnFromCreate, Update, HasKey, TrackPlaces, TrackCategories,
      TrackItems;
    match op
    case TxnUpdate(p) => WrittenStaysClear(l.transactions, past, p, x);
    case EnvelopeDelete(id) => ClearedStaysClear(l.transactions, past, {id}, x);
    case GroupDelete(id) => ClearedStaysClear(l.transactions, past, EnvelopesOfGroup(l, id), x);
    case TxnCreate(p) => assert x in l.transactions || x == TxnFromCreate(p);
    case _ =>
  }

  lemma KeptMerge(
    entries: seq<Entry>, m: Mentions, first: set<Id>, named: set<Id>, users: set<(Id, Id)>, fromId: Id, intoId: Id)
    requires m.kept <= Keys(entries, EntryId) && EffectLasts(m, first, MergeEffect(entries, fromId, intoId))
    ensures var after := if HasKey(entries, EntryId, fromId) && HasKey(entries, EntryId, intoId)
        then Filter(entries, EntryOtherThan(fromId)) else entries;
      TrackEntry(m, first, named, MergeEffect(entries, fromId, intoId), users).kept <= Keys(after, EntryId)
  {
    KeptFilter(entries, fromId);
    if HasKey(entries, EntryId, intoId) {
      var i :| 0 <= i < |entries| && EntryId(entries[i]) == intoId;
      assert intoId in Keys(entries, EntryId);
    }
    hide Filter, Keys;
  }

  lemma KeptFilter(entries: seq<Entry>, id: Id)
    ensures Keys(entries, EntryId) - {id} <= Keys(Filter(entries, EntryOtherThan(id)), EntryId)
  {
    KeysFilter(entries, EntryId, EntryOtherThan(id));
  }

  lemma KeptDelete(
    entries: seq<Entry>, m: Mentions, first: set<Id>, named: set<Id>, users: set<(Id, Id)>, id: Id, used: bool)
    requires m.kept <= Keys(entries, EntryId) && EffectLasts(m, first, DeleteEffect(entries, id, used))
    ensures TrackEntry(m, first, named, DeleteEffect(entries, id, used),
      users).kept <= Keys(DropEntry(entries, id, used), EntryId)
  {
    KeptFilter(entries, id);
    forall i | 0 <= i < |entries| ensures EntryId(Map(entries, ArchiveEntry(id))[i]) == EntryId(entries[i]) {}
    if !HasKey(entries, EntryId, id) { assert id !in Keys(entries, EntryId); }
  }

  lemma KeptRows(entries: seq<Entry>, op: Op)
    ensures op.PlaceCreate? || op.CategoryCreate? ==>
      Keys(entries, EntryId) <= Keys(Insert(entries, EntryId, Entry(op.id, op.entryName, false)), EntryId)
    ensures op.PlaceUpdate? || op.CategoryUpdate? ==>
      Keys(entries, EntryId) <= Keys(Update(entries, EntryId, op.id, EntryPatch(op.name, op.archived)), EntryId)
  {
    if op.PlaceCreate? || op.CategoryCreate? {
      var after := Insert(entries, EntryId, Entry(op.id, op.entryName, false));
      forall i | 0 <= i < |entries| ensures after[i] == entries[i] {}
    }
    if op.PlaceUpdate? || op.CategoryUpdate? {
      var after := Update(entries, EntryId, op.id, EntryPatch(op.name, op.archived));
      forall i | 0 <= i < |entries| ensures EntryId(after[i]) == EntryId(entries[i]) {}
    }
  }

  lemma KeptPlaces(l: Ledger, past: Past, op: Op)
    requires past.places.kept <= Keys(l.places, EntryId)
    requires EffectLasts(past.places, past.first.places, PlaceEffect(l, op))
    ensures TrackPlaces(l, past, op).kept <= Keys(ApplyOp(l, op).places, EntryId)
  {
    var users := TrackPlaces(l, past, op).users;
    hide Keys, Insert, Update, DropEntry, HasKey, UsesPlaceStill, PlaceUsed, NamedPlaces, EffectLasts;
    match op
    case PlaceMerge(fromId, intoId) =>
      KeptMerge(l.places, past.places, past.first.places, NamedPlaces(op), users, fromId, intoId);
    case PlaceDelete(id) =>
      KeptDelete(l.places, past.places, past.first.places, NamedPlaces(op), users, id, PlaceUsed(l, id));
    case PlaceCreate(_, _) => KeptRows(l.places, op);
    case PlaceUpdate(_, _, _) => KeptRows(l.places, op);
    case _ =>
  }

  lemma KeptCategories(l: Ledger, past: Past, op: Op)
    requires past.categories.kept <= Keys(l.categories, EntryId)
    requires EffectLasts(past.categories, past.first.categories, CategoryEffect(l, op))
    ensures TrackCategories(l, past, op).kept <= Keys(ApplyOp(l, op).categories, EntryId)
  {
    var users := TrackCategories(l, past, op).users;
    hide Keys, Insert, Update, DropEntry, HasKey, UsesCategoryStill, CategoryUsed, NamedCategories, EffectLasts;
    match op
    case CategoryMerge(fromId, intoId) =>
      KeptMerge(l.categories, past.categories, past.first.categories, NamedCategories(op), users, fromId, intoId);
    case CategoryDelete(id) =>
      KeptDelete(l.categories, past.categories, past.first.categories, NamedCategories(op), users, id,
        CategoryUsed(l, id));
    case CategoryCreate(_, _) => KeptRows(l.categories, op);
    case CategoryUpdate(_, _, _) => KeptRows(l.categories, op);
    case _ =>
  }

  lemma UsersStand(l: Ledger, past: Past, op: Op)
    ensures forall u :: u in Track(l, past, op).places.users ==> UsesPlaceStill(ApplyOp(l, op), u)
    ensures forall u :: u in Track(l, past, op).categories.users ==> UsesCategoryStill(ApplyOp(l, op), u)
    ensures forall u :: u in Track(l, past, op).itemUsers ==> UsesItemStill(ApplyOp(l, op), u)
  {
    hide ApplyOp, UsesPlaceStill, UsesCategoryStill, UsesItemStill, PlaceEffect, CategoryEffect;
  }

  /** The record stays true along a history of lasting operations. */
  lemma StandingStep(l: Ledger, past: Past, op: Op)
    requires Standing(l, past) && Lasting(l, past, op)
    ensures Standing(ApplyOp(l, op), Track(l, past, op))
  {
    NoneGoneStep(l, past, op);
    KeptPlaces(l, past, op);
    KeptCategories(l, past, op);
    UsersStand(l, past, op);
    hide ApplyOp, UsesPlaceStill, UsesCategoryStill, UsesItemStill, NoneGone, Keys, TrackPlaces, TrackCategories,
      TrackItems;
  }
}
