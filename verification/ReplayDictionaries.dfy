// Merges and deletes of dictionary entries in a replay.
//
// An entry that was there before the history and is gone at its end is not in the snapshot, so the
// replayed merge or delete does nothing; one the history created is made again and merged or deleted
// again. Either way rows and dictionaries stay related to those of the clean run.
module ReplayDictionaries {
  import opened Sequences
  import opened Tables
  import opened TableReplay
  import opened Ledger
  import opened WellFormedLedger
  import opened ReplayPast
  import opened ReplayRel

  // ---- what rows of the replay mention ------------------------------------------------------------

  predicate SamePlaceAs(rows: seq<Transaction>, x: Transaction) {
    exists a :: a in rows && a.id == x.id && a.placeId == x.placeId
  }

  predicate SameCategoryAs(rows: seq<Transaction>, x: Transaction) {
    exists a :: a in rows && a.id == x.id && a.categoryId == x.categoryId
  }

  predicate SameItemsAs(rows: seq<Transaction>, x: Transaction) {
    exists a :: a in rows && a.id == x.id && a.items == x.items
  }

  /** What a row of the replay mentions was named by an operation of the history, or is final. */
  predicate RowMentions(past: Past, rows: seq<Transaction>, x: Transaction) {
    && (RowPlaces(x) <= past.places.named || SamePlaceAs(rows, x))
    && (Some1(x.categoryId) <= past.categories.named || SameCategoryAs(rows, x))
    && (ItemCategories(x.items) <= past.categories.named || SameItemsAs(rows, x))
  }

  lemma PlaceUnmentioned(past: Past, rows: seq<Transaction>, x: Transaction, id: Id)
    requires RowMentions(past, rows, x) && id !in past.places.named
    requires forall a :: a in rows ==> id !in RowPlaces(a)
    ensures id !in RowPlaces(x)
  {
  }

  lemma CategoryUnmentioned(past: Past, rows: seq<Transaction>, x: Transaction, id: Id)
    requires RowMentions(past, rows, x) && id !in past.categories.named
    requires forall a :: a in rows ==> id !in RowCategories(a)
    ensures id !in RowCategories(x)
  {
    hide RowPlaces;
  }

  // ---- rows under a merge -------------------------------------------------------------------------

  lemma PlaceUnread(t: Transaction, fromId: Id, intoId: Id)
    requires fromId !in RowPlaces(t)
    ensures Replace(fromId, intoId)(t) == t
  {
  }

  lemma CategoryUnread(t: Transaction, fromId: Id, intoId: Id)
    requires fromId !in RowCategories(t)
    ensures Recategorise(fromId, intoId)(t) == t
  {
    forall i | 0 <= i < |t.items| ensures t.items[i] in t.items {}
    assert Map(t.items, RecategoriseItem(fromId, intoId)) == t.items;
  }

  lemma ReplacedBetween(a: Transaction, b: Transaction, c: Transaction, fromId: Id, intoId: Id)
    requires TxnBetween(a, b, c) && fromId !in RowPlaces(a)
    ensures TxnBetween(a, Replace(fromId, intoId)(b), Replace(fromId, intoId)(c))
    ensures fromId !in RowPlaces(c) ==> TxnBetween(a, Replace(fromId, intoId)(b), c)
  {
  }

  lemma RecategorisedBetween(a: Transaction, b: Transaction, c: Transaction, fromId: Id, intoId: Id)
    requires TxnBetween(a, b, c) && fromId !in RowCategories(a)
    ensures TxnBetween(a, Recategorise(fromId, intoId)(b), Recategorise(fromId, intoId)(c))
    ensures fromId !in RowCategories(c) ==> TxnBetween(a, Recategorise(fromId, intoId)(b), c)
  {
    CategoryUnread(a, fromId, intoId);
    if fromId !in RowCategories(c) { CategoryUnread(c, fromId, intoId); }
  }

  lemma MoveKeepsId(fromId: Id, intoId: Id)
    ensures Preserves(TxnId, Replace(fromId, intoId)) && Preserves(TxnId, Recategorise(fromId, intoId))
  {
  }

  /** The replay merges as well: rows move in both runs. */
  lemma PlaceMovesBoth(
    seen: set<Id>, s: seq<Transaction>, o: seq<Transaction>, r: seq<Transaction>, fromId: Id, intoId: Id)
    requires TxnRel(seen, s, o, r) && forall a :: a in s ==> fromId !in RowPlaces(a)
    ensures TxnRel(seen, s, Map(o, Replace(fromId, intoId)), Map(r, Replace(fromId, intoId)))
  {
    var f := Replace(fromId, intoId);
    MoveKeepsId(fromId, intoId);
    forall a | a in s ensures f(a) == a { PlaceUnread(a, fromId, intoId); }
    forall a, b, c | a in s && b in o && TxnId(b) == TxnId(a) && TxnBetween(a, b, c) ensures TxnBetween(a, f(b), f(c)) {
      ReplacedBetween(a, b, c, fromId, intoId);
    }
    hide TxnBetween, Replace, TableRel, RowPlaces, Preserves;
    TableMap(s, o, r, TxnId, Outside(seen), TxnBetween, f);
  }

  lemma CategoryMovesBoth(
    seen: set<Id>, s: seq<Transaction>, o: seq<Transaction>, r: seq<Transaction>, fromId: Id, intoId: Id)
    requires TxnRel(seen, s, o, r) && forall a :: a in s ==> fromId !in RowCategories(a)
    ensures TxnRel(seen, s, Map(o, Recategorise(fromId, intoId)), Map(r, Recategorise(fromId, intoId)))
  {
    var f := Recategorise(fromId, intoId);
    MoveKeepsId(fromId, intoId);
    forall a | a in s ensures f(a) == a { CategoryUnread(a, fromId, intoId); }
    forall a, b, c | a in s && b in o && TxnId(b) == TxnId(a) && TxnBetween(a, b, c) ensures TxnBetween(a, f(b), f(c)) {
      RecategorisedBetween(a, b, c, fromId, intoId);
    }
    hide TxnBetween, Recategorise, TableRel, RowCategories, Preserves;
    TableMap(s, o, r, TxnId, Outside(seen), TxnBetween, f);
  }

  /** The replay has nothing to merge: no row of it mentions the source. */
  lemma PlaceMovesAlone(
    seen: set<Id>, s: seq<Transaction>, o: seq<Transaction>, r: seq<Transaction>, fromId: Id, intoId: Id)
    requires TxnRel(seen, s, o, r) && forall a :: a in s || a in r ==> fromId !in RowPlaces(a)
    ensures TxnRel(seen, s, Map(o, Replace(fromId, intoId)), r)
  {
    var f := Replace(fromId, intoId);
    MoveKeepsId(fromId, intoId);
    forall x | x in r ensures f(x) == x { PlaceUnread(x, fromId, intoId); }
    forall a, b, c | a in s && b in o && c in r && TxnId(b) == TxnId(a) && TxnBetween(a, b, c)
      ensures TxnBetween(a, f(b), c)
    {
      ReplacedBetween(a, b, c, fromId, intoId);
    }
    hide TxnBetween, Replace, TableRel, RowPlaces, Preserves;
    TableMapLeft(s, o, r, TxnId, Outside(seen), TxnBetween, f);
  }

  lemma CategoryMovesAlone(
    seen: set<Id>, s: seq<Transaction>, o: seq<Transaction>, r: seq<Transaction>, fromId: Id, intoId: Id)
    requires TxnRel(seen, s, o, r) && forall a :: a in s || a in r ==> fromId !in RowCategories(a)
    ensures TxnRel(seen, s, Map(o, Recategorise(fromId, intoId)), r)
  {
    var f := Recategorise(fromId, intoId);
    MoveKeepsId(fromId, intoId);
    forall x | x in r ensures f(x) == x { CategoryUnread(x, fromId, intoId); }
    forall a, b, c | a in s && b in o && c in r && TxnId(b) == TxnId(a) && TxnBetween(a, b, c)
      ensures TxnBetween(a, f(b), c)
    {
      RecategorisedBetween(a, b, c, fromId, intoId);
    }
    hide TxnBetween, Recategorise, TableRel, RowCategories, Preserves;
    TableMapLeft(s, o, r, TxnId, Outside(seen), TxnBetween, f);
  }

  // ---- entries ------------------------------------------------------------------------------------

  lemma Unlisted(entries: seq<Entry>, id: Id)
    requires !HasKey(entries, EntryId, id)
    ensures Filter(entries, EntryOtherThan(id)) == entries && Map(entries, ArchiveEntry(id)) == entries
  {
    forall i | 0 <= i < |entries| ensures entries[i].id != id { assert EntryId(entries[i]) != id; }
    FilterAll(entries, EntryOtherThan(id));
  }

  lemma EntryDrops(seen: set<Id>, s: seq<Entry>, o: seq<Entry>, r: seq<Entry>, id: Id)
    requires EntryRel(seen, s, o, r) && !HasKey(s, EntryId, id)
    ensures EntryRel(seen, s, Filter(o, EntryOtherThan(id)), Filter(r, EntryOtherThan(id)))
  {
    forall e | e in s ensures e.id != id {
      var i :| 0 <= i < |s| && s[i] == e;
      assert EntryId(s[i]) != id;
    }
    DropKeyStep(s, o, r, EntryId, Outside(seen), EntryBetween, EntryOtherThan(id));
  }

  lemma ArchiveKeepsId(id: Id)
    ensures Preserves(EntryId, ArchiveEntry(id))
  {
  }

  lemma EntryArchives(seen: set<Id>, s: seq<Entry>, o: seq<Entry>, r: seq<Entry>, id: Id)
    requires EntryRel(seen, s, o, r) && HasKey(o, EntryId, id)
    ensures EntryRel(seen, s, Map(o, ArchiveEntry(id)), Map(r, ArchiveEntry(id)))
  {
    ArchiveKeepsId(id);
    TableMap(s, o, r, EntryId, Outside(seen), EntryBetween, ArchiveEntry(id));
  }

  /** Where an entry of the replay comes from. */
  lemma EntryListed(base: set<Id>, s: seq<Entry>, o: seq<Entry>, r: seq<Entry>, id: Id)
    requires EntryRel(base + Keys(s, EntryId), s, o, r)
    ensures HasKey(r, EntryId, id) <==> HasKey(s, EntryId, id) || (id !in base && HasKey(o, EntryId, id))
  {
    RelHasKey(s, o, r, EntryId, Outside(base + Keys(s, EntryId)), EntryBetween, id);
    KeyIn(s, EntryId, id);
    hide TableRel, HasKey, Keys;
  }

  // ---- who uses an entry --------------------------------------------------------------------------

  /** A row that uses the place now and at the end uses it in the replay. */
  lemma PlaceStaysUsed(seen: set<Id>, s: Ledger, o: Ledger, r: Ledger, u: (Id, Id))
    requires TxnRel(seen, s.transactions, o.transactions, r.transactions)
    requires UsesPlaceStill(s, u) && UsesPlaceStill(o, u)
    ensures PlaceUsed(r, u.0)
  {
    var a :| a in s.transactions && a.id == u.1 && a.placeId == Some(u.0);
    var b :| b in o.transactions && b.id == u.1 && b.placeId == Some(u.0);
    var j :| 0 <= j < |s.transactions| && s.transactions[j] == a;
    assert RowRel(a, o.transactions, r.transactions[j], TxnId, TxnBetween);
    assert TxnId(b) == TxnId(a) && r.transactions[j] in r.transactions;
  }

  lemma CategoryStaysUsed(seen: set<Id>, s: Ledger, o: Ledger, r: Ledger, u: (Id, Id))
    requires TxnRel(seen, s.transactions, o.transactions, r.transactions)
    requires UsesCategoryStill(s, u) && UsesCategoryStill(o, u)
    ensures CategoryUsed(r, u.0)
  {
    var a :| a in s.transactions && a.id == u.1 && a.categoryId == Some(u.0);
    var b :| b in o.transactions && b.id == u.1 && b.categoryId == Some(u.0);
    var j :| 0 <= j < |s.transactions| && s.transactions[j] == a;
    assert RowRel(a, o.transactions, r.transactions[j], TxnId, TxnBetween);
    assert TxnId(b) == TxnId(a) && r.transactions[j] in r.transactions;
  }

  lemma BetweenItems(a: Transaction, b: Transaction, c: Transaction)
    requires TxnBetween(a, b, c)
    ensures c.items == a.items || c.items == b.items
  {
  }

  lemma UsedByItem(l: Ledger, t: Transaction, id: Id)
    requires t in l.transactions && id in ItemCategories(t.items)
    ensures CategoryUsed(l, id)
  {
    var item :| item in t.items && item.categoryId == Some(id);
  }

  lemma ItemStaysUsed(seen: set<Id>, s: Ledger, o: Ledger, r: Ledger, u: (Id, Id))
    requires TxnRel(seen, s.transactions, o.transactions, r.transactions)
    requires UsesItemStill(s, u) && UsesItemStill(o, u)
    ensures CategoryUsed(r, u.0)
  {
    hide ItemCategories, TxnBetween, CategoryUsed;
    var a :| a in s.transactions && a.id == u.1 && u.0 in ItemCategories(a.items);
    var b :| b in o.transactions && b.id == u.1 && u.0 in ItemCategories(b.items);
    var j :| 0 <= j < |s.transactions| && s.transactions[j] == a;
    var c := r.transactions[j];
    assert RowRel(a, o.transactions, c, TxnId, TxnBetween);
    assert TxnId(b) == TxnId(a) && c in r.transactions;
    BetweenItems(a, b, c);
    UsedByItem(r, c, u.0);
  }

  /** A field of a row of the replay is that of a row at the end, or of one of the clean run. */
  lemma RowOrigin(seen: set<Id>, s: seq<Transaction>, o: seq<Transaction>, r: seq<Transaction>, x: Transaction)
    requires TxnRel(seen, s, o, r) && x in r
    ensures exists a :: (a in s || a in o) && a.placeId == x.placeId
    ensures exists a :: (a in s || a in o) && a.categoryId == x.categoryId
    ensures exists a :: (a in s || a in o) && a.items == x.items
  {
    var j :| 0 <= j < |r| && r[j] == x;
    if j < |s| {
      var a := s[j];
      assert RowRel(a, o, x, TxnId, TxnBetween) && a in s;
      if HasKey(o, TxnId, TxnId(a)) {
        var i :| 0 <= i < |o| && TxnId(o[i]) == TxnId(a);
        assert o[i] in o && TxnBetween(a, o[i], x);
      }
    } else {
      var tail := r[|s|..];
      assert tail[j - |s|] == x && x in tail;
    }
  }

  lemma PlaceStaysUnused(seen: set<Id>, s: Ledger, o: Ledger, r: Ledger, id: Id)
    requires TxnRel(seen, s.transactions, o.transactions, r.transactions)
    requires !PlaceUsed(o, id) && forall a :: a in s.transactions ==> id !in RowPlaces(a)
    ensures !PlaceUsed(r, id)
  {
    hide TableRel;
    forall x | x in r.transactions ensures x.placeId != Some(id) {
      RowOrigin(seen, s.transactions, o.transactions, r.transactions, x);
      var a :| (a in s.transactions || a in o.transactions) && a.placeId == x.placeId;
    }
  }

  lemma CategoryStaysUnused(seen: set<Id>, s: Ledger, o: Ledger, r: Ledger, id: Id)
    requires TxnRel(seen, s.transactions, o.transactions, r.transactions)
    requires !CategoryUsed(o, id) && forall a :: a in s.transactions ==> id !in RowCategories(a)
    ensures !CategoryUsed(r, id)
  {
    hide TableRel;
    forall x | x in r.transactions ensures x.categoryId != Some(id) && id !in ItemCategories(x.items) {
      RowOrigin(seen, s.transactions, o.transactions, r.transactions, x);
      var a :| (a in s.transactions || a in o.transactions) && a.categoryId == x.categoryId;
      var b :| (b in s.transactions || b in o.transactions) && b.items == x.items;
    }
    forall x | x in r.transactions ensures forall i :: i in x.items ==> i.categoryId != Some(id) {
      assert id !in ItemCategories(x.items);
    }
  }

  // ---- one merge or delete on the whole ledger ----------------------------------------------------

  /** What a merge finds listed in the replay. */
  lemma MergeListing(
    base: set<Id>, known: set<Id>, s: seq<Entry>, o: seq<Entry>, r: seq<Entry>, fromId: Id, intoId: Id)
    requires EntryRel(base + Keys(s, EntryId), s, o, r)
    requires fromId in known && intoId in known && Survivors(known, Keys(s, EntryId), Keys(o, EntryId))
    ensures !(HasKey(o, EntryId, fromId) && HasKey(o, EntryId, intoId)) ==>
      !(HasKey(r, EntryId, fromId) && HasKey(r, EntryId, intoId))
    ensures
      HasKey(o, EntryId, fromId) && HasKey(o, EntryId, intoId) && fromId !in Keys(s, EntryId) &&
      (fromId !in base && intoId in base ==> intoId in Keys(s, EntryId)) ==>
      if fromId in base then !HasKey(r, EntryId, fromId) else HasKey(r, EntryId, fromId) && HasKey(r, EntryId, intoId)
  {
    EntryListed(base, s, o, r, fromId);
    EntryListed(base, s, o, r, intoId);
    KeyIn(s, EntryId, fromId);
    KeyIn(s, EntryId, intoId);
    KeyIn(o, EntryId, fromId);
    KeyIn(o, EntryId, intoId);
    hide TableRel, HasKey, Keys;
  }

  lemma FilteredAway(entries: seq<Entry>, id: Id)
    ensures id !in Keys(Filter(entries, EntryOtherThan(id)), EntryId)
  {
    DroppedKey(entries, EntryId, EntryOtherThan(id), id);
  }

  /** Two tables of the ledger change, the others stay related as they are. */
  lemma RelWithPlaces(
    seen: Known, s: Ledger, o: Ledger, r: Ledger, op: seq<Entry>, rp: seq<Entry>, ot: seq<Transaction>,
    rt: seq<Transaction>)
    requires Rel(seen, s, o, r)
    requires EntryRel(seen.places, s.places, op, rp) && TxnRel(seen.transactions, s.transactions, ot, rt)
    ensures Rel(seen, s, o.(places := op, transactions := ot), r.(places := rp, transactions := rt))
  {
    hide TableRel;
  }

  lemma RelWithCategories(
    seen: Known, s: Ledger, o: Ledger, r: Ledger, oc: seq<Entry>, rc: seq<Entry>, ot: seq<Transaction>,
    rt: seq<Transaction>)
    requires Rel(seen, s, o, r)
    requires EntryRel(seen.categories, s.categories, oc, rc) && TxnRel(seen.transactions, s.transactions, ot, rt)
    ensures Rel(seen, s, o.(categories := oc, transactions := ot), r.(categories := rc, transactions := rt))
  {
    hide TableRel;
  }

  lemma RelParts(base: Known, s: Ledger, o: Ledger, r: Ledger)
    requires Rel(Both(base, KnownOf(s)), s, o, r)
    ensures var seen := Both(base, KnownOf(s));
      && TxnRel(seen.transactions, s.transactions, o.transactions, r.transactions)
      && EntryRel(seen.places, s.places, o.places, r.places) && seen.places == base.places + Keys(s.places, EntryId)
      && EntryRel(seen.categories, s.categories, o.categories, r.categories)
      && seen.categories == base.categories + Keys(s.categories, EntryId)
  {
    hide TableRel, Keys;
  }

  lemma PlaceMergeIs(l: Ledger, fromId: Id, intoId: Id)
    ensures ApplyOp(l, PlaceMerge(fromId, intoId)) ==
      if HasKey(l.places, EntryId, fromId) && HasKey(l.places, EntryId, intoId)
      then l.(places := Filter(l.places, EntryOtherThan(fromId)),
        transactions := Map(l.transactions, Replace(fromId, intoId)))
      else l.(places := l.places, transactions := l.transactions)
  {
  }

  lemma CategoryMergeIs(l: Ledger, fromId: Id, intoId: Id)
    ensures ApplyOp(l, CategoryMerge(fromId, intoId)) ==
      if HasKey(l.categories, EntryId, fromId) && HasKey(l.categories, EntryId, intoId)
      then l.(categories := Filter(l.categories, EntryOtherThan(fromId)),
              transactions := Map(l.transactions, Recategorise(fromId, intoId)))
      else l.(categories := l.categories, transactions := l.transactions)
  {
  }

  /** A merge that takes place in the clean run. */
  lemma PlaceMergedStep(base: Known, known: Known, s: Ledger, o: Ledger, r: Ledger, fromId: Id, intoId: Id)
    requires Rel(Both(base, KnownOf(s)), s, o, r)
    requires HasKey(o.places, EntryId, fromId) && HasKey(o.places, EntryId, intoId) &&
      fromId !in Keys(s.places, EntryId)
    requires fromId in known.places && intoId in known.places
    requires Survivors(known.places, Keys(s.places, EntryId), Keys(o.places, EntryId))
    requires fromId !in base.places && intoId in base.places ==> intoId in Keys(s.places, EntryId)
    requires forall a :: a in s.transactions ==> fromId !in RowPlaces(a)
    requires fromId in base.places ==> forall x :: x in r.transactions ==> fromId !in RowPlaces(x)
    ensures Rel(Both(base, KnownOf(s)), s, ApplyOp(o, PlaceMerge(fromId, intoId)),
      ApplyOp(r, PlaceMerge(fromId, intoId)))
  {
    hide *;
    var seen, g := Both(base, KnownOf(s)), Replace(fromId, intoId);
    RelParts(base, s, o, r);
    MergeListing(base.places, known.places, s.places, o.places, r.places, fromId, intoId);
    KeyIn(s.places, EntryId, fromId);
    EntryDrops(seen.places, s.places, o.places, r.places, fromId);
    PlaceMergeIs(o, fromId, intoId);
    PlaceMergeIs(r, fromId, intoId);
    var after := Filter(o.places, EntryOtherThan(fromId));
    if fromId in base.places {
      PlaceMovesAlone(seen.transactions, s.transactions, o.transactions, r.transactions, fromId, intoId);
      Unlisted(r.places, fromId);
      RelWithPlaces(seen, s, o, r, after, r.places, Map(o.transactions, g), r.transactions);
    } else {
      PlaceMovesBoth(seen.transactions, s.transactions, o.transactions, r.transactions, fromId, intoId);
      RelWithPlaces(seen, s, o, r, after, Filter(r.places, EntryOtherThan(fromId)), Map(o.transactions, g),
        Map(r.transactions, g));
    }
  }

  lemma CategoryMergedStep(base: Known, known: Known, s: Ledger, o: Ledger, r: Ledger, fromId: Id, intoId: Id)
    requires Rel(Both(base, KnownOf(s)), s, o, r)
    requires HasKey(o.categories, EntryId, fromId) && HasKey(o.categories, EntryId, intoId) &&
      fromId !in Keys(s.categories, EntryId)
    requires fromId in known.categories && intoId in known.categories
    requires Survivors(known.categories, Keys(s.categories, EntryId), Keys(o.categories, EntryId))
    requires fromId !in base.categories && intoId in base.categories ==> intoId in Keys(s.categories, EntryId)
    requires forall a :: a in s.transactions ==> fromId !in RowCategories(a)
    requires fromId in base.categories ==> forall x :: x in r.transactions ==> fromId !in RowCategories(x)
    ensures Rel(Both(base, KnownOf(s)), s, ApplyOp(o, CategoryMerge(fromId, intoId)),
      ApplyOp(r, CategoryMerge(fromId, intoId)))
  {
    hide *;
    var seen, g := Both(base, KnownOf(s)), Recategorise(fromId, intoId);
    RelParts(base, s, o, r);
    MergeListing(base.categories, known.categories, s.categories, o.categories, r.categories, fromId, intoId);
    KeyIn(s.categories, EntryId, fromId);
    EntryDrops(seen.categories, s.categories, o.categories, r.categories, fromId);
    CategoryMergeIs(o, fromId, intoId);
    CategoryMergeIs(r, fromId, intoId);
    var after := Filter(o.categories, EntryOtherThan(fromId));
    if fromId in base.categories {
      CategoryMovesAlone(seen.transactions, s.transactions, o.transactions, r.transactions, fromId, intoId);
      Unlisted(r.categories, fromId);
      RelWithCategories(seen, s, o, r, after, r.categories, Map(o.transactions, g), r.transactions);
    } else {
      CategoryMovesBoth(seen.transactions, s.transactions, o.transactions, r.transactions, fromId, intoId);
      RelWithCategories(seen, s, o, r, after, Filter(r.categories, EntryOtherThan(fromId)), Map(o.transactions, g),
        Map(r.transactions, g));
    }
  }

  lemma PlaceDeleteIs(l: Ledger, id: Id)
    ensures ApplyOp(l, PlaceDelete(id)) ==
      l.(places := DropEntry(l.places, id, PlaceUsed(l, id)), transactions := l.transactions)
  {
  }

  lemma CategoryDeleteIs(l: Ledger, id: Id)
    ensures ApplyOp(l, CategoryDelete(id)) ==
      l.(categories := DropEntry(l.categories, id, CategoryUsed(l, id)), transactions := l.transactions)
  {
  }

  lemma DropUnlisted(entries: seq<Entry>, id: Id, used: bool)
    requires !HasKey(entries, EntryId, id)
    ensures DropEntry(entries, id, used) == entries
  {
    Unlisted(entries, id);
  }

  lemma DropIs(entries: seq<Entry>, id: Id)
    ensures DropEntry(entries, id, true) == Map(entries, ArchiveEntry(id))
    ensures DropEntry(entries, id, false) == Filter(entries, EntryOtherThan(id))
  {
  }

  lemma DeleteListing(base: set<Id>, known: set<Id>, s: seq<Entry>, o: seq<Entry>, r: seq<Entry>, id: Id)
    requires EntryRel(base + Keys(s, EntryId), s, o, r)
    requires id in known && Survivors(known, Keys(s, EntryId), Keys(o, EntryId)) && !HasKey(o, EntryId, id)
    ensures !HasKey(r, EntryId, id)
  {
    EntryListed(base, s, o, r, id);
    KeyIn(s, EntryId, id);
    KeyIn(o, EntryId, id);
    hide TableRel, HasKey, Keys;
  }

  /** A delete: of an entry not listed, of one in use, which stays in use, or of one no row uses. */
  lemma PlaceDeletedStep(base: Known, known: Known, s: Ledger, o: Ledger, r: Ledger, id: Id)
    requires Rel(Both(base, KnownOf(s)), s, o, r) && id in known.places
    requires Survivors(known.places, Keys(s.places, EntryId), Keys(o.places, EntryId))
    requires HasKey(o.places, EntryId, id) && PlaceUsed(o, id) ==> PlaceUsed(r, id)
    requires HasKey(o.places, EntryId, id) && !PlaceUsed(o, id) ==> !PlaceUsed(r, id) && id !in Keys(s.places, EntryId)
    ensures Rel(Both(base, KnownOf(s)), s, ApplyOp(o, PlaceDelete(id)), ApplyOp(r, PlaceDelete(id)))
  {
    hide *;
    var seen := Both(base, KnownOf(s));
    RelParts(base, s, o, r);
    PlaceDeleteIs(o, id);
    PlaceDeleteIs(r, id);
    if !HasKey(o.places, EntryId, id) {
      DeleteListing(base.places, known.places, s.places, o.places, r.places, id);
      DropUnlisted(o.places, id, PlaceUsed(o, id));
      DropUnlisted(r.places, id, PlaceUsed(r, id));
    } else if PlaceUsed(o, id) {
      EntryArchives(seen.places, s.places, o.places, r.places, id);
    } else {
      KeyIn(s.places, EntryId, id);
      EntryDrops(seen.places, s.places, o.places, r.places, id);
    }
    DropIs(o.places, id);
    DropIs(r.places, id);
    RelWithPlaces(seen, s, o, r, DropEntry(o.places, id, PlaceUsed(o, id)), DropEntry(r.places, id, PlaceUsed(r, id)),
      o.transactions, r.transactions);
  }

  /** A delete: of an entry not listed, of one in use, which stays in use, or of one no row uses. */
  lemma CategoryDeletedStep(base: Known, known: Known, s: Ledger, o: Ledger, r: Ledger, id: Id)
    requires Rel(Both(base, KnownOf(s)), s, o, r) && id in known.categories
    requires Survivors(known.categories, Keys(s.categories, EntryId), Keys(o.categories, EntryId))
    requires HasKey(o.categories, EntryId, id) && CategoryUsed(o, id) ==> CategoryUsed(r, id)
    requires HasKey(o.categories, EntryId, id) && !CategoryUsed(o, id) ==>
      !CategoryUsed(r, id) && id !in Keys(s.categories, EntryId)
    ensures Rel(Both(base, KnownOf(s)), s, ApplyOp(o, CategoryDelete(id)), ApplyOp(r, CategoryDelete(id)))
  {
    hide *;
    var seen := Both(base, KnownOf(s));
    RelParts(base, s, o, r);
    CategoryDeleteIs(o, id);
    CategoryDeleteIs(r, id);
    if !HasKey(o.categories, EntryId, id) {
      DeleteListing(base.categories, known.categories, s.categories, o.categories, r.categories, id);
      DropUnlisted(o.categories, id, CategoryUsed(o, id));
      DropUnlisted(r.categories, id, CategoryUsed(r, id));
    } else if CategoryUsed(o, id) {
      EntryArchives(seen.categories, s.categories, o.categories, r.categories, id);
    } else {
      KeyIn(s.categories, EntryId, id);
      EntryDrops(seen.categories, s.categories, o.categories, r.categories, id);
    }
    DropIs(o.categories, id);
    DropIs(r.categories, id);
    RelWithCategories(seen, s, o, r, DropEntry(o.categories, id, CategoryUsed(o, id)),
      DropEntry(r.categories, id, CategoryUsed(r, id)),
      o.transactions, r.transactions);
  }

  /** What the record and the future say about a merge that takes place. */
  lemma PlaceMergeFacts(base: Known, known: Known, past: Past, s: Ledger, o: Ledger, r: Ledger, fromId: Id, intoId: Id)
    requires Lasting(o, past, PlaceMerge(fromId, intoId)) && past.first == base
    requires Ahead(s, Track(o, past, PlaceMerge(fromId, intoId)))
    requires Future(s, ApplyOp(o, PlaceMerge(fromId, intoId)), known) && fromId in known.places
    requires HasKey(o.places, EntryId, fromId) && HasKey(o.places, EntryId, intoId)
    requires forall x :: x in r.transactions ==> RowMentions(past, s.transactions, x)
    ensures fromId !in Keys(s.places, EntryId) && forall a :: a in s.transactions ==> fromId !in RowPlaces(a)
    ensures fromId !in base.places && intoId in base.places ==> intoId in Keys(s.places, EntryId)
    ensures fromId in base.places ==> forall x :: x in r.transactions ==> fromId !in RowPlaces(x)
  {
    var op := PlaceMerge(fromId, intoId);
    var later := Track(o, past, op);
    FilteredAway(o.places, fromId);
    PlaceMergeIs(o, fromId, intoId);
    assert later.places.gone == past.places.gone + {fromId};
    hide RowMentions, RowPlaces, Keys, HasKey, Filter, Map, ApplyOp;
    if fromId in base.places {
      forall x | x in r.transactions ensures fromId !in RowPlaces(x)
      { PlaceUnmentioned(past, s.transactions, x, fromId); }
    }
  }

  lemma PlaceMergeStep(base: Known, known: Known, past: Past, s: Ledger, o: Ledger, r: Ledger, fromId: Id, intoId: Id)
    requires Point(base, known, s, o, r) && CausalOp(o, known, PlaceMerge(fromId, intoId))
    requires Lasting(o, past, PlaceMerge(fromId, intoId)) && past.first == base
    requires Ahead(s, Track(o, past, PlaceMerge(fromId, intoId)))
    requires Future(s, ApplyOp(o, PlaceMerge(fromId, intoId)), known)
    requires forall x :: x in r.transactions ==> RowMentions(past, s.transactions, x)
    ensures Rel(Both(base, KnownOf(s)), s, ApplyOp(o, PlaceMerge(fromId, intoId)),
      ApplyOp(r, PlaceMerge(fromId, intoId)))
  {
    hide *;
    PointFacts(base, known, s, o, r, PlaceMerge(fromId, intoId));
    if HasKey(o.places, EntryId, fromId) && HasKey(o.places, EntryId, intoId) {
      PlaceMergeFacts(base, known, past, s, o, r, fromId, intoId);
      PlaceMergedStep(base, known, s, o, r, fromId, intoId);
    } else {
      RelParts(base, s, o, r);
      MergeListing(base.places, known.places, s.places, o.places, r.places, fromId, intoId);
      PlaceMergeIs(o, fromId, intoId);
      PlaceMergeIs(r, fromId, intoId);
    }
  }

  /** What the record and the future say about a merge that takes place. */
  lemma CategoryMergeFacts(
    base: Known, known: Known, past: Past, s: Ledger, o: Ledger, r: Ledger, fromId: Id, intoId: Id)
    requires Lasting(o, past, CategoryMerge(fromId, intoId)) && past.first == base
    requires Ahead(s, Track(o, past, CategoryMerge(fromId, intoId)))
    requires Future(s, ApplyOp(o, CategoryMerge(fromId, intoId)), known) && fromId in known.categories
    requires HasKey(o.categories, EntryId, fromId) && HasKey(o.categories, EntryId, intoId)
    requires forall x :: x in r.transactions ==> RowMentions(past, s.transactions, x)
    ensures fromId !in Keys(s.categories, EntryId) && forall a :: a in s.transactions ==> fromId !in RowCategories(a)
    ensures fromId !in base.categories && intoId in base.categories ==> intoId in Keys(s.categories, EntryId)
    ensures fromId in base.categories ==> forall x :: x in r.transactions ==> fromId !in RowCategories(x)
  {
    var op := CategoryMerge(fromId, intoId);
    var later := Track(o, past, op);
    FilteredAway(o.categories, fromId);
    CategoryMergeIs(o, fromId, intoId);
    assert later.categories.gone == past.categories.gone + {fromId};
    hide RowMentions, RowCategories, Keys, HasKey, Filter, Map, ApplyOp;
    if fromId in base.categories {
      forall x | x in r.transactions ensures fromId !in RowCategories(x)
      { CategoryUnmentioned(past, s.transactions, x, fromId); }
    }
  }

  lemma CategoryMergeStep(
    base: Known, known: Known, past: Past, s: Ledger, o: Ledger, r: Ledger, fromId: Id, intoId: Id)
    requires Point(base, known, s, o, r) && CausalOp(o, known, CategoryMerge(fromId, intoId))
    requires Lasting(o, past, CategoryMerge(fromId, intoId)) && past.first == base
    requires Ahead(s, Track(o, past, CategoryMerge(fromId, intoId)))
    requires Future(s, ApplyOp(o, CategoryMerge(fromId, intoId)), known)
    requires forall x :: x in r.transactions ==> RowMentions(past, s.transactions, x)
    ensures Rel(Both(base, KnownOf(s)), s, ApplyOp(o, CategoryMerge(fromId, intoId)),
      ApplyOp(r, CategoryMerge(fromId, intoId)))
  {
    hide *;
    PointFacts(base, known, s, o, r, CategoryMerge(fromId, intoId));
    if HasKey(o.categories, EntryId, fromId) && HasKey(o.categories, EntryId, intoId) {
      CategoryMergeFacts(base, known, past, s, o, r, fromId, intoId);
      CategoryMergedStep(base, known, s, o, r, fromId, intoId);
    } else {
      RelParts(base, s, o, r);
      MergeListing(base.categories, known.categories, s.categories, o.categories, r.categories, fromId, intoId);
      CategoryMergeIs(o, fromId, intoId);
      CategoryMergeIs(r, fromId, intoId);
    }
  }

  lemma PlaceDeleteTracked(l: Ledger, past: Past, id: Id)
    requires HasKey(l.places, EntryId, id)
    ensures var later := Track(l, past, PlaceDelete(id)).places;
      if PlaceUsed(l, id) then id in later.archived else id in later.gone
  {
    hide HasKey, UsesPlaceStill, PlaceUsed, ApplyOp;
  }

  lemma PlaceGoneAtEnd(s: Ledger, after: Ledger, known: Known, id: Id)
    requires Future(s, after, known) && id in known.places && id !in Keys(after.places, EntryId)
    ensures id !in Keys(s.places, EntryId)
  {
    hide Keys;
  }

  lemma PlaceGoneUnnamed(s: Ledger, past: Past, id: Id)
    requires Ahead(s, past) && id in past.places.gone
    ensures forall a :: a in s.transactions ==> id !in RowPlaces(a)
  {
    hide RowPlaces;
  }

  lemma CategoryDeleteTracked(l: Ledger, past: Past, id: Id)
    requires HasKey(l.categories, EntryId, id)
    ensures var later := Track(l, past, CategoryDelete(id)).categories;
      if CategoryUsed(l, id) then id in later.archived else id in later.gone
  {
    hide HasKey, UsesCategoryStill, CategoryUsed, ApplyOp;
  }

  lemma CategoryGoneAtEnd(s: Ledger, after: Ledger, known: Known, id: Id)
    requires Future(s, after, known) && id in known.categories && id !in Keys(after.categories, EntryId)
    ensures id !in Keys(s.categories, EntryId)
  {
    hide Keys;
  }

  lemma CategoryGoneUnnamed(s: Ledger, past: Past, id: Id)
    requires Ahead(s, past) && id in past.categories.gone
    ensures forall a :: a in s.transactions ==> id !in RowCategories(a)
  {
    hide RowCategories;
  }

  lemma SameRowsStill(a: Ledger, b: Ledger, u: (Id, Id))
    requires a.transactions == b.transactions
    ensures UsesPlaceStill(a, u) == UsesPlaceStill(b, u) && UsesCategoryStill(a, u) == UsesCategoryStill(b, u)
    ensures UsesItemStill(a, u) == UsesItemStill(b, u)
  {
  }

  lemma PlaceUserAtEnd(s: Ledger, past: Past, id: Id) returns (u: (Id, Id))
    requires Ahead(s, past) && id in past.places.archived
    ensures u in past.places.users && u.0 == id && UsesPlaceStill(s, u)
  {
    hide UsesPlaceStill;
    u :| u in past.places.users && u.0 == id && UsesPlaceStill(s, u);
  }

  lemma CategoryUserAtEnd(s: Ledger, past: Past, id: Id) returns (u: (Id, Id))
    requires Ahead(s, past) && id in past.categories.archived
    ensures u.0 == id
    ensures (u in past.categories.users && UsesCategoryStill(s, u)) || (u in past.itemUsers && UsesItemStill(s, u))
  {
    hide UsesCategoryStill, UsesItemStill;
    if v :| v in past.categories.users && v.0 == id && UsesCategoryStill(s, v) {
      u := v;
    } else {
      u :| u in past.itemUsers && u.0 == id && UsesItemStill(s, u);
    }
  }

  lemma PlaceDeleteFacts(base: Known, known: Known, past: Past, s: Ledger, o: Ledger, r: Ledger, id: Id)
    requires Rel(Both(base, KnownOf(s)), s, o, r)
    requires Ahead(s, Track(o, past, PlaceDelete(id))) && Future(s, ApplyOp(o, PlaceDelete(id)), known)
    requires id in known.places && HasKey(o.places, EntryId, id)
    ensures PlaceUsed(o, id) ==> PlaceUsed(r, id)
    ensures !PlaceUsed(o, id) ==> !PlaceUsed(r, id) && id !in Keys(s.places, EntryId)
  {
    hide *;
    var later, after := Track(o, past, PlaceDelete(id)), ApplyOp(o, PlaceDelete(id));
    RelParts(base, s, o, r);
    UsersStand(o, past, PlaceDelete(id));
    PlaceDeleteTracked(o, past, id);
    PlaceDeleteIs(o, id);
    if PlaceUsed(o, id) {
      var u := PlaceUserAtEnd(s, later, id);
      SameRowsStill(o, after, u);
      PlaceStaysUsed(Both(base, KnownOf(s)).transactions, s, o, r, u);
    } else {
      DropIs(o.places, id);
      FilteredAway(o.places, id);
      PlaceGoneAtEnd(s, after, known, id);
      PlaceGoneUnnamed(s, later, id);
      PlaceStaysUnused(Both(base, KnownOf(s)).transactions, s, o, r, id);
    }
  }

  lemma CategoryDeleteFacts(base: Known, known: Known, past: Past, s: Ledger, o: Ledger, r: Ledger, id: Id)
    requires Rel(Both(base, KnownOf(s)), s, o, r)
    requires Ahead(s, Track(o, past, CategoryDelete(id))) && Future(s, ApplyOp(o, CategoryDelete(id)), known)
    requires id in known.categories && HasKey(o.categories, EntryId, id)
    ensures CategoryUsed(o, id) ==> CategoryUsed(r, id)
    ensures !CategoryUsed(o, id) ==> !CategoryUsed(r, id) && id !in Keys(s.categories, EntryId)
  {
    hide *;
    var later, after := Track(o, past, CategoryDelete(id)), ApplyOp(o, CategoryDelete(id));
    RelParts(base, s, o, r);
    UsersStand(o, past, CategoryDelete(id));
    CategoryDeleteTracked(o, past, id);
    CategoryDeleteIs(o, id);
    if CategoryUsed(o, id) {
      var u := CategoryUserAtEnd(s, later, id);
      SameRowsStill(o, after, u);
      if u in later.categories.users && UsesCategoryStill(s, u) {
        CategoryStaysUsed(Both(base, KnownOf(s)).transactions, s, o, r, u);
      } else {
        ItemStaysUsed(Both(base, KnownOf(s)).transactions, s, o, r, u);
      }
    } else {
      DropIs(o.categories, id);
      FilteredAway(o.categories, id);
      CategoryGoneAtEnd(s, after, known, id);
      CategoryGoneUnnamed(s, later, id);
      CategoryStaysUnused(Both(base, KnownOf(s)).transactions, s, o, r, id);
    }
  }

  lemma PointFacts(base: Known, known: Known, s: Ledger, o: Ledger, r: Ledger, op: Op)
    requires Point(base, known, s, o, r) && CausalOp(o, known, op)
    ensures Rel(Both(base, KnownOf(s)), s, o, r)
    ensures Survivors(known.places, Keys(s.places, EntryId), Keys(o.places, EntryId))
    ensures Survivors(known.categories, Keys(s.categories, EntryId), Keys(o.categories, EntryId))
    ensures op.PlaceDelete? ==> op.id in known.places
    ensures op.CategoryDelete? ==> op.id in known.categories
    ensures op.PlaceMerge? ==> op.fromId in known.places && op.intoId in known.places
    ensures op.CategoryMerge? ==> op.fromId in known.categories && op.intoId in known.categories
  {
    hide Rel, WellFormed, Keys, Within, Survivors, RefsExist, KnownOf;
  }

  lemma PlaceDeleteStep(base: Known, known: Known, past: Past, s: Ledger, o: Ledger, r: Ledger, id: Id)
    requires Point(base, known, s, o, r) && CausalOp(o, known, PlaceDelete(id))
    requires Ahead(s, Track(o, past, PlaceDelete(id))) && Future(s, ApplyOp(o, PlaceDelete(id)), known)
    ensures Rel(Both(base, KnownOf(s)), s, ApplyOp(o, PlaceDelete(id)), ApplyOp(r, PlaceDelete(id)))
  {
    hide *;
    PointFacts(base, known, s, o, r, PlaceDelete(id));
    if HasKey(o.places, EntryId, id) { PlaceDeleteFacts(base, known, past, s, o, r, id); }
    PlaceDeletedStep(base, known, s, o, r, id);
  }

  lemma CategoryDeleteStep(base: Known, known: Known, past: Past, s: Ledger, o: Ledger, r: Ledger, id: Id)
    requires Point(base, known, s, o, r) && CausalOp(o, known, CategoryDelete(id))
    requires Ahead(s, Track(o, past, CategoryDelete(id))) && Future(s, ApplyOp(o, CategoryDelete(id)), known)
    ensures Rel(Both(base, KnownOf(s)), s, ApplyOp(o, CategoryDelete(id)), ApplyOp(r, CategoryDelete(id)))
  {
    hide *;
    PointFacts(base, known, s, o, r, CategoryDelete(id));
    if HasKey(o.categories, EntryId, id) { CategoryDeleteFacts(base, known, past, s, o, r, id); }
    CategoryDeletedStep(base, known, s, o, r, id);
  }
}
