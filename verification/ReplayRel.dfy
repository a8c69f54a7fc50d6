// How the ledger of a replay relates to that of the clean run, table by table.
//
// `s` is the snapshot that absorbed the whole history, `o` the clean run at some point of it, `r` the
// replay at the same point. Also here: the operations a history may consist of.
module ReplayRel {
  import opened Sequences
  import opened Tables
  import opened TableReplay
  import opened Ledger
  import opened WellFormedLedger
  import opened ReplayPast

  // ---- a field is still the snapshot's, or already the clean run's ----------------------------

  predicate Either<T(==)>(s: T, o: T, r: T) { r == s || r == o }

  predicate TxnBetween(s: Transaction, o: Transaction, r: Transaction) {
    && r.id == s.id == o.id
    && Either(s.kind, o.kind, r.kind) && Either(s.accountId, o.accountId, r.accountId)
    && Either(s.toAccountId, o.toAccountId, r.toAccountId) && Either(s.amount, o.amount, r.amount)
    && Either(s.date, o.date, r.date) && Either(s.isRefund, o.isRefund, r.isRefund)
    && Either(s.envelopeId, o.envelopeId, r.envelopeId) && Either(s.placeId, o.placeId, r.placeId)
    && Either(s.categoryId, o.categoryId, r.categoryId) && Either(s.name, o.name, r.name)
    && Either(s.note, o.note, r.note) && Either(s.tag, o.tag, r.tag)
    && Either(s.sourceRef, o.sourceRef, r.sourceRef)
    && Either(s.allocationFrom, o.allocationFrom, r.allocationFrom)
    && Either(s.allocationTo, o.allocationTo, r.allocationTo)
    && Either(s.items, o.items, r.items) && Either(s.createdAt, o.createdAt, r.createdAt)
  }

  predicate AccountBetween(s: Account, o: Account, r: Account) {
    && r.id == s.id == o.id
    && Either(s.name, o.name, r.name) && Either(s.color, o.color, r.color) && Either(s.icon, o.icon, r.icon)
    && Either(s.kind, o.kind, r.kind) && Either(s.onBudget, o.onBudget, r.onBudget)
    && Either(s.initialBalance, o.initialBalance, r.initialBalance)
    && Either(s.archived, o.archived, r.archived) && Either(s.sort, o.sort, r.sort)
    && Either(s.automaticEnvelopeId, o.automaticEnvelopeId, r.automaticEnvelopeId)
  }

  predicate EnvelopeBetween(s: Envelope, o: Envelope, r: Envelope) {
    && r.id == s.id == o.id
    && Either(s.groupId, o.groupId, r.groupId) && Either(s.name, o.name, r.name)
    && Either(s.color, o.color, r.color) && Either(s.icon, o.icon, r.icon) && Either(s.note, o.note, r.note)
    && Either(s.monthlyTarget, o.monthlyTarget, r.monthlyTarget) && Either(s.isSavings, o.isSavings, r.isSavings)
    && Either(s.sort, o.sort, r.sort) && Either(s.archived, o.archived, r.archived)
  }

  predicate GroupBetween(s: Group, o: Group, r: Group) {
    r.id == s.id == o.id && Either(s.name, o.name, r.name) && Either(s.sort, o.sort, r.sort)
  }

  predicate EntryBetween(s: Entry, o: Entry, r: Entry) {
    r.id == s.id == o.id && Either(s.name, o.name, r.name) && Either(s.archived, o.archived, r.archived)
  }

  predicate BudgetBetween(s: Budget, o: Budget, r: Budget) {
    r.id == s.id == o.id && Either(s.name, o.name, r.name) && Either(s.currency, o.currency, r.currency)
  }

  predicate AllocationBetween(s: Allocation, o: Allocation, r: Allocation) {
    AllocationKey(r) == AllocationKey(s) == AllocationKey(o) && r.id == s.id && Either(s.amount, o.amount, r.amount)
  }

  // ---- causal histories -----------------------------------------------------------------------

  function Both(a: Known, b: Known): Known {
    Known(
      a.accounts + b.accounts, a.groups + b.groups, a.envelopes + b.envelopes, a.transactions + b.transactions,
      a.categories + b.categories, a.places + b.places, a.budgets + b.budgets)
  }

  predicate Within(a: Known, b: Known) {
    && a.accounts <= b.accounts && a.groups <= b.groups && a.envelopes <= b.envelopes
    && a.transactions <= b.transactions && a.categories <= b.categories && a.places <= b.places
    && a.budgets <= b.budgets
  }

  function Learn(known: Known, op: Op): Known {
    match op
    case TxnCreate(p) => known.(transactions := known.transactions + {p.id})
    case AccountCreate(id, _, _) => known.(accounts := known.accounts + {id})
    case EnvelopeCreate(id, _, _, _) => known.(envelopes := known.envelopes + {id})
    case GroupCreate(g) => known.(groups := known.groups + {g.id})
    case CategoryCreate(id, _) => known.(categories := known.categories + {id})
    case PlaceCreate(id, _) => known.(places := known.places + {id})
    case _ => known
  }

  /** A payload with the allocation fields it leaves out cleared, or set. */
  function Settle(p: TxnFields, kept: Option<Id>): TxnFields {
    p.(allocationFrom := Put(p.allocationFrom.Over(kept)), allocationTo := Put(p.allocationTo.Over(kept)))
  }

  /**
   * The semantic rule decides the update alike whatever the row's allocation fields hold: an update
   * that is acceptable with the fields it leaves out cleared is acceptable with them set. An update
   * that carries both fields always qualifies.
   */
  predicate VerdictFixed(p: TxnFields) {
    SemanticsValid(TxnFromCreate(Settle(p, None))) ==> SemanticsValid(TxnFromCreate(Settle(p, Some(0))))
  }

  /**
   * Creates use ids never seen before, everything else names an id that was seen, references point
   * at live rows, and an update is decided alike in both runs.
   */
  ghost predicate CausalOp(l: Ledger, known: Known, op: Op) {
    RefsExist(l, op) &&
    match op
    case TxnCreate(p) => p.id !in known.transactions
    case TxnUpdate(p) => p.id in known.transactions && VerdictFixed(p)
    case TxnDelete(id) => id in known.transactions
    case AllocSet(envelopeId, _, _) => envelopeId in known.envelopes
    case AccountCreate(id, _, _) => id !in known.accounts
    case AccountUpdate(id, _) => id in known.accounts
    case AccountDelete(id) => id in known.accounts
    case EnvelopeCreate(id, _, _, _) => id !in known.envelopes
    case EnvelopeUpdate(id, _) => id in known.envelopes
    case EnvelopeDelete(id) => id in known.envelopes
    case GroupCreate(g) => g.id !in known.groups
    case GroupUpdate(id, _, _) => id in known.groups
    case GroupDelete(id) => id in known.groups
    case CategoryCreate(id, _) => id !in known.categories
    case CategoryUpdate(id, _, _) => id in known.categories
    case PlaceCreate(id, _) => id !in known.places
    case PlaceUpdate(id, _, _) => id in known.places
    case CategoryMerge(fromId, intoId) => fromId in known.categories && intoId in known.categories
    case CategoryDelete(id) => id in known.categories
    case PlaceMerge(fromId, intoId) => fromId in known.places && intoId in known.places
    case PlaceDelete(id) => id in known.places
    case BudgetUpdate(_, _) => true
    case UnknownKind => true
  }

  /** Every operation is causal and lasting where it stands. */
  ghost predicate Causal(l: Ledger, known: Known, past: Past, history: seq<Op>)
    decreases |history|
  {
    history == [] ||
    (CausalOp(l, known, history[0]) && Lasting(l, past, history[0]) &&
      Causal(ApplyOp(l, history[0]), Learn(known, history[0]), Track(l, past, history[0]), history[1..]))
  }

  // ---- the replay relation ----------------------------------------------------------------------

  function Outside(ids: set<Id>): Id -> bool { (k: Id) => k !in ids }

  function OutsideEnvelopes(ids: set<Id>): ((Id, Month)) -> bool { (k: (Id, Month)) => k.0 !in ids }

  predicate TxnRel(seen: set<Id>, s: seq<Transaction>, o: seq<Transaction>, r: seq<Transaction>) {
    TableRel(s, o, r, TxnId, Outside(seen), TxnBetween)
  }

  predicate AccountRel(seen: set<Id>, s: seq<Account>, o: seq<Account>, r: seq<Account>) {
    TableRel(s, o, r, AccountId, Outside(seen), AccountBetween)
  }

  predicate EnvelopeRel(seen: set<Id>, s: seq<Envelope>, o: seq<Envelope>, r: seq<Envelope>) {
    TableRel(s, o, r, EnvelopeId, Outside(seen), EnvelopeBetween)
  }

  predicate GroupRel(seen: set<Id>, s: seq<Group>, o: seq<Group>, r: seq<Group>) {
    TableRel(s, o, r, GroupId, Outside(seen), GroupBetween)
  }

  predicate EntryRel(seen: set<Id>, s: seq<Entry>, o: seq<Entry>, r: seq<Entry>) {
    TableRel(s, o, r, EntryId, Outside(seen), EntryBetween)
  }

  predicate BudgetRel(seen: set<Id>, s: seq<Budget>, o: seq<Budget>, r: seq<Budget>) {
    TableRel(s, o, r, BudgetId, Outside(seen), BudgetBetween)
  }

  predicate AllocationRel(oldEnvelopes: set<Id>, s: seq<Allocation>, o: seq<Allocation>, r: seq<Allocation>) {
    TableRel(s, o, r, AllocationKey, OutsideEnvelopes(oldEnvelopes), AllocationBetween)
  }

  predicate Rel(seen: Known, s: Ledger, o: Ledger, r: Ledger) {
    && TxnRel(seen.transactions, s.transactions, o.transactions, r.transactions)
    && AccountRel(seen.accounts, s.accounts, o.accounts, r.accounts)
    && EnvelopeRel(seen.envelopes, s.envelopes, o.envelopes, r.envelopes)
    && GroupRel(seen.groups, s.groups, o.groups, r.groups)
    && EntryRel(seen.categories, s.categories, o.categories, r.categories)
    && EntryRel(seen.places, s.places, o.places, r.places)
    && BudgetRel(seen.budgets, s.budgets, o.budgets, r.budgets)
    && AllocationRel(seen.envelopes, s.allocations, o.allocations, r.allocations)
  }

  /** Ids that die stay dead: what the end still has and was known, the present has. */
  ghost predicate Survivors(known: set<Id>, end: set<Id>, now: set<Id>) { known * end <= now }

  ghost predicate Future(s: Ledger, o: Ledger, known: Known) {
    && Survivors(known.accounts, AccountIds(s), AccountIds(o))
    && Survivors(known.groups, GroupIds(s), GroupIds(o))
    && Survivors(known.envelopes, EnvelopeIds(s), EnvelopeIds(o))
    && Survivors(known.transactions, Keys(s.transactions, TxnId), Keys(o.transactions, TxnId))
    && Survivors(known.categories, Keys(s.categories, EntryId), Keys(o.categories, EntryId))
    && Survivors(known.places, Keys(s.places, EntryId), Keys(o.places, EntryId))
    && Keys(s.budgets, BudgetId) == Keys(o.budgets, BudgetId)
    && (forall k :: k in Keys(o.allocations, AllocationKey) && k.0 in EnvelopeIds(s) ==>
      k in Keys(s.allocations, AllocationKey))
  }

  // ---- one operation on one table ---------------------------------------------------------------

  lemma DistinctUnique<T(!new), K>(rows: seq<T>, key: T -> K, x: T, y: T)
    requires Distinct(rows, key) && x in rows && y in rows && key(x) == key(y)
    ensures x == y
  {
  }

  /** An update of the row with id `id`, on any table: the same rewriting in both runs. */
  lemma UpdateStep<T(!new), K>(
    s: seq<T>, o: seq<T>, r: seq<T>, key: T -> K, novel: K -> bool, between: (T, T, T) -> bool, k: K, f: T -> T)
    requires TableRel(s, o, r, key, novel, between) && Distinct(s, key) && Distinct(o, key) && Preserves(key, f)
    requires HasKey(s, key, k) ==> HasKey(o, key, k)
    requires forall a, b, c :: between(a, b, c) ==> key(a) == key(b) == key(c) && between(a, f(b), f(c))
    ensures TableRel(s, Update(o, key, k, f), Update(r, key, k, f), key, novel, between)
  {
    RelDistinct(s, o, r, key, novel, between);
    UpdateIsMap(o, key, k, f);
    UpdateIsMap(r, key, k, f);
    var g := OnlyAt(key, k, f);
    assert Preserves(key, g);
    forall a | a in s && !HasKey(o, key, key(a)) ensures g(a) == a {
      assert HasKey(s, key, key(a));
    }
    forall a, b, c | a in s && b in o && key(b) == key(a) && between(a, b, c) ensures between(a, g(b), g(c)) {
    }
    TableMap(s, o, r, key, novel, between, g);
  }

  // ---- transactions -----------------------------------------------------------------------------

  predicate SameVerdictFields(a: Transaction, b: Transaction) {
    && a.kind == b.kind && a.toAccountId == b.toAccountId && a.amount == b.amount && a.envelopeId == b.envelopeId
    && SumItems(a.items) == SumItems(b.items) && |a.items| == |b.items|
    && a.allocationFrom.Some? == b.allocationFrom.Some? && a.allocationTo.Some? == b.allocationTo.Some?
  }

  lemma BuiltAlike(a: Id, b: Id, items: seq<ItemFields>)
    ensures SumItems(BuildItems(a, items)) == SumItems(BuildItems(b, items))
  {
    var built := BuildItems(a, items);
    var same := (i: Item) => i.(id := if i.id.LocalItem? then LocalItem(b, i.id.index) else i.id);
    assert BuildItems(b, items) == Map(built, same);
    SumMap(built, same, ItemAmount, ItemAmount);
  }

  /** Fewer references can only make a payload valid. */
  lemma LooserIsValid(a: Transaction, b: Transaction)
    requires SemanticsValid(a) &&
      SameVerdictFields(a.(allocationFrom := b.allocationFrom, allocationTo := b.allocationTo), b)
    requires (b.allocationFrom.Some? ==> a.allocationFrom.Some?) && (b.allocationTo.Some? ==> a.allocationTo.Some?)
    ensures SemanticsValid(b)
  {
    assert SemanticIssues(a) == [];
  }

  /** The verdict on an update does not depend on the row. */
  lemma VerdictIs(prev: Transaction, p: TxnFields)
    requires VerdictFixed(p)
    ensures SemanticsValid(TxnFromUpdate(prev, p)) == SemanticsValid(TxnFromCreate(Settle(p, None)))
  {
    var n, loose, strict := TxnFromUpdate(prev, p), TxnFromCreate(Settle(p, None)), TxnFromCreate(Settle(p, Some(0)));
    BuiltAlike(prev.id, p.id, p.items);
    hide SemanticIssues, SumItems, BuildItems, SemanticsValid;
    if SemanticsValid(loose) {
      LooserIsValid(strict, n);
    } else if SemanticsValid(n) {
      LooserIsValid(n, loose);
    }
  }

  lemma WrittenBetween(a: Transaction, b: Transaction, c: Transaction, p: TxnFields)
    requires TxnBetween(a, b, c)
    ensures TxnBetween(a, TxnFromUpdate(b, p), TxnFromUpdate(c, p))
  {
    hide BuildItems;
  }

  lemma UpdateTxnBetween(a: Transaction, b: Transaction, c: Transaction, p: TxnFields)
    requires TxnBetween(a, b, c) && VerdictFixed(p)
    ensures TxnBetween(a, UpdateTxn(p)(b), UpdateTxn(p)(c))
  {
    hide SemanticsValid, VerdictFixed, BuildItems, Settle, TxnBetween, TxnFromUpdate;
    VerdictIs(b, p);
    VerdictIs(c, p);
    WrittenBetween(a, b, c, p);
  }

  lemma UpdateTxnStep(
    seen: set<Id>, s: seq<Transaction>, o: seq<Transaction>, r: seq<Transaction>, p: TxnFields)
    requires TxnRel(seen, s, o, r) && Distinct(s, TxnId) && Distinct(o, TxnId)
    requires HasKey(s, TxnId, p.id) ==> HasKey(o, TxnId, p.id)
    requires VerdictFixed(p)
    ensures TxnRel(seen, s, Update(o, TxnId, p.id, UpdateTxn(p)), Update(r, TxnId, p.id, UpdateTxn(p)))
  {
    UpdateTxnKeepsId(p);
    hide UpdateTxn, VerdictFixed;
    forall a, b, c | TxnBetween(a, b, c)
      ensures TxnId(a) == TxnId(b) == TxnId(c) && TxnBetween(a, UpdateTxn(p)(b), UpdateTxn(p)(c))
    {
      UpdateTxnBetween(a, b, c, p);
    }
    UpdateStep(s, o, r, TxnId, Outside(seen), TxnBetween, p.id, UpdateTxn(p));
  }

  /** A delete that drops no row the end still has, and looks only at the account references. */
  lemma DropTxnStep(
    seen: set<Id>, s: seq<Transaction>, o: seq<Transaction>, r: seq<Transaction>, p: Transaction -> bool)
    requires TxnRel(seen, s, o, r) && Distinct(o, TxnId)
    requires forall x :: x in s ==> p(x)
    requires forall a, b, c :: TxnBetween(a, b, c) && p(a) && p(b) ==> p(c)
    requires Survivors(Keys(o, TxnId), Keys(s, TxnId), Keys(Filter(o, p), TxnId))
    ensures TxnRel(seen, s, Filter(o, p), Filter(r, p))
  {
    forall x | x in o && HasKey(s, TxnId, TxnId(x)) ensures p(x) {
      assert TxnId(x) in Keys(Filter(o, p), TxnId);
      var y :| y in Filter(o, p) && TxnId(y) == TxnId(x);
      DistinctUnique(o, TxnId, x, y);
    }
    forall j | 0 <= j < |s| ensures p(r[j]) {
      assert RowRel(s[j], o, r[j], TxnId, TxnBetween);
      assert s[j] in s;
      if HasKey(o, TxnId, TxnId(s[j])) {
        var i :| 0 <= i < |o| && TxnId(o[i]) == TxnId(s[j]);
        assert o[i] in o && HasKey(s, TxnId, TxnId(o[i]));
      }
    }
    TableFilter(s, o, r, TxnId, Outside(seen), TxnBetween, p);
  }

  lemma ClearTxnBetween(a: Transaction, b: Transaction, c: Transaction, ids: set<Id>)
    requires TxnBetween(a, b, c) && ClearTxn(ids)(a) == a
    ensures TxnBetween(a, ClearTxn(ids)(b), ClearTxn(ids)(c))
  {
  }

  lemma ClearTxnIdle(t: Transaction, accounts: set<Id>, envelopes: set<Id>, ids: set<Id>)
    requires TxnResolved(t, accounts, envelopes) && ids !! envelopes
    ensures ClearTxn(ids)(t) == t
  {
    FilterAll(t.items, ItemOutside(ids));
  }

  lemma ClearTxnStep(
    seen: set<Id>, s: seq<Transaction>, o: seq<Transaction>, r: seq<Transaction>,
    accounts: set<Id>, envelopes: set<Id>, ids: set<Id>)
    requires TxnRel(seen, s, o, r)
    requires forall t :: t in s ==> TxnResolved(t, accounts, envelopes)
    requires ids !! envelopes
    ensures TxnRel(seen, s, Map(o, ClearTxn(ids)), Map(r, ClearTxn(ids)))
  {
    var f := ClearTxn(ids);
    forall a | a in s ensures f(a) == a { ClearTxnIdle(a, accounts, envelopes, ids); }
    forall a, b, c | a in s && b in o && TxnId(b) == TxnId(a) && TxnBetween(a, b, c)
      ensures TxnBetween(a, f(b), f(c))
    {
      ClearTxnBetween(a, b, c, ids);
    }
    TableMap(s, o, r, TxnId, Outside(seen), TxnBetween, f);
  }

  // ---- accounts ---------------------------------------------------------------------------------

  lemma AccountPatchStep(seen: set<Id>, s: seq<Account>, o: seq<Account>, r: seq<Account>, id: Id, p: AccountPatch)
    requires AccountRel(seen, s, o, r) && Distinct(s, AccountId) && Distinct(o, AccountId)
    requires HasKey(s, AccountId, id) ==> HasKey(o, AccountId, id)
    ensures AccountRel(seen, s, Update(o, AccountId, id, AccountPatching(p)),
      Update(r, AccountId, id, AccountPatching(p)))
  {
    UpdateStep(s, o, r, AccountId, Outside(seen), AccountBetween, id, AccountPatching(p));
  }

  lemma ClearAccountStep(
    seen: set<Id>, s: seq<Account>, o: seq<Account>, r: seq<Account>, envelopes: set<Id>, ids: set<Id>)
    requires AccountRel(seen, s, o, r)
    requires forall a :: a in s ==> Resolves(a.automaticEnvelopeId, envelopes)
    requires ids !! envelopes
    ensures AccountRel(seen, s, Map(o, ClearAccount(ids)), Map(r, ClearAccount(ids)))
  {
    TableMap(s, o, r, AccountId, Outside(seen), AccountBetween, ClearAccount(ids));
  }

  // ---- a delete by key --------------------------------------------------------------------------

  lemma DropKeyStep<T(!new), K>(
    s: seq<T>, o: seq<T>, r: seq<T>, key: T -> K, novel: K -> bool, between: (T, T, T) -> bool,
    p: T -> bool)
    requires TableRel(s, o, r, key, novel, between)
    requires forall x, y :: key(x) == key(y) ==> p(x) == p(y)
    requires forall x :: x in s ==> p(x)
    ensures TableRel(s, Filter(o, p), Filter(r, p), key, novel, between)
  {
    forall j | 0 <= j < |s| ensures p(r[j]) {
      assert RowRel(s[j], o, r[j], key, between);
      assert s[j] in s;
    }
    forall x | x in o && HasKey(s, key, key(x)) ensures p(x) {
      var i :| 0 <= i < |s| && key(s[i]) == key(x);
      assert s[i] in s;
    }
    TableFilter(s, o, r, key, novel, between, p);
  }

  // ---- allocations ------------------------------------------------------------------------------

  lemma SetAmountStep(
    seen: set<Id>, s: seq<Allocation>, o: seq<Allocation>, r: seq<Allocation>, k: (Id, Month), amount: Money)
    requires AllocationRel(seen, s, o, r) && Distinct(s, AllocationKey) && Distinct(o, AllocationKey)
    requires HasKey(s, AllocationKey, k) ==> HasKey(o, AllocationKey, k)
    ensures AllocationRel(seen, s, Update(o, AllocationKey, k, SetAmount(amount)),
      Update(r, AllocationKey, k, SetAmount(amount)))
  {
    UpdateStep(s, o, r, AllocationKey, OutsideEnvelopes(seen), AllocationBetween, k, SetAmount(amount));
  }

  /** The clean run adds the row, the replay finds it in the snapshot and sets its amount. */
  lemma AdoptAllocationStep(
    seen: set<Id>, s: seq<Allocation>, o: seq<Allocation>, r: seq<Allocation>, row: Allocation)
    requires AllocationRel(seen, s, o, r) && Distinct(s, AllocationKey) && Distinct(o, AllocationKey)
    requires !HasKey(o, AllocationKey, AllocationKey(row)) && HasKey(s, AllocationKey, AllocationKey(row))
    ensures AllocationRel(seen, s, o + [row], Update(r, AllocationKey, AllocationKey(row), SetAmount(row.amount)))
  {
    var k := AllocationKey(row);
    var r' := Update(r, AllocationKey, k, SetAmount(row.amount));
    var i := FindKey(r, AllocationKey, k);
    var at :| 0 <= at < |s| && AllocationKey(s[at]) == k;
    assert RowRel(s[at], o, r[at], AllocationKey, AllocationBetween);
    RelDistinct(s, o, r, AllocationKey, OutsideEnvelopes(seen), AllocationBetween);
    assert i == at;
    assert r'[|s|..] == r[|s|..];
    FilterOneMore(o, row, NovelRow(AllocationKey, OutsideEnvelopes(seen)));
    assert OutsideEnvelopes(seen)(k) == false;
    forall j | 0 <= j < |s| ensures RowRel(s[j], o + [row], r'[j], AllocationKey, AllocationBetween) {
      assert RowRel(s[j], o, r[j], AllocationKey, AllocationBetween);
      RowAdopt(s[j], o, r[j], row);
    }
  }

  lemma RowAdopt(s0: Allocation, o: seq<Allocation>, r0: Allocation, row: Allocation)
    requires RowRel(s0, o, r0, AllocationKey, AllocationBetween)
    requires !HasKey(o, AllocationKey, AllocationKey(row))
    ensures RowRel(s0, o + [row], if AllocationKey(s0) == AllocationKey(row) then r0.(amount := row.amount) else r0,
                   AllocationKey, AllocationBetween)
  {
    var o' := o + [row];
    assert o'[|o|] == row;
    if HasKey(o, AllocationKey, AllocationKey(s0)) {
      var i :| 0 <= i < |o| && AllocationKey(o[i]) == AllocationKey(s0);
      assert o'[i] == o[i];
    }
  }

  /** The clean run adds a row of an envelope the end has lost, the replay has no such envelope. */
  lemma IgnoreAllocationStep(
    seen: set<Id>, s: seq<Allocation>, o: seq<Allocation>, r: seq<Allocation>, row: Allocation)
    requires AllocationRel(seen, s, o, r)
    requires row.envelopeId in seen && !HasKey(s, AllocationKey, AllocationKey(row))
    ensures AllocationRel(seen, s, o + [row], r)
  {
    FilterOneMore(o, row, NovelRow(AllocationKey, OutsideEnvelopes(seen)));
    forall j | 0 <= j < |s| ensures RowRel(s[j], o + [row], r[j], AllocationKey, AllocationBetween) {
      assert RowRel(s[j], o, r[j], AllocationKey, AllocationBetween);
      assert AllocationKey(s[j]) != AllocationKey(row);
      var o' := o + [row];
      if HasKey(o, AllocationKey, AllocationKey(s[j])) {
        var i :| 0 <= i < |o| && AllocationKey(o[i]) == AllocationKey(s[j]);
        assert o'[i] == o[i];
      }
    }
  }

  lemma UpdateMissing<T(!new), K>(rows: seq<T>, key: T -> K, k: K, f: T -> T)
    requires !HasKey(rows, key, k)
    ensures Update(rows, key, k, f) == rows
  {
  }

  lemma AllocSetStep(seen: Known, known: Known, s: Ledger, o: Ledger, r: Ledger, op: Op)
    requires Rel(seen, s, o, r) && WellFormed(s) && WellFormed(o)
    requires op.AllocSet? && CausalOp(o, known, op)
    requires Future(s, o, known) && Future(s, ApplyOp(o, op), known)
    requires Within(KnownOf(o), known)
    ensures AllocationRel(seen.envelopes, s.allocations, ApplyOp(o, op).allocations, ApplyOp(r, op).allocations)
  {
    var e, k, amount := op.envelopeId, (op.envelopeId, op.month), op.amount;
    var row := Allocation(LocalAllocation(e, op.month), e, op.month, amount);
    RelHasKey(s.envelopes, o.envelopes, r.envelopes, EnvelopeId, Outside(seen.envelopes), EnvelopeBetween, e);
    RelHasKey(s.allocations, o.allocations, r.allocations, AllocationKey, OutsideEnvelopes(seen.envelopes),
      AllocationBetween, k);
    KeyIn(s.envelopes, EnvelopeId, e);
    KeyIn(o.envelopes, EnvelopeId, e);
    KeyIn(s.allocations, AllocationKey, k);
    KeyIn(o.allocations, AllocationKey, k);
    if HasKey(o.envelopes, EnvelopeId, e) {
      SetAllocationKeeps(o, e, op.month, amount);
      assert k in Keys(ApplyOp(o, op).allocations, AllocationKey);
      assert HasKey(s.allocations, AllocationKey, k) <==> HasKey(s.envelopes, EnvelopeId, e);
      if HasKey(o.allocations, AllocationKey, k) {
        SetAmountStep(seen.envelopes, s.allocations, o.allocations, r.allocations, k, amount);
        if !HasKey(r.allocations, AllocationKey, k)
        { UpdateMissing(r.allocations, AllocationKey, k, SetAmount(amount)); }
      } else if HasKey(s.envelopes, EnvelopeId, e) {
        AdoptAllocationStep(seen.envelopes, s.allocations, o.allocations, r.allocations, row);
      } else if e in seen.envelopes {
        IgnoreAllocationStep(seen.envelopes, s.allocations, o.allocations, r.allocations, row);
      } else {
        TableInsert(s.allocations, o.allocations, r.allocations, AllocationKey, OutsideEnvelopes(seen.envelopes),
          AllocationBetween, row);
      }
    }
  }

  lemma KeyIn<T(!new), K>(rows: seq<T>, key: T -> K, k: K)
    ensures HasKey(rows, key, k) <==> k in Keys(rows, key)
    ensures HasKey(rows, key, k) <==> exists x :: x in rows && key(x) == k
  {
    if HasKey(rows, key, k) {
      var i :| 0 <= i < |rows| && key(rows[i]) == k;
      assert rows[i] in rows;
    }
  }

  lemma DroppedKey<T(!new), K>(rows: seq<T>, key: T -> K, p: T -> bool, k: K)
    requires forall x :: p(x) <==> key(x) != k
    ensures k !in Keys(Filter(rows, p), key)
  {
  }

  // ---- one operation on the whole ledger --------------------------------------------------------

  /** What every step lemma starts from. */
  ghost predicate Point(base: Known, known: Known, s: Ledger, o: Ledger, r: Ledger) {
    && Rel(Both(base, KnownOf(s)), s, o, r)
    && WellFormed(s) && WellFormed(o)
    && Within(base, known) && Within(KnownOf(o), known)
    && Future(s, o, known)
  }

  /** A create, on any table: the id is new to the history. */
  lemma CreateStep<T(!new)>(
    base: set<Id>, known: set<Id>, s: seq<T>, o: seq<T>, r: seq<T>, key: T -> Id, between: (T, T, T) -> bool, row: T)
    requires TableRel(s, o, r, key, Outside(base + Keys(s, key)), between)
    requires base <= known && Keys(o, key) <= known && key(row) !in known
    requires forall a :: a in s && key(a) == key(row) ==> between(a, row, a)
    ensures TableRel(s, Insert(o, key, row), Insert(r, key, row), key, Outside(base + Keys(s, key)), between)
  {
    hide TableRel, Keys, Insert;
    KeyIn(s, key, key(row));
    KeyIn(o, key, key(row));
    TableInsert(s, o, r, key, Outside(base + Keys(s, key)), between, row);
  }

  /** An update, on any table: an id the end still has is live. */
  lemma PatchStep<T(!new)>(
    base: set<Id>, known: set<Id>, s: seq<T>, o: seq<T>, r: seq<T>, key: T -> Id, between: (T, T, T) -> bool, id: Id,
    f: T -> T)
    requires TableRel(s, o, r, key, Outside(base + Keys(s, key)), between)
    requires Distinct(s, key) && Distinct(o, key) && Preserves(key, f)
    requires id in known && Survivors(known, Keys(s, key), Keys(o, key))
    requires forall a, b, c :: between(a, b, c) ==> key(a) == key(b) == key(c) && between(a, f(b), f(c))
    ensures TableRel(s, Update(o, key, id, f), Update(r, key, id, f), key, Outside(base + Keys(s, key)), between)
  {
    hide TableRel, Keys, Update, Distinct, Preserves;
    KeyIn(s, key, id);
    KeyIn(o, key, id);
    UpdateStep(s, o, r, key, Outside(base + Keys(s, key)), between, id, f);
  }
}
