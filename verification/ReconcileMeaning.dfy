// What becomes of every proposal of a batch, stated on the booked transactions and on the earlier
// proposals of the batch themselves.
module ReconcileMeaning {
  import opened Sequences
  import opened ImportRows
  import opened ImportDedupe
  import opened ImportReconcile

  // ---- what a proposal is recognised by -----------------------------------------------------------

  /** A text is recognised by its normal form and by that of each of its lines, unless it is blank. */
  predicate Recalls(rules: TextRules, rawPlace: string, ref: string) {
    && rules.norm(rawPlace) != "" && ref != ""
    && (ref == rules.norm(rawPlace) ||
        exists i :: 0 <= i < |rules.lines(rules.norm(rawPlace))| &&
          rules.norm(rules.lines(rules.norm(rawPlace))[i]) == ref)
  }

  predicate SameDayMoney(p: Proposal, date: string, amount: int) { p.date == Some(date) && p.amount == Some(amount) }

  /** Income and refunds come in; expenses and transfers, which the account itself sends, go out. */
  predicate ComesIn(p: Proposal) { p.kind == Some(IncomeEntry) || (p.kind == Some(ExpenseEntry) && p.isRefund) }

  /** The account receives the transfer of another account. */
  predicate Receives(t: BookedTxn, accountId: string) {
    t.kind == TransferEntry && t.accountId != accountId && t.toAccountId == Some(accountId)
  }

  predicate Sends(t: BookedTxn, accountId: string) { t.kind == TransferEntry && t.accountId == accountId }

  /** The booked transaction is the proposal: the same day and amount, and the same text or the same transfer. */
  predicate IsBooked(c: Context, p: Proposal, t: BookedTxn) {
    SameDayMoney(p, t.date, t.amount) &&
    ((t.accountId == c.accountId && t.sourceRef.Some? && Recalls(c.text, p.rawPlace, c.text.norm(t.sourceRef.value)))
     || (t.accountId == c.accountId && t.sourceRef.None? && Recalls(c.text, p.rawPlace, c.text.norm("")))
     || (Receives(t, c.accountId) && p.kind.Some? && ComesIn(p))
     || (Sends(t, c.accountId) && p.kind.Some? && !ComesIn(p)))
  }

  /** Some booked transaction of the account has the day and the amount. */
  predicate MoneyKnown(c: Context, p: Proposal, txns: seq<BookedTxn>) {
    exists i :: 0 <= i < |txns| && txns[i].accountId == c.accountId && SameDayMoney(p, txns[i].date, txns[i].amount)
  }

  predicate Booked(c: Context, p: Proposal, txns: seq<BookedTxn>) {
    exists i :: 0 <= i < |txns| && IsBooked(c, p, txns[i])
  }

  /** A calendar date and a positive amount. */
  predicate Dated(c: Context, p: Proposal) {
    p.date.Some? && c.facts.calendar(p.date.value) && p.amount.Some? && p.amount.value > 0
  }

  /** An accepted relation says that a candidate repeats another captured row. */
  predicate Repeats(p: Proposal) {
    p.disposition == Candidate && p.relation.Some? && p.relation.value.kind == DuplicateOf
  }

  /** Proposal `j` came out as a new candidate and is the same entry as `p`. */
  predicate Precedes(c: Context, p: Proposal, earlier: Proposal, status: DupStatus) {
    && status == New && earlier.disposition == Candidate && Dated(c, earlier)
    && SameDayMoney(p, earlier.date.value, earlier.amount.value)
    && Recalls(c.text, p.rawPlace, c.text.norm(earlier.rawPlace))
  }

  predicate Captured(c: Context, proposals: seq<Proposal>, out: seq<Reconciled>, i: nat)
    requires i < |proposals| && |out| == |proposals|
  {
    exists j :: 0 <= j < i && Precedes(c, proposals[i], proposals[j], out[j].duplicateStatus)
  }

  // ---- what becomes of it -------------------------------------------------------------------------

  /** Known to the account or to the batch, only its money known, or new. */
  predicate StatusStands(c: Context, proposals: seq<Proposal>, txns: seq<BookedTxn>, out: seq<Reconciled>, i: nat)
    requires i < |proposals| && |out| == |proposals|
  {
    var p := proposals[i];
    out[i].duplicateStatus ==
      if Repeats(p) then Exists
      else if !Dated(c, p) then New
      else if Booked(c, p, txns) || Captured(c, proposals, out, i) then Exists
      else if MoneyKnown(c, p, txns) then Probable
      else New
  }

  /** An envelope or category that no longer exists is dropped, and an income keeps no envelope. */
  predicate FieldsStand(c: Context, p: Proposal, q: Proposal) {
    && q == p.(envelopeId := q.envelopeId, categoryId := q.categoryId, disposition := q.disposition,
               selected := q.selected)
    && (q.envelopeId == p.envelopeId || q.envelopeId == None) && (q.categoryId == p.categoryId || q.categoryId == None)
    && (q.envelopeId.Some? ==> q.envelopeId.value in c.envelopeIds && p.kind != Some(IncomeEntry))
    && (p.envelopeId.Some? && p.envelopeId.value in c.envelopeIds && p.kind != Some(IncomeEntry) ==>
      q.envelopeId == p.envelopeId)
    && (q.categoryId.Some? ==> q.categoryId.value in c.categoryIds)
    && (p.categoryId.Some? && p.categoryId.value in c.categoryIds ==> q.categoryId == p.categoryId)
  }

  /** What is known is declined if it was a candidate, and stays selected only if it was not one. */
  predicate Decided(c: Context, p: Proposal, r: Reconciled) {
    && r.sourceAccountInvalid == c.sourceAccountInvalid
    && (r.proposal.selected <==>
      p.selected && !c.sourceAccountInvalid && r.duplicateStatus != Probable &&
      !(p.disposition == Candidate && r.duplicateStatus == Exists))
    && r.proposal.disposition ==
      (if c.sourceAccountInvalid then Unresolved
       else if p.disposition == Candidate && r.duplicateStatus == Exists then Declined
       else p.disposition)
  }

  // ---- the index a proposal meets -----------------------------------------------------------------

  function IndexAt(c: Context, proposals: seq<Proposal>, index: Index, i: nat): Index
    requires i <= |proposals|
  {
    if i == 0 then index else IndexAfter(c, proposals[i - 1], IndexAt(c, proposals, index, i - 1))
  }

  lemma {:induction false} IndexShift(c: Context, proposals: seq<Proposal>, index: Index, i: nat)
    requires i < |proposals|
    ensures IndexAt(c, proposals[1..], IndexAfter(c, proposals[0], index), i) == IndexAt(c, proposals, index, i + 1)
  {
    hide IndexAfter;
    if i > 0 { IndexShift(c, proposals, index, i - 1); }
  }

  lemma {:induction false} OneByOne(c: Context, proposals: seq<Proposal>, index: Index, i: nat)
    requires i < |proposals|
    ensures ReconcileFrom(c, proposals, index)[i] == ReconcileOne(c, proposals[i], IndexAt(c, proposals, index, i))
    decreases i
  {
    hide ReconcileOne, IndexAfter;
    if i > 0 {
      OneByOne(c, proposals[1..], IndexAfter(c, proposals[0], index), i - 1);
      IndexShift(c, proposals, index, i - 1);
    }
  }

  lemma {:induction false} RowsForHas(txns: seq<BookedTxn>, accountId: string, row: ExistingRow)
    ensures row in RowsFor(txns, accountId) <==> exists i :: 0 <= i < |txns| && row in RowFor(txns[i], accountId)
  {
    hide RowFor;
    if txns != [] {
      var n := |txns| - 1;
      RowsForHas(txns[..n], accountId, row);
      LastSplit(txns);
    }
  }

  /** What the index holds when proposal `n` is met: the booked rows and the marks of earlier new candidates. */
  ghost predicate IndexStands(
    c: Context, proposals: seq<Proposal>, rows: seq<ExistingRow>, out: seq<Reconciled>, n: nat, index: Index)
    requires n <= |proposals| && |out| == |proposals|
  {
    && index.weak == IndexOf(c.text, rows).weak && index.transfers == IndexOf(c.text, rows).transfers
    && (forall k :: k in index.strong <==>
      k in IndexOf(c.text, rows).strong || exists j :: 0 <= j < n && Leaves(c, proposals[j], out[j].duplicateStatus, k))
  }

  predicate Leaves(c: Context, p: Proposal, status: DupStatus, k: (string, int, string)) {
    && status == New && p.disposition == Candidate && Dated(c, p)
    && SameDayMoney(p, k.0, k.1) && c.text.norm(p.rawPlace) == k.2 && k.2 != ""
  }

  lemma IndexStep(
    c: Context, proposals: seq<Proposal>, rows: seq<ExistingRow>, out: seq<Reconciled>, n: nat, index: Index)
    requires n < |proposals| && |out| == |proposals| && IndexStands(c, proposals, rows, out, n, index)
    requires out[n].duplicateStatus == StatusOf(c, proposals[n], index)
    ensures IndexStands(c, proposals, rows, out, n + 1, IndexAfter(c, proposals[n], index))
  {
    var p, after := proposals[n], IndexAfter(c, proposals[n], index);
    forall k ensures k in after.strong <==> k in index.strong || Leaves(c, p, out[n].duplicateStatus, k) {
      hide Classify;
    }
    hide IndexOf, Leaves, IndexAfter, StatusOf;
  }

  lemma {:induction false} IndexReached(
    c: Context, proposals: seq<Proposal>, rows: seq<ExistingRow>, out: seq<Reconciled>, n: nat)
    requires n <= |proposals| && out == ReconcileFrom(c, proposals, IndexOf(c.text, rows))
    ensures IndexStands(c, proposals, rows, out, n, IndexAt(c, proposals, IndexOf(c.text, rows), n))
  {
    if n > 0 {
      IndexReached(c, proposals, rows, out, n - 1);
      OneByOne(c, proposals, IndexOf(c.text, rows), n - 1);
      hide IndexStands, IndexOf, ReconcileFrom, IndexAfter, StatusOf;
      IndexStep(c, proposals, rows, out, n - 1, IndexAt(c, proposals, IndexOf(c.text, rows), n - 1));
    }
  }

  // ---- what the index means -----------------------------------------------------------------------

  lemma RefsAre(rules: TextRules, rawPlace: string, ref: string)
    ensures ref in CandidateRefs(rules, rawPlace) <==> Recalls(rules, rawPlace, ref)
  {
    var whole := rules.norm(rawPlace);
    if whole != "" && ref in CandidateRefs(rules, rawPlace) && ref != whole {
      var i :| 0 <= i < |rules.lines(whole)| && rules.norm(rules.lines(whole)[i]) == ref;
    }
  }

  /** The row an account sees of a transaction. */
  lemma RowIs(c: Context, p: Proposal, t: BookedTxn)
    requires Dated(c, p)
    ensures (exists row :: row in RowFor(t, c.accountId) && Recognised(c.text, row, ItemOf(c, p))) <==>
      IsBooked(c, p, t)
    ensures (exists row :: row in RowFor(t, c.accountId) && Textual(row) && SameMoney(row, ItemOf(c, p))) <==>
      t.accountId == c.accountId && SameDayMoney(p, t.date, t.amount)
  {
    var item := ItemOf(c, p);
    RefsAre(c.text, p.rawPlace, NormRef(c.text, t.sourceRef));
    hide CandidateRefs, Recalls;
    if RowFor(t, c.accountId) != [] { assert RowFor(t, c.accountId)[0] in RowFor(t, c.accountId); }
  }

  lemma BookedMeans(c: Context, p: Proposal, txns: seq<BookedTxn>)
    requires Dated(c, p)
    ensures (exists row :: row in RowsFor(txns, c.accountId) && Recognised(c.text, row, ItemOf(c, p))) <==>
      Booked(c, p, txns)
    ensures (exists row :: row in RowsFor(txns, c.accountId) && Textual(row) && SameMoney(row, ItemOf(c, p))) <==>
      MoneyKnown(c, p, txns)
  {
    hide RowsFor, RowFor, Recognised, IsBooked, Textual, SameMoney, SameDayMoney, ItemOf;
    var rows, item := RowsFor(txns, c.accountId), ItemOf(c, p);
    forall i | 0 <= i < |txns|
      ensures (exists row :: row in RowFor(txns[i], c.accountId) && Recognised(c.text, row, item)) <==>
        IsBooked(c, p, txns[i])
      ensures (exists row :: row in RowFor(txns[i], c.accountId) && Textual(row) && SameMoney(row, item)) <==>
        txns[i].accountId == c.accountId && SameDayMoney(p, txns[i].date, txns[i].amount)
    {
      RowIs(c, p, txns[i]);
    }
    forall row ensures row in rows <==> exists i :: 0 <= i < |txns| && row in RowFor(txns[i], c.accountId) {
      RowsForHas(txns, c.accountId, row);
    }
  }

  /** Against the index the proposal meets, instead of the booked rows alone. */
  lemma StatusMeans(
    c: Context, proposals: seq<Proposal>, txns: seq<BookedTxn>, out: seq<Reconciled>, i: nat, index: Index)
    requires i < |proposals| && |out| == |proposals| && Dated(c, proposals[i]) && !Repeats(proposals[i])
    requires IndexStands(c, proposals, RowsFor(txns, c.accountId), out, i, index)
    ensures StatusOf(c, proposals[i], index) ==
      if Booked(c, proposals[i], txns) || Captured(c, proposals, out, i) then Exists
      else if MoneyKnown(c, proposals[i], txns) then Probable
      else New
  {
    var p, rows := proposals[i], RowsFor(txns, c.accountId);
    var item, base := ItemOf(c, p), IndexOf(c.text, rows);
    BookedMeans(c, p, txns);
    ClassifyMeans(c.text, rows, item);
    CapturedMeans(c, proposals, rows, out, i, index);
    hide RowsFor, IndexOf, Recognised, Booked, Captured, MoneyKnown, Leaves, CandidateRefs, Textual, SameMoney;
  }

  lemma CapturedMeans(
    c: Context, proposals: seq<Proposal>, rows: seq<ExistingRow>, out: seq<Reconciled>, i: nat, index: Index)
    requires i < |proposals| && |out| == |proposals| && Dated(c, proposals[i])
    requires IndexStands(c, proposals, rows, out, i, index)
    ensures var item, base := ItemOf(c, proposals[i]), IndexOf(c.text, rows);
      (exists ref :: ref in CandidateRefs(c.text, item.rawPlace) && (item.date, item.amount, ref) in index.strong) <==>
      Captured(c, proposals, out, i) ||
      exists ref :: ref in CandidateRefs(c.text, item.rawPlace) && (item.date, item.amount, ref) in base.strong
  {
    var p, item, base := proposals[i], ItemOf(c, proposals[i]), IndexOf(c.text, rows);
    forall ref ensures ref in CandidateRefs(c.text, item.rawPlace) <==> Recalls(c.text, p.rawPlace, ref) {
      RefsAre(c.text, p.rawPlace, ref);
    }
    hide IndexOf, CandidateRefs, Recalls;
    if Captured(c, proposals, out, i) {
      var j :| 0 <= j < i && Precedes(c, p, proposals[j], out[j].duplicateStatus);
      RecallsSome(c.text, p.rawPlace, c.text.norm(proposals[j].rawPlace));
      assert Leaves(c, proposals[j], out[j].duplicateStatus,
        (item.date, item.amount, c.text.norm(proposals[j].rawPlace)));
    }
    if ref :| ref in CandidateRefs(c.text, item.rawPlace) && (item.date, item.amount, ref) in index.strong {
      if (item.date, item.amount, ref) !in base.strong {
        var j :| 0 <= j < i && Leaves(c, proposals[j], out[j].duplicateStatus, (item.date, item.amount, ref));
        assert Precedes(c, p, proposals[j], out[j].duplicateStatus);
      }
    }
  }

  lemma RecallsSome(rules: TextRules, rawPlace: string, ref: string)
    requires Recalls(rules, rawPlace, ref)
    ensures ref != ""
  {
  }

  /**
   * What becomes of each proposal of a batch, whatever the account holds: its status says whether the
   * account or an earlier new candidate of the batch knows it, the status and the account decide its
   * disposition and whether it stays selected, and nothing else of it changes but unknown references.
   */
  lemma ReconcileMeans(c: Context, proposals: seq<Proposal>, txns: seq<BookedTxn>)
    ensures var out := Reconcile(c, proposals, txns);
      |out| == |proposals| && forall i :: 0 <= i < |proposals| ==>
        && StatusStands(c, proposals, txns, out, i)
        && Decided(c, proposals[i], out[i])
        && FieldsStand(c, proposals[i], out[i].proposal)
  {
    var rows, out := RowsFor(txns, c.accountId), Reconcile(c, proposals, txns);
    forall i | 0 <= i < |proposals|
      ensures StatusStands(c, proposals, txns, out, i)
      ensures Decided(c, proposals[i], out[i])
      ensures FieldsStand(c, proposals[i], out[i].proposal)
    {
      var index := IndexAt(c, proposals, IndexOf(c.text, rows), i);
      hide StatusOf, Booked, Captured, MoneyKnown, IndexStands, ReconcileFrom, RowsFor, IndexAt, IndexOf;
      OneByOne(c, proposals, IndexOf(c.text, rows), i);
      IndexReached(c, proposals, rows, out, i);
      StatusWithout(c, proposals[i], index);
      if Dated(c, proposals[i]) && !Repeats(proposals[i]) { StatusMeans(c, proposals, txns, out, i, index); }
    }
    hide StatusStands, Decided, FieldsStand, ReconcileFrom;
  }

  lemma StatusWithout(c: Context, p: Proposal, index: Index)
    ensures Repeats(p) ==> StatusOf(c, p, index) == Exists
    ensures !Repeats(p) && !Dated(c, p) ==> StatusOf(c, p, index) == New
  {
  }

  /**
   * A candidate comes out selected exactly when it went in selected, the account is valid, no relation
   * makes it a repeat and, if it has a date and an amount, neither the account nor an earlier new
   * candidate of the batch knows it or its money.
   */
  lemma SelectedExactly(c: Context, proposals: seq<Proposal>, txns: seq<BookedTxn>, i: nat)
    requires i < |proposals| && proposals[i].disposition == Candidate
    ensures var p, out := proposals[i], Reconcile(c, proposals, txns);
      |out| == |proposals| &&
      (out[i].proposal.selected <==>
        && p.selected && !c.sourceAccountInvalid && !Repeats(p)
        && (Dated(c, p) ==> !Booked(c, p, txns) && !MoneyKnown(c, p, txns) && !Captured(c, proposals, out, i)))
  {
    hide Booked, MoneyKnown, Captured, FieldsStand, Dated, Repeats;
    ReconcileMeans(c, proposals, txns);
    hide Reconcile;
    assert StatusStands(c, proposals, txns, Reconcile(c, proposals, txns), i);
  }
}
