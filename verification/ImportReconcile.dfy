/** Reconciling proposals with what the account already holds: nothing is booked twice. */
module ImportReconcile {
  import opened Sequences
  import opened ImportRows
  import opened ImportDedupe
  import opened ImportRecognition

  datatype Context = Context(
    text: TextRules, facts: FactRules, accountId: string, sourceAccountInvalid: bool,
    envelopeIds: set<string>, categoryIds: set<string>)

  datatype Reconciled = Reconciled(proposal: Proposal, duplicateStatus: DupStatus, sourceAccountInvalid: bool)

  function KeepKnown(ref: Option<string>, known: set<string>): Option<string> {
    if ref.Some? && ref.value in known then ref else None
  }

  function ItemOf(c: Context, p: Proposal): Item
    requires p.date.Some? && p.amount.Some?
  {
    Item(p.date.value, p.amount.value, p.rawPlace,
         if p.kind.Some?
           then Some(CandidateDirection(p.kind.value, p.isRefund, c.accountId, p.toAccountId, c.accountId)) else None)
  }

  predicate IsRepeat(p: Proposal) {
    p.relation.Some? && p.relation.value.kind == DuplicateOf && p.disposition == Candidate
  }

  predicate HasFacts(c: Context, p: Proposal) { IsCalendarDate(c.facts, p.date) && HasPositiveAmount(p.amount) }

  function StatusOf(c: Context, p: Proposal, index: Index): DupStatus {
    if IsRepeat(p) then Exists
    else if HasFacts(c, p) then Classify(c.text, ItemOf(c, p), index)
    else New
  }

  /** The index after a proposal: only a new candidate leaves a mark for the rest of the batch. */
  function IndexAfter(c: Context, p: Proposal, index: Index): Index {
    if !IsRepeat(p) && HasFacts(c, p) && StatusOf(c, p, index) == New && p.disposition == Candidate
    then Marked(c.text, index, ItemOf(c, p)) else index
  }

  function ReconcileOne(c: Context, p: Proposal, index: Index): Reconciled {
    var status := StatusOf(c, p, index);
    var declined := p.disposition == Candidate && status == Exists;
    var kept := p.selected && !declined && status != Probable;
    Reconciled(
      p.(envelopeId := if p.kind == Some(IncomeEntry) then None else KeepKnown(p.envelopeId, c.envelopeIds),
         categoryId := KeepKnown(p.categoryId, c.categoryIds),
         disposition := if c.sourceAccountInvalid then Unresolved else if declined then Declined else p.disposition,
         selected := kept && !c.sourceAccountInvalid),
      status, c.sourceAccountInvalid)
  }

  function ReconcileFrom(c: Context, proposals: seq<Proposal>, index: Index): (r: seq<Reconciled>)
    ensures |r| == |proposals|
  {
    if proposals == [] then []
    else [ReconcileOne(c, proposals[0], index)] + ReconcileFrom(c, proposals[1..], IndexAfter(c, proposals[0], index))
  }

  function Reconcile(c: Context, proposals: seq<Proposal>, txns: seq<BookedTxn>): seq<Reconciled> {
    ReconcileFrom(c, proposals, IndexOf(c.text, RowsFor(txns, c.accountId)))
  }

  /** One proposal, classified against the index and, when new, left in it for the rest of the batch. */
  method ReconcileProposal(c: Context, p: Proposal, duplicates: DupIndex) returns (one: Reconciled)
    modifies duplicates
    ensures one == ReconcileOne(c, p, old(duplicates.Contents()))
    ensures duplicates.Contents() == IndexAfter(c, p, old(duplicates.Contents()))
  {
    var disposition, selected, status := p.disposition, p.selected, New;
    if p.relation.Some? && p.relation.value.kind == DuplicateOf && p.disposition == Candidate {
      status, disposition, selected := Exists, Declined, false;
    } else if HasFacts(c, p) {
      status := Classify(c.text, ItemOf(c, p), duplicates.Contents());
      if status == Exists {
        if p.disposition == Candidate { disposition, selected := Declined, false; }
      } else if status == Probable {
        selected := false;
      } else if p.disposition == Candidate {
        duplicates.MarkSeen(c.text, ItemOf(c, p));
      }
    }
    if c.sourceAccountInvalid { disposition, selected := Unresolved, false; }
    one := Reconciled(
      p.(envelopeId := if p.kind == Some(IncomeEntry) then None else KeepKnown(p.envelopeId, c.envelopeIds),
         categoryId := KeepKnown(p.categoryId, c.categoryIds), disposition := disposition, selected := selected),
      status, c.sourceAccountInvalid);
  }

  method ReconcileImportProposals(c: Context, proposals: seq<Proposal>, txns: seq<BookedTxn>)
    returns (out: seq<Reconciled>)
    ensures out == Reconcile(c, proposals, txns)
  {
    hide ReconcileOne, IndexAfter;
    var rows := ExistingImportRowsForAccount(txns, c.accountId);
    var duplicates := new DupIndex(c.text, rows);
    out := [];
    for i := 0 to |proposals|
      invariant out + ReconcileFrom(c, proposals[i..], duplicates.Contents()) == Reconcile(c, proposals, txns)
    {
      assert proposals[i..][0] == proposals[i] && proposals[i..][1..] == proposals[i + 1..];
      var one := ReconcileProposal(c, proposals[i], duplicates);
      out := out + [one];
    }
    assert proposals[|proposals|..] == [];
  }

  // ---- booking and importing again --------------------------------------------------------------------

  predicate Books(r: Reconciled) {
    r.proposal.disposition == Candidate && r.proposal.selected && r.proposal.date.Some? && r.proposal.amount.Some? &&
      r.proposal.kind.Some?
  }

  /** The transaction a selected candidate becomes: its visible text is its source reference. */
  function Booking(c: Context, p: Proposal): BookedTxn
    requires p.date.Some? && p.amount.Some? && p.kind.Some?
  {
    BookedTxn(c.accountId, if p.kind.value == TransferEntry then p.toAccountId
      else None, p.kind.value, p.date.value, p.amount.value, Some(p.rawPlace))
  }

  function Bookings(c: Context, out: seq<Reconciled>): seq<BookedTxn> {
    if out == [] then []
    else (if Books(out[0]) then [Booking(c, out[0].proposal)] else []) + Bookings(c, out[1..])
  }

  lemma {:induction false} BookingsHave(c: Context, out: seq<Reconciled>)
    ensures forall r :: r in out && Books(r) ==> Booking(c, r.proposal) in Bookings(c, out)
    ensures forall t :: t in Bookings(c, out) ==> t.accountId == c.accountId
  {
    if out == [] {
    } else {
      BookingsHave(c, out[1..]);
      assert out == [out[0]] + out[1..];
    }
  }

  /** A candidate carries what booking it needs: extraction guarantees it (`CandidatesAreComplete`). */
  predicate Complete(c: Context, p: Proposal) { p.disposition == Candidate ==> HasFacts(c, p) && p.kind.Some? }

  /** What the second index has beyond the first lies on dates and amounts it knows as money. */
  ghost predicate Grown(first: Index, second: Index) {
    && first.strong <= second.strong && first.weak <= second.weak && first.transfers <= second.transfers
    && (forall k :: k in second.strong - first.strong ==> (k.0, k.1) in second.weak)
    && (forall k :: k in second.transfers - first.transfers ==> (k.0, k.1) in second.weak)
  }

  /** The running indexes of the two imports: `m1` and `m2` are the marks left so far. */
  ghost predicate InStep(base1: Index, base2: Index, i1: Index, i2: Index) {
    && i1.weak == base1.weak && i2.weak == base2.weak && i1.transfers == base1.transfers &&
      i2.transfers == base2.transfers
    && base1.strong <= i1.strong && base2.strong <= i2.strong
    && i2.strong - base2.strong <= i1.strong
    && (forall k :: k in i1.strong - base1.strong ==> k in i2.strong || (k.0, k.1) in base2.weak)
  }

  /** What is new to the second import was new to the first. */
  lemma NewTwice(c: Context, p: Proposal, base1: Index, base2: Index, i1: Index, i2: Index)
    requires Grown(base1, base2) && InStep(base1, base2, i1, i2) && HasFacts(c, p)
    requires StatusOf(c, p, i2) == New
    ensures StatusOf(c, p, i1) == New
  {
    if !IsRepeat(p) {
      var item := ItemOf(c, p);
      forall ref | ref in CandidateRefs(c.text, item.rawPlace) ensures (item.date, item.amount, ref) !in i1.strong {
        var k := (item.date, item.amount, ref);
        assert k !in i2.strong;
      }
    }
  }

  /** What was new to the first import, but is not to the second, is money the second index knows. */
  lemma OnceNew(c: Context, p: Proposal, base1: Index, base2: Index, i1: Index, i2: Index)
    requires Grown(base1, base2) && InStep(base1, base2, i1, i2) && HasFacts(c, p)
    requires StatusOf(c, p, i1) == New && StatusOf(c, p, i2) != New
    ensures (p.date.value, p.amount.value) in base2.weak
  {
    var item := ItemOf(c, p);
    if ref :| ref in CandidateRefs(c.text, item.rawPlace) && (item.date, item.amount, ref) in i2.strong {
      var k := (item.date, item.amount, ref);
      assert k !in i1.strong;
      assert k in base2.strong - base1.strong;
    } else if item.direction.Some? && (item.date, item.amount, item.direction.value) in i2.transfers {
      var k := (item.date, item.amount, item.direction.value);
      assert k in base2.transfers - base1.transfers;
    }
  }

  lemma InStepAfter(c: Context, p: Proposal, base1: Index, base2: Index, i1: Index, i2: Index)
    requires Grown(base1, base2) && InStep(base1, base2, i1, i2)
    ensures InStep(base1, base2, IndexAfter(c, p, i1), IndexAfter(c, p, i2))
  {
    if !IsRepeat(p) && HasFacts(c, p) {
      if StatusOf(c, p, i2) == New { NewTwice(c, p, base1, base2, i1, i2); }
      if StatusOf(c, p, i1) == New && StatusOf(c, p, i2) != New { OnceNew(c, p, base1, base2, i1, i2); }
    }
  }

  lemma NotTwice(c: Context, p: Proposal, base1: Index, base2: Index, i1: Index, i2: Index)
    requires Grown(base1, base2) && InStep(base1, base2, i1, i2) && Complete(c, p)
    requires Books(ReconcileOne(c, p, i1)) ==> (p.date.value, p.amount.value) in base2.weak
    ensures var again := ReconcileOne(c, p, i2).proposal; !(again.disposition == Candidate && again.selected)
  {
    if HasFacts(c, p) && StatusOf(c, p, i2) == New { NewTwice(c, p, base1, base2, i1, i2); }
  }

  lemma {:induction false} SecondImport(
    c: Context, proposals: seq<Proposal>, base1: Index, base2: Index, i1: Index, i2: Index)
    requires Grown(base1, base2) && InStep(base1, base2, i1, i2)
    requires forall p :: p in proposals ==> Complete(c, p)
    requires forall r :: r in ReconcileFrom(c, proposals, i1) && Books(r) ==>
      (r.proposal.date.value, r.proposal.amount.value) in base2.weak
    ensures forall r :: r in ReconcileFrom(c, proposals, i2) ==>
      !(r.proposal.disposition == Candidate && r.proposal.selected)
    decreases |proposals|
  {
    if proposals == [] {
    } else {
      var p := proposals[0];
      var rest1 := ReconcileFrom(c, proposals[1..], IndexAfter(c, p, i1));
      assert ReconcileFrom(c, proposals, i1) == [ReconcileOne(c, p, i1)] + rest1;
      assert ReconcileOne(c, p, i1) in ReconcileFrom(c, proposals, i1);
      assert p in proposals;
      NotTwice(c, p, base1, base2, i1, i2);
      InStepAfter(c, p, base1, base2, i1, i2);
      hide ReconcileOne, IndexAfter, InStep, Grown;
      SecondImport(c, proposals[1..], base1, base2, IndexAfter(c, p, i1), IndexAfter(c, p, i2));
    }
  }

  lemma {:induction false} RowsForConcat(a: seq<BookedTxn>, b: seq<BookedTxn>, accountId: string)
    ensures RowsFor(a + b, accountId) == RowsFor(a, accountId) + RowsFor(b, accountId)
  {
    if b == [] {
      assert a + b == a;
    } else {
      assert (a + b)[..|a + b| - 1] == a + b[..|b| - 1];
      RowsForConcat(a, b[..|b| - 1], accountId);
    }
  }

  /** Rows booked on the account itself are never the receiving side of a transfer. */
  lemma {:induction false} OwnRowsTextual(txns: seq<BookedTxn>, accountId: string)
    requires forall t :: t in txns ==> t.accountId == accountId
    ensures |RowsFor(txns, accountId)| == |txns|
    ensures forall i :: 0 <= i < |txns| ==>
      var row := RowsFor(txns, accountId)[i]; Textual(row) && row.date == txns[i].date && row.amount == txns[i].amount
  {
    if txns != [] {
      assert txns[|txns| - 1] in txns;
      OwnRowsTextual(txns[..|txns| - 1], accountId);
    }
  }

  lemma GrownByRow(text: TextRules, first: Index, second: Index, row: ExistingRow)
    requires Grown(first, second) && Textual(row)
    ensures Grown(first, AddRow(text, second, row))
  {
    var after := AddRow(text, second, row);
    forall k | k in after.transfers - first.transfers ensures (k.0, k.1) in after.weak {
      if k !in second.transfers { assert k.0 == row.date && k.1 == row.amount; }
    }
    forall k | k in after.strong - first.strong ensures (k.0, k.1) in after.weak {
      if k !in second.strong { assert k.0 == row.date && k.1 == row.amount; }
    }
  }

  lemma {:induction false} BookingsGrow(text: TextRules, rows: seq<ExistingRow>, booked: seq<ExistingRow>)
    requires forall row :: row in booked ==> Textual(row)
    ensures Grown(IndexOf(text, rows), IndexOf(text, rows + booked))
    ensures forall row :: row in booked ==> (row.date, row.amount) in IndexOf(text, rows + booked).weak
  {
    if booked == [] {
      assert rows + booked == rows;
    } else {
      var init, last := booked[..|booked| - 1], booked[|booked| - 1];
      assert booked == init + [last] && (rows + booked)[..|rows + booked| - 1] == rows + init;
      BookingsGrow(text, rows, init);
      GrownByRow(text, IndexOf(text, rows), IndexOf(text, rows + init), last);
    }
  }

  /**
   * Importing the same proposals again, after the selected candidates were booked on the account
   * with their visible text as source reference, selects no candidate.
   */
  lemma {:induction false} ReimportSelectsNothing(c: Context, proposals: seq<Proposal>, txns: seq<BookedTxn>)
    requires forall p :: p in proposals ==> Complete(c, p)
    ensures var booked := txns + Bookings(c, Reconcile(c, proposals, txns));
            forall r :: r in Reconcile(c, proposals, booked) ==>
              !(r.proposal.disposition == Candidate && r.proposal.selected)
  {
    var first := Reconcile(c, proposals, txns);
    var bookings := Bookings(c, first);
    var rows, more := RowsFor(txns, c.accountId), RowsFor(bookings, c.accountId);
    BookingsHave(c, first);
    OwnRowsTextual(bookings, c.accountId);
    RowsForConcat(txns, bookings, c.accountId);
    BookingsGrow(c.text, rows, more);
    hide IndexOf, RowsFor, Bookings, ReconcileFrom, Grown, InStep, Complete;
    var base1, base2 := IndexOf(c.text, rows), IndexOf(c.text, rows + more);
    forall r | r in first && Books(r) ensures (r.proposal.date.value, r.proposal.amount.value) in base2.weak {
      var i :| 0 <= i < |bookings| && bookings[i] == Booking(c, r.proposal);
      assert more[i] in more;
    }
    InStepStart(base1, base2);
    SecondImport(c, proposals, base1, base2, base1, base2);
  }

  lemma InStepStart(base1: Index, base2: Index)
    requires Grown(base1, base2)
    ensures InStep(base1, base2, base1, base2)
  {
  }

  // ---- within one batch -------------------------------------------------------------------------------

  predicate SameEntry(c: Context, a: Proposal, b: Proposal) {
    a.date == b.date && a.amount == b.amount && c.text.norm(a.rawPlace) == c.text.norm(b.rawPlace) != ""
  }

  lemma {:induction false} MarkStays(c: Context, proposals: seq<Proposal>, index: Index, p: Proposal)
    requires HasFacts(c, p) && (p.date.value, p.amount.value, c.text.norm(p.rawPlace)) in index.strong
    ensures forall i :: 0 <= i < |proposals| && SameEntry(c, p, proposals[i]) ==>
      var q := ReconcileFrom(c, proposals, index)[i].proposal; !(q.disposition == Candidate && q.selected)
    decreases |proposals|
  {
    if proposals == [] {
    } else {
      var q := proposals[0];
      MarkStays(c, proposals[1..], IndexAfter(c, q, index), p);
      if SameEntry(c, p, q) { assert c.text.norm(q.rawPlace) in CandidateRefs(c.text, q.rawPlace); }
    }
  }

  /** Of several captures of one entry in a batch, at most one stays a selected candidate. */
  lemma {:induction false} BatchBooksOnce(c: Context, proposals: seq<Proposal>, index: Index, i: nat, j: nat)
    requires i < j < |proposals| && Complete(c, proposals[i]) && SameEntry(c, proposals[i], proposals[j])
    ensures var out := ReconcileFrom(c, proposals, index);
            !(out[i].proposal.disposition == Candidate && out[i].proposal.selected &&
              out[j].proposal.disposition == Candidate && out[j].proposal.selected)
    decreases |proposals|
  {
    var p := proposals[0];
    if i == 0 {
      var first := ReconcileOne(c, p, index).proposal;
      if first.disposition == Candidate && first.selected {
        MarkStays(c, proposals[1..], IndexAfter(c, p, index), p);
        assert proposals[1..][j - 1] == proposals[j];
      }
    } else {
      BatchBooksOnce(c, proposals[1..], IndexAfter(c, p, index), i - 1, j - 1);
    }
  }

  // ---- from extraction to booking ---------------------------------------------------------------------

  lemma ProposedIsComplete(
    c: Context, row: Row, currency: string, accepted: Option<Relation>, invalid: bool, shape: bool,
    converted: Option<int>)
    requires converted.Some? ==> converted.value > 0
    ensures Complete(c, Propose(c.facts, row, currency, accepted, invalid, shape, converted))
  {
  }

  /** What extraction proposes as a candidate has a date, a positive amount, a type and supported relations. */
  lemma CandidatesAreComplete(c: Context, rows: seq<Row>, currency: string)
    ensures forall p :: p in Map(rows, ProposalOf(c.facts, rows, currency)) ==> Complete(c, p)
  {
    var proposals := Map(rows, ProposalOf(c.facts, rows, currency));
    var converted := Conversions(c.facts, rows, currency, |rows|);
    ConversionsPositive(c.facts, rows, currency, |rows|);
    forall i | 0 <= i < |rows| ensures Complete(c, proposals[i]) {
      var row := rows[i];
      hide Propose, Complete;
      ProposedIsComplete(c, row, currency, if Accepted(c.facts, rows, row) then row.relation
        else None, InvalidTarget(rows, row),
                         ShapeChanging(c.facts, rows, row.rowId), if row.rowId in converted
                           then Some(converted[row.rowId]) else None);
    }
  }

  predicate AllPositive(m: map<string, int>) { forall id :: id in m ==> m[id] > 0 }

  lemma {:induction false} ConversionsPositive(rules: FactRules, rows: seq<Row>, currency: string, n: nat)
    requires n <= |rows|
    ensures AllPositive(Conversions(rules, rows, currency, n))
  {
    if n > 0 { ConversionsPositive(rules, rows, currency, n - 1); }
  }

  /** A screenshot imported twice is booked once: the whole path from extraction to the second review. */
  lemma {:induction false} ExtractionImportedOnce(c: Context, rows: seq<Row>, currency: string, txns: seq<BookedTxn>)
    ensures var proposals := Map(rows, ProposalOf(c.facts, rows, currency));
            var booked := txns + Bookings(c, Reconcile(c, proposals, txns));
            forall r :: r in Reconcile(c, proposals, booked) ==>
              !(r.proposal.disposition == Candidate && r.proposal.selected)
  {
    CandidatesAreComplete(c, rows, currency);
    ReimportSelectsNothing(c, Map(rows, ProposalOf(c.facts, rows, currency)), txns);
  }

  /** A relation a proposal keeps points at another row of the batch and is backed by the facts of both. */
  lemma KeptRelationsAreSupported(rules: FactRules, rows: seq<Row>, currency: string, row: Row)
    requires row in rows
    ensures var p := ProposalOf(rules, rows, currency)(row);
            p.relation.Some? ==>
              row.relation == p.relation && p.relation.value.rowId != row.rowId &&
              exists target :: target in rows && target.rowId == p.relation.value.rowId &&
                RelationSupported(rules, row, target)
  {
    if Accepted(rules, rows, row) { FoundRow(rows, row.relation.value.rowId); }
  }

  lemma {:induction false} FoundRow(rows: seq<Row>, id: string)
    ensures FindRow(rows, id).Some? ==> FindRow(rows, id).value in rows && FindRow(rows, id).value.rowId == id
  {
    if rows != [] { FoundRow(rows[..|rows| - 1], id); }
  }
}
