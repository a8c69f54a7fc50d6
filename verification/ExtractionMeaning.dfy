// What becomes of every extracted row, stated on the rows of the batch: its type, whether it is a
// candidate and selected, which relation it keeps, what it is converted to and what is flagged.
module ExtractionMeaning {
  import opened Sequences
  import opened ImportRows
  import opened ImportRecognition
  import opened ImportReconcile

  // ---- the kind of a row --------------------------------------------------------------------------

  predicate MoneyOutKind(k: SemanticKind) { k in {CardPurchase, CashWithdrawal, Fee, OutgoingTransfer} }

  predicate RefundKind(k: SemanticKind) { k in {MerchantRefund, Chargeback} }

  predicate MoneyInKind(k: SemanticKind) {
    k in {Interest, Salary, CashbackOrReward, CashDeposit, IncomingTransfer, AccountTopup}
  }

  /** Money between own accounts or currencies: the direction decides. */
  predicate EitherWayKind(k: SemanticKind) { k in {InternalTransfer, FxConversion} }

  predicate IsExpense(row: Row) {
    MoneyOutKind(row.semanticKind) || RefundKind(row.semanticKind) ||
    (EitherWayKind(row.semanticKind) && row.direction == Debit)
  }

  predicate IsIncome(row: Row) {
    MoneyInKind(row.semanticKind) || (EitherWayKind(row.semanticKind) && row.direction == Credit)
  }

  predicate TypeStands(row: Row, kind: Option<EntryType>, isRefund: bool) {
    && (kind == Some(ExpenseEntry) <==> IsExpense(row)) && (kind == Some(IncomeEntry) <==> IsIncome(row))
    && kind != Some(TransferEntry) && (isRefund <==> RefundKind(row.semanticKind))
  }

  /** The direction read is not the one its kind has. */
  predicate AgainstKind(row: Row) {
    (MoneyOutKind(row.semanticKind) && row.direction == Credit) ||
    ((MoneyInKind(row.semanticKind) || RefundKind(row.semanticKind)) && row.direction == Debit)
  }

  // ---- relations ----------------------------------------------------------------------------------

  predicate Names(row: Row, target: Row) {
    row.relation.Some? && target.rowId == row.relation.value.rowId && target.rowId != row.rowId
  }

  predicate Dangling(rows: seq<Row>, row: Row) { row.relation.Some? && forall t :: t in rows ==> !Names(row, t) }

  predicate Opposite(a: Direction, b: Direction) { (a == Credit && b == Debit) || (a == Debit && b == Credit) }

  predicate SameFigure(a: Row, b: Row) { a.amount == b.amount && a.currency == b.currency }

  predicate Positive(r: Row) { r.amount.Some? && r.amount.value > 0 }

  predicate Dated(rules: FactRules, r: Row) { r.date.Some? && rules.calendar(r.date.value) }

  predicate BetweenAccounts(k: SemanticKind) {
    k in {IncomingTransfer, OutgoingTransfer, AccountTopup, InternalTransfer}
  }

  /** What the facts of both rows must show for a claimed relation. */
  predicate Borne(rules: FactRules, kind: RelationKind, row: Row, t: Row) {
    && (kind == DuplicateOf ==>
      Dated(rules, row) && row.date == t.date && Positive(row) && row.currency.Some? && SameFigure(row, t) &&
      !Opposite(row.direction, t.direction))
    && (kind == RefundOf ==>
      RefundKind(row.semanticKind) && t.rowRole == FinancialEvent && SameFigure(row, t) && row.direction == Credit &&
      t.direction == Debit)
    && (kind == PendingVersionOf ==>
      row.postingStatus == Pending && t.postingStatus == Posted && Dated(rules, row) && row.date == t.date &&
      Positive(row) && row.currency.Some? && SameFigure(row, t) && row.direction == t.direction != UnknownDirection)
    && (kind == CounterpartOf ==>
      BetweenAccounts(row.semanticKind) && BetweenAccounts(t.semanticKind) && SameFigure(row, t) &&
      Opposite(row.direction, t.direction))
    && (kind == FxFor ==>
      row.rowRole == SupportingDetail && row.semanticKind == FxConversion && t.rowRole == FinancialEvent &&
      t.semanticKind != FxConversion && Positive(row) && Positive(t) && row.currency.Some? && t.currency.Some? &&
      row.currency != t.currency)
    && (kind == FeeFor ==> row.semanticKind == Fee && t.rowRole == FinancialEvent && t.semanticKind != Fee)
    && (kind == ContinuationOf ==> row.rowRole == SupportingDetail && t.rowRole != UiMetadata)
  }

  predicate Keeps(rules: FactRules, rows: seq<Row>, row: Row) {
    exists t :: t in rows && Names(row, t) && Borne(rules, row.relation.value.kind, row, t)
  }

  /** A kept relation changes what is booked for its row, and for its target unless it repeats it. */
  predicate Reshapes(rules: FactRules, rows: seq<Row>, row: Row) {
    exists other :: other in rows && Keeps(rules, rows, other) &&
      (other.rowId == row.rowId ||
       (other.relation.value.kind != DuplicateOf && other.relation.value.rowId == row.rowId))
  }

  // ---- conversions --------------------------------------------------------------------------------

  predicate ExchangeLine(r: Row) { r.rowRole == SupportingDetail && r.semanticKind == FxConversion }

  /** The row and the one it names are an exchange line and the event, either way round. */
  predicate Exchanges(rules: FactRules, currency: string, row: Row, t: Row, event: Row, figure: int) {
    if ExchangeLine(row)
    then t == event && rules.printedAmount(row.rawTextLines, currency) == Some(figure)
    else ExchangeLine(t) && row == event && rules.printedAmount(t.rawTextLines, currency) == Some(figure)
  }

  /** Row `k` converts an event in another currency to the figure printed on the exchange line. */
  predicate Converts(rules: FactRules, rows: seq<Row>, currency: string, k: nat, event: Row, figure: int) {
    && k < |rows| && rows[k].relation.Some? && rows[k].relation.value.kind == FxFor
    && event.rowRole == FinancialEvent && event.currency.Some? && event.currency.value != currency && Positive(event)
    && figure > 0
    && exists t ::
      t in rows && t.rowId == rows[k].relation.value.rowId && Exchanges(rules, currency, rows[k], t, event, figure)
  }

  ghost predicate LastConverts(
    rules: FactRules, rows: seq<Row>, currency: string, n: nat, k: nat, event: Row, figure: int)
  {
    k < n && Converts(rules, rows, currency, k, event, figure) &&
    forall later: nat, other :: k < later < n ==> !Converts(rules, rows, currency, later, event, other)
  }

  /** The last exchange line of an event decides. */
  ghost predicate ConvertedTo(rules: FactRules, rows: seq<Row>, currency: string, event: Row, figure: int) {
    exists k: nat :: LastConverts(rules, rows, currency, |rows|, k, event, figure)
  }

  ghost predicate Unconverted(rules: FactRules, rows: seq<Row>, currency: string, event: Row) {
    forall k: nat, figure :: !Converts(rules, rows, currency, k, event, figure)
  }

  // ---- proposals ----------------------------------------------------------------------------------

  predicate CurrencyKnown(rules: FactRules, row: Row, currency: string) {
    row.currency.Some? && rules.supported(row.currency.value) && rules.supported(currency)
  }

  predicate FactsKnown(rules: FactRules, row: Row, currency: string) {
    Dated(rules, row) && Positive(row) && CurrencyKnown(rules, row, currency)
  }

  /** An event that moved money, or may yet. */
  predicate Bookable(row: Row) { row.rowRole == FinancialEvent && row.postingStatus != DeclinedPosting }

  /** Each reason to review a bookable row, and when it is given. */
  ghost predicate ReasonsStand(
    rules: FactRules, rows: seq<Row>, currency: string, row: Row, converted: bool, reasons: set<ReviewReason>)
  {
    && (UnsupportedCurrency in reasons <==> !CurrencyKnown(rules, row, currency))
    && (MissingFact in reasons <==> CurrencyKnown(rules, row, currency) && !(Dated(rules, row) && Positive(row)))
    && (InvalidRelation in reasons <==> Dangling(rows, row))
    && (RelationChangesLedgerShape in reasons <==> Reshapes(rules, rows, row))
    && (UnknownKindReason in reasons <==>
      row.semanticKind == UnknownKind || (FactsKnown(rules, row, currency) && !IsExpense(row) && !IsIncome(row)))
    && (InconsistentDirection in reasons <==> AgainstKind(row))
    && (FxConverted in reasons <==> converted)
    && (PossibleTransfer in reasons <==> row.semanticKind == IncomingTransfer || row.semanticKind == AccountTopup)
    && (UnknownTransferEndpoint in reasons <==> row.semanticKind == InternalTransfer)
    && (UnknownPostingStatus in reasons <==> row.postingStatus == UnknownPosting)
    && (InferredDate in reasons <==> row.dateInferred)
    && (SuspiciousText in reasons <==> row.suspiciousText)
    && PendingOrDeclined !in reasons
  }

  ghost predicate RelationStands(rules: FactRules, rows: seq<Row>, row: Row, relation: Option<Relation>) {
    relation == if Keeps(rules, rows, row) then row.relation else None
  }

  /** The facts as read, and none of what a person or the history adds later. */
  predicate AsRead(row: Row, p: Proposal) {
    && p.rowId == row.rowId && p.date == row.date && p.semanticKind == row.semanticKind
    && p.rawPlace == JoinLines(row.rawTextLines)
    && p.toAccountId == None && p.envelopeId == None && p.categoryId == None
  }

  /** A candidate has its facts, a type and no dangling relation; it is selected unless its text or direction is odd. */
  ghost predicate BookableStands(rules: FactRules, rows: seq<Row>, currency: string, row: Row, p: Proposal) {
    && p.disposition == (
      if FactsKnown(rules, row, currency) && !Dangling(rows, row) && (IsExpense(row) || IsIncome(row))
      then Candidate else Unresolved)
    && (p.selected <==> !row.suspiciousText && !AgainstKind(row))
    && (if Dangling(rows, row) then p.kind == None && (p.isRefund <==> RefundKind(row.semanticKind))
        else TypeStands(row, p.kind, p.isRefund))
    && ((Unconverted(rules, rows, currency, row) && p.amount == row.amount && p.currency == row.currency &&
         ReasonsStand(rules, rows, currency, row, false, p.reviewReasons)) ||
        (p.amount.Some? && ConvertedTo(rules, rows, currency, row, p.amount.value) && p.currency == Some(currency) &&
         ReasonsStand(rules, rows, currency, row, true, p.reviewReasons)))
  }

  ghost predicate ProposalStands(rules: FactRules, rows: seq<Row>, currency: string, row: Row, p: Proposal) {
    && AsRead(row, p) && RelationStands(rules, rows, row, p.relation)
    && (row.rowRole != FinancialEvent ==>
      p.disposition == Supporting && p.kind == None && !p.isRefund && p.reviewReasons == {})
    && (row.rowRole == FinancialEvent && row.postingStatus == DeclinedPosting ==>
      p.disposition == Declined && TypeStands(row, p.kind, p.isRefund) && p.reviewReasons == {PendingOrDeclined})
    && (!Bookable(row) ==> !p.selected && p.amount == row.amount && p.currency == row.currency)
    && (Bookable(row) ==> BookableStands(rules, rows, currency, row, p))
  }

  /** The visible text is the lines of the row, one below the other. */
  lemma {:induction false} LinesJoined(lines: seq<string>, line: string)
    ensures JoinLines([]) == ""
    ensures JoinLines(lines + [line]) == if lines == [] then line else JoinLines(lines) + "\n" + line
  {
    if |lines| >= 1 {
      assert (lines + [line])[1..] == lines[1..] + [line];
      LinesJoined(lines[1..], line);
      if |lines| >= 2 {
        assert lines[0] + "\n" + (JoinLines(lines[1..]) + "\n" + line) ==
          lines[0] + "\n" + JoinLines(lines[1..]) + "\n" + line;
      }
    }
  }

  // ---- the rows are told apart --------------------------------------------------------------------

  lemma OneRow(rows: seq<Row>, a: Row, b: Row)
    requires DistinctRows(rows) && a in rows && b in rows && a.rowId == b.rowId
    ensures a == b
  {
    var i :| 0 <= i < |rows| && rows[i] == a;
    var j :| 0 <= j < |rows| && rows[j] == b;
  }

  lemma {:induction false} NoRow(rows: seq<Row>, id: string)
    ensures FindRow(rows, id).None? <==> forall t :: t in rows ==> t.rowId != id
  {
    if rows != [] {
      NoRow(rows[..|rows| - 1], id);
      LastSplit(rows);
    }
  }

  /** Looking a row up by its id finds it, and nothing else. */
  lemma Found(rows: seq<Row>, id: string, t: Row)
    requires DistinctRows(rows)
    ensures FindRow(rows, id) == Some(t) <==> t in rows && t.rowId == id
  {
    NoRow(rows, id);
    FoundRow(rows, id);
    hide FindRow;
    if FindRow(rows, id).Some? && t in rows && t.rowId == id { OneRow(rows, FindRow(rows, id).value, t); }
  }

  lemma MappingMeans(row: Row)
    ensures var m := MappingFor(row.semanticKind, row.direction);
      && TypeStands(row, m.kind, m.isRefund)
      && (m.kind.None? <==> !IsExpense(row) && !IsIncome(row))
      && (m.expected.Some? && row.direction != UnknownDirection && row.direction != m.expected.value <==>
        AgainstKind(row))
      && (PossibleTransfer in m.reasons <==> row.semanticKind == IncomingTransfer || row.semanticKind == AccountTopup)
      && (UnknownTransferEndpoint in m.reasons <==> row.semanticKind == InternalTransfer)
      && (UnknownKindReason in m.reasons <==> row.semanticKind == UnknownKind)
      && m.reasons <= {PossibleTransfer, UnknownTransferEndpoint, UnknownKindReason}
  {
  }

  lemma BorneMeans(rules: FactRules, row: Row, t: Row)
    requires row.relation.Some?
    ensures RelationSupported(rules, row, t) <==> Borne(rules, row.relation.value.kind, row, t)
  {
  }

  lemma RelationsMean(rules: FactRules, rows: seq<Row>, row: Row)
    requires DistinctRows(rows)
    ensures InvalidTarget(rows, row) <==> Dangling(rows, row)
    ensures Accepted(rules, rows, row) <==> Keeps(rules, rows, row)
  {
    if row.relation.Some? {
      var id := row.relation.value.rowId;
      forall t ensures FindRow(rows, id) == Some(t) <==> t in rows && t.rowId == id { Found(rows, id, t); }
      forall t ensures RelationSupported(rules, row, t) <==> Borne(rules, row.relation.value.kind, row, t) {
        BorneMeans(rules, row, t);
      }
      hide RelationSupported, Borne, FindRow, DistinctRows;
      if FindRow(rows, id).Some? { assert FindRow(rows, id) == Some(FindRow(rows, id).value); }
    }
  }

  lemma ShapesMean(rules: FactRules, rows: seq<Row>, row: Row)
    requires DistinctRows(rows)
    ensures ShapeChanging(rules, rows, row.rowId) <==> Reshapes(rules, rows, row)
  {
    forall other ensures Accepted(rules, rows, other) <==> Keeps(rules, rows, other) {
      RelationsMean(rules, rows, other);
    }
    forall other | Keeps(rules, rows, other) ensures other.relation.Some? {}
    hide Accepted, Keeps, DistinctRows;
    if Reshapes(rules, rows, row) {
      var other :| other in rows && Keeps(rules, rows, other) && (other.rowId == row.rowId ||
        (other.relation.value.kind != DuplicateOf && other.relation.value.rowId == row.rowId));
      assert ChangesShape(rules, rows, other, row.rowId);
    }
  }

  // ---- conversions and the whole ------------------------------------------------------------------

  lemma ConversionMeans(rules: FactRules, rows: seq<Row>, currency: string, k: nat, event: Row, figure: int)
    requires DistinctRows(rows) && k < |rows| && event in rows
    ensures Conversion(rules, rows, currency, rows[k]) == Some((event.rowId, figure)) <==>
      Converts(rules, rows, currency, k, event, figure)
  {
    var row := rows[k];
    if row.relation.Some? {
      var id := row.relation.value.rowId;
      forall t ensures FindRow(rows, id) == Some(t) <==> t in rows && t.rowId == id { Found(rows, id, t); }
      forall t | t in rows && t.rowId == event.rowId ensures t == event { OneRow(rows, t, event); }
      assert row in rows;
      hide FindRow, DistinctRows;
      if FindRow(rows, id).Some? {
        var t := FindRow(rows, id).value;
        assert FindRow(rows, id) == Some(t);
        assert Converts(rules, rows, currency, k, event, figure) <==>
          row.relation.value.kind == FxFor && event.rowRole == FinancialEvent && event.currency.Some? &&
          event.currency.value != currency && Positive(event) && figure > 0 &&
          Exchanges(rules, currency, row, t, event, figure);
      }
    }
  }

  /** What row `k` alone says about an event. */
  lemma ConversionAt(rules: FactRules, rows: seq<Row>, currency: string, k: nat, event: Row)
    requires DistinctRows(rows) && k < |rows| && event in rows
    ensures var c := Conversion(rules, rows, currency, rows[k]);
      if c.Some? && c.value.0 == event.rowId then Converts(rules, rows, currency, k, event, c.value.1)
      else forall figure :: !Converts(rules, rows, currency, k, event, figure)
  {
    var c := Conversion(rules, rows, currency, rows[k]);
    hide Converts, Conversion, DistinctRows;
    if c.Some? { ConversionMeans(rules, rows, currency, k, event, c.value.1); }
    forall figure | Converts(rules, rows, currency, k, event, figure) ensures c == Some((event.rowId, figure)) {
      ConversionMeans(rules, rows, currency, k, event, figure);
    }
  }

  lemma LastStays(rules: FactRules, rows: seq<Row>, currency: string, n: nat, k: nat, event: Row, figure: int)
    requires LastConverts(rules, rows, currency, n, k, event, figure)
    requires forall other :: !Converts(rules, rows, currency, n, event, other)
    ensures LastConverts(rules, rows, currency, n + 1, k, event, figure)
  {
    hide Converts;
  }

  lemma LastIsNew(rules: FactRules, rows: seq<Row>, currency: string, n: nat, event: Row, figure: int)
    requires Converts(rules, rows, currency, n, event, figure)
    ensures LastConverts(rules, rows, currency, n + 1, n, event, figure)
  {
    hide Converts;
  }

  ghost predicate ConvertedUpTo(
    rules: FactRules, rows: seq<Row>, currency: string, n: nat, event: Row, converted: map<string, int>)
  {
    if event.rowId in converted
    then exists k: nat :: LastConverts(rules, rows, currency, n, k, event, converted[event.rowId])
    else forall k: nat, figure :: k < n ==> !Converts(rules, rows, currency, k, event, figure)
  }

  lemma {:induction false} ConversionsMean(rules: FactRules, rows: seq<Row>, currency: string, n: nat, event: Row)
    requires DistinctRows(rows) && n <= |rows| && event in rows
    ensures ConvertedUpTo(rules, rows, currency, n, event, Conversions(rules, rows, currency, n))
  {
    hide Converts, Conversion, DistinctRows, LastConverts;
    if n > 0 {
      ConversionsMean(rules, rows, currency, n - 1, event);
      ConversionAt(rules, rows, currency, n - 1, event);
      var c, before := Conversion(rules, rows, currency, rows[n - 1]), Conversions(rules, rows, currency, n - 1);
      if c.Some? && c.value.0 == event.rowId {
        LastIsNew(rules, rows, currency, n - 1, event, c.value.1);
      } else if event.rowId in before {
        var k: nat :| LastConverts(rules, rows, currency, n - 1, k, event, before[event.rowId]);
        LastStays(rules, rows, currency, n - 1, k, event, before[event.rowId]);
      }
    }
  }

  lemma ProposalOfIs(rules: FactRules, rows: seq<Row>, currency: string, row: Row)
    ensures var converted := Conversions(rules, rows, currency, |rows|);
      ProposalOf(rules, rows, currency)(row) == Propose(
        rules, row, currency, if Accepted(rules, rows, row) then row.relation else None, InvalidTarget(rows, row),
        ShapeChanging(rules, rows, row.rowId), if row.rowId in converted then Some(converted[row.rowId]) else None)
  {
    hide Accepted, InvalidTarget, ShapeChanging, Propose, Conversions;
  }

  lemma FactsMean(rules: FactRules, row: Row, currency: string)
    ensures ValidFacts(rules, row, currency) <==> FactsKnown(rules, row, currency)
    ensures row.currency.None? || !rules.supported(row.currency.value) || !rules.supported(currency) <==>
      !CurrencyKnown(rules, row, currency)
  {
  }

  /** A reason stands in a set built flag by flag exactly when its own flag is up. */
  predicate Flagged(
    x: ReviewReason, kind: set<ReviewReason>, currency: bool, missing: bool, invalid: bool, shape: bool, unknown: bool,
    inconsistent: bool, converted: bool, posting: bool, inferred: bool, suspicious: bool)
  {
    x in kind ||
    match x
    case UnsupportedCurrency => currency
    case MissingFact => missing
    case InvalidRelation => invalid
    case RelationChangesLedgerShape => shape
    case UnknownKindReason => unknown
    case InconsistentDirection => inconsistent
    case FxConverted => converted
    case UnknownPostingStatus => posting
    case InferredDate => inferred
    case SuspiciousText => suspicious
    case _ => false
  }

  function Flag(up: bool, reason: ReviewReason): set<ReviewReason> { if up then {reason} else {} }

  lemma FlagHas(x: ReviewReason, up: bool, reason: ReviewReason)
    ensures x in Flag(up, reason) <==> up && x == reason
  {
  }

  /** The flags raised one after another. */
  function Raised(
    kind: set<ReviewReason>, valid: bool, currency: bool, invalid: bool, shape: bool, unknown: bool,
    inconsistent: bool, converted: bool, posting: bool, inferred: bool, suspicious: bool): set<ReviewReason>
  {
    kind + (if !valid then (if currency then {UnsupportedCurrency} else {MissingFact}) else {})
    + Flag(invalid, InvalidRelation) + Flag(shape, RelationChangesLedgerShape) + Flag(unknown, UnknownKindReason)
    + Flag(inconsistent, InconsistentDirection) + Flag(converted, FxConverted) + Flag(posting, UnknownPostingStatus)
    + Flag(inferred, InferredDate) + Flag(suspicious, SuspiciousText)
  }

  lemma RaisedHas(
    x: ReviewReason, kind: set<ReviewReason>, valid: bool, currency: bool, invalid: bool, shape: bool, unknown: bool,
    inconsistent: bool, converted: bool, posting: bool, inferred: bool, suspicious: bool)
    ensures
      x in Raised(kind, valid, currency, invalid, shape, unknown, inconsistent, converted, posting, inferred,
        suspicious)
      <==> Flagged(x, kind, !valid && currency, !valid && !currency, invalid, shape, unknown, inconsistent, converted,
                   posting, inferred, suspicious)
  {
    hide Flag;
    FlagHas(x, invalid, InvalidRelation);
    FlagHas(x, shape, RelationChangesLedgerShape);
    FlagHas(x, unknown, UnknownKindReason);
    FlagHas(x, inconsistent, InconsistentDirection);
    FlagHas(x, converted, FxConverted);
    FlagHas(x, posting, UnknownPostingStatus);
    FlagHas(x, inferred, InferredDate);
    FlagHas(x, suspicious, SuspiciousText);
  }

  lemma ReasonsRaised(
    rules: FactRules, currency: string, row: Row, accepted: Option<Relation>, invalid: bool, shape: bool,
    converted: Option<int>)
    requires Bookable(row)
    ensures var m, valid := MappingFor(row.semanticKind, row.direction), ValidFacts(rules, row, currency);
      Propose(rules, row, currency, accepted, invalid, shape, converted).reviewReasons ==
      Raised(m.reasons, valid, !CurrencyKnown(rules, row, currency), invalid, shape, valid && m.kind.None?,
             AgainstKind(row), converted.Some?, row.postingStatus == UnknownPosting, row.dateInferred,
             row.suspiciousText)
  {
    MappingMeans(row);
    FactsMean(rules, row, currency);
    hide MappingFor, ValidFacts, CurrencyKnown, AgainstKind, ProposalFrom, TypeStands, FactsKnown, IsExpense, IsIncome;
  }

  lemma ReasonGiven(
    rules: FactRules, currency: string, row: Row, accepted: Option<Relation>, invalid: bool, shape: bool,
    converted: Option<int>, x: ReviewReason)
    requires Bookable(row)
    ensures var m, valid := MappingFor(row.semanticKind, row.direction), ValidFacts(rules, row, currency);
      x in Propose(rules, row, currency, accepted, invalid, shape, converted).reviewReasons <==>
      Flagged(
        x, m.reasons, !valid && !CurrencyKnown(rules, row, currency), !valid && CurrencyKnown(rules, row, currency),
        invalid, shape, valid && m.kind.None?, AgainstKind(row), converted.Some?, row.postingStatus == UnknownPosting,
        row.dateInferred, row.suspiciousText)
  {
    hide *;
    var m, valid := MappingFor(row.semanticKind, row.direction), ValidFacts(rules, row, currency);
    ReasonsRaised(rules, currency, row, accepted, invalid, shape, converted);
    RaisedHas(x, m.reasons, valid, !CurrencyKnown(rules, row, currency), invalid, shape, valid && m.kind.None?,
      AgainstKind(row), converted.Some?, row.postingStatus == UnknownPosting, row.dateInferred, row.suspiciousText);
  }

  lemma BookableReasons(
    rules: FactRules, rows: seq<Row>, currency: string, row: Row, accepted: Option<Relation>, invalid: bool,
    shape: bool, converted: Option<int>)
    requires Bookable(row) && (invalid <==> Dangling(rows, row)) && (shape <==> Reshapes(rules, rows, row))
    ensures ReasonsStand(rules, rows, currency, row, converted.Some?,
      Propose(rules, row, currency, accepted, invalid, shape, converted).reviewReasons)
  {
    hide Propose, MappingFor, Dangling, Reshapes, ValidFacts, CurrencyKnown, AgainstKind, IsExpense, IsIncome, Dated,
      Positive, TypeStands;
    MappingMeans(row);
    FactsMean(rules, row, currency);
    ReasonGiven(rules, currency, row, accepted, invalid, shape, converted, UnsupportedCurrency);
    ReasonGiven(rules, currency, row, accepted, invalid, shape, converted, MissingFact);
    ReasonGiven(rules, currency, row, accepted, invalid, shape, converted, InvalidRelation);
    ReasonGiven(rules, currency, row, accepted, invalid, shape, converted, RelationChangesLedgerShape);
    ReasonGiven(rules, currency, row, accepted, invalid, shape, converted, UnknownKindReason);
    ReasonGiven(rules, currency, row, accepted, invalid, shape, converted, InconsistentDirection);
    ReasonGiven(rules, currency, row, accepted, invalid, shape, converted, FxConverted);
    ReasonGiven(rules, currency, row, accepted, invalid, shape, converted, PossibleTransfer);
    ReasonGiven(rules, currency, row, accepted, invalid, shape, converted, UnknownTransferEndpoint);
    ReasonGiven(rules, currency, row, accepted, invalid, shape, converted, UnknownPostingStatus);
    ReasonGiven(rules, currency, row, accepted, invalid, shape, converted, InferredDate);
    ReasonGiven(rules, currency, row, accepted, invalid, shape, converted, SuspiciousText);
    ReasonGiven(rules, currency, row, accepted, invalid, shape, converted, PendingOrDeclined);
  }

  lemma BookableProposal(
    rules: FactRules, rows: seq<Row>, currency: string, row: Row, accepted: Option<Relation>, invalid: bool,
    shape: bool, converted: Option<int>)
    requires Bookable(row) && (invalid <==> Dangling(rows, row)) && (shape <==> Reshapes(rules, rows, row))
    requires if converted.Some? then ConvertedTo(rules, rows, currency, row, converted.value)
      else Unconverted(rules, rows, currency, row)
    ensures BookableStands(rules, rows, currency, row,
      Propose(rules, row, currency, accepted, invalid, shape, converted))
  {
    BookableReasons(rules, rows, currency, row, accepted, invalid, shape, converted);
    MappingMeans(row);
    FactsMean(rules, row, currency);
    hide MappingFor, Dangling, Reshapes, ConvertedTo, Unconverted, ValidFacts, FactsKnown, CurrencyKnown, AgainstKind,
      IsExpense, IsIncome, RefundKind, JoinLines, ReasonsStand;
  }

  lemma OtherProposal(
    rules: FactRules, row: Row, currency: string, accepted: Option<Relation>, invalid: bool, shape: bool,
    converted: Option<int>)
    ensures var p := Propose(rules, row, currency, accepted, invalid, shape, converted);
      && AsRead(row, p) && p.relation == accepted
      && (row.rowRole != FinancialEvent ==>
        p.disposition == Supporting && p.kind == None && !p.isRefund && p.reviewReasons == {})
      && (row.rowRole == FinancialEvent && row.postingStatus == DeclinedPosting ==>
        p.disposition == Declined && TypeStands(row, p.kind, p.isRefund) && p.reviewReasons == {PendingOrDeclined})
      && (!Bookable(row) ==> !p.selected && p.amount == row.amount && p.currency == row.currency)
  {
    MappingMeans(row);
    hide MappingFor, ValidFacts, TypeStands, JoinLines, AgainstKind, IsExpense, IsIncome;
  }

  lemma ProposeStands(
    rules: FactRules, rows: seq<Row>, currency: string, row: Row, accepted: Option<Relation>, invalid: bool,
    shape: bool, converted: Option<int>)
    requires accepted == (if Keeps(rules, rows, row) then row.relation else None)
    requires (invalid <==> Dangling(rows, row)) && (shape <==> Reshapes(rules, rows, row))
    requires if converted.Some? then ConvertedTo(rules, rows, currency, row, converted.value)
      else Unconverted(rules, rows, currency, row)
    ensures ProposalStands(rules, rows, currency, row,
      Propose(rules, row, currency, accepted, invalid, shape, converted))
  {
    hide Propose, Dangling, Keeps, Reshapes, ConvertedTo, Unconverted, TypeStands, AsRead, BookableStands, Bookable;
    if Bookable(row) { BookableProposal(rules, rows, currency, row, accepted, invalid, shape, converted); }
    OtherProposal(rules, row, currency, accepted, invalid, shape, converted);
  }

  /** Every proposal of a batch with distinct row ids is what is said above of its row. */
  lemma ExtractionMeans(rules: FactRules, rows: seq<Row>, currency: string, i: nat)
    requires DistinctRows(rows) && i < |rows|
    ensures ProposalStands(rules, rows, currency, rows[i], Map(rows, ProposalOf(rules, rows, currency))[i])
  {
    hide *;
    var row := rows[i];
    assert row in rows;
    RelationsMean(rules, rows, row);
    ShapesMean(rules, rows, row);
    ConversionStands(rules, rows, currency, row);
    ProposalOfIs(rules, rows, currency, row);
    var converted := Conversions(rules, rows, currency, |rows|);
    ProposeStands(rules, rows, currency, row, if Accepted(rules, rows, row) then row.relation else None,
      InvalidTarget(rows, row), ShapeChanging(rules, rows, row.rowId),
      if row.rowId in converted then Some(converted[row.rowId]) else None);
    MappedAt(rows, ProposalOf(rules, rows, currency), i);
  }

  lemma MappedAt<A, B>(s: seq<A>, f: A -> B, i: nat)
    requires i < |s|
    ensures |Map(s, f)| == |s| && Map(s, f)[i] == f(s[i])
  {
  }

  lemma ConversionStands(rules: FactRules, rows: seq<Row>, currency: string, row: Row)
    requires DistinctRows(rows) && row in rows
    ensures var converted := Conversions(rules, rows, currency, |rows|);
      if row.rowId in converted then ConvertedTo(rules, rows, currency, row, converted[row.rowId])
      else Unconverted(rules, rows, currency, row)
  {
    ConversionsMean(rules, rows, currency, |rows|, row);
    hide Conversions, LastConverts, DistinctRows;
    forall k: nat, figure | Converts(rules, rows, currency, k, row, figure) ensures k < |rows| {}
    hide Converts;
  }
}
