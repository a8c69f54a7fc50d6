/** From extracted rows to proposals, and from proposals to a selection that does not book anything twice. */
module ImportRecognition {
  import opened Sequences
  import opened ImportRows

  /** Calendar dates, the currency list and amounts printed in text are parameters. */
  datatype FactRules = FactRules(
    calendar: string -> bool, supported: string -> bool, printedAmount: (seq<string>, string) -> Option<int>)

  predicate IsCalendarDate(rules: FactRules, date: Option<string>) { date.Some? && rules.calendar(date.value) }

  // ---- facts ----------------------------------------------------------------------------------------

  predicate SamePostingFacts(a: Row, b: Row) {
    a.date == b.date && a.amount == b.amount && a.currency == b.currency && a.direction == b.direction
  }

  predicate HasComparableFacts(rules: FactRules, r: Row) {
    IsCalendarDate(rules, r.date) && HasPositiveAmount(r.amount) && r.currency.Some? && r.direction != UnknownDirection
  }

  predicate IsTransferKind(k: SemanticKind) {
    k == IncomingTransfer || k == OutgoingTransfer || k == AccountTopup || k == InternalTransfer
  }

  predicate RelationSupported(rules: FactRules, row: Row, target: Row)
    requires row.relation.Some?
  {
    match row.relation.value.kind
    case FxFor =>
      row.rowRole == SupportingDetail && row.semanticKind == FxConversion && target.rowRole == FinancialEvent &&
      target.semanticKind != FxConversion && HasPositiveAmount(row.amount) && HasPositiveAmount(target.amount) &&
      row.currency.Some? && target.currency.Some? && row.currency != target.currency
    case DuplicateOf =>
      IsCalendarDate(rules, row.date) && row.date == target.date && HasPositiveAmount(row.amount) &&
        row.amount == target.amount &&
      row.currency.Some? && row.currency == target.currency &&
      (row.direction == UnknownDirection || target.direction == UnknownDirection || row.direction == target.direction)
    case RefundOf =>
      (row.semanticKind == MerchantRefund || row.semanticKind == Chargeback) && target.rowRole == FinancialEvent &&
      row.currency == target.currency && row.amount == target.amount && row.direction == Credit &&
        target.direction == Debit
    case PendingVersionOf =>
      row.postingStatus == Pending && target.postingStatus == Posted &&
      HasComparableFacts(rules, row) && HasComparableFacts(rules, target) && SamePostingFacts(row, target)
    case FeeFor => row.semanticKind == Fee && target.rowRole == FinancialEvent && target.semanticKind != Fee
    case CounterpartOf =>
      IsTransferKind(row.semanticKind) && IsTransferKind(target.semanticKind) && row.amount == target.amount &&
      row.currency == target.currency &&
      ((row.direction == Credit && target.direction == Debit) || (row.direction == Debit && target.direction == Credit))
    case ContinuationOf => row.rowRole == SupportingDetail && target.rowRole != UiMetadata
  }

  datatype Mapping = Mapping(kind: Option<EntryType>, isRefund: bool, expected: Option<Direction>,
    reasons: set<ReviewReason>)

  function ByDirection(d: Direction): Option<EntryType> {
    match d case Debit => Some(ExpenseEntry) case Credit => Some(IncomeEntry) case UnknownDirection => None
  }

  function MappingFor(kind: SemanticKind, direction: Direction): Mapping {
    match kind
    case CardPurchase => Mapping(Some(ExpenseEntry), false, Some(Debit), {})
    case CashWithdrawal => Mapping(Some(ExpenseEntry), false, Some(Debit), {})
    case Fee => Mapping(Some(ExpenseEntry), false, Some(Debit), {})
    case OutgoingTransfer => Mapping(Some(ExpenseEntry), false, Some(Debit), {})
    case Interest => Mapping(Some(IncomeEntry), false, Some(Credit), {})
    case Salary => Mapping(Some(IncomeEntry), false, Some(Credit), {})
    case CashbackOrReward => Mapping(Some(IncomeEntry), false, Some(Credit), {})
    case CashDeposit => Mapping(Some(IncomeEntry), false, Some(Credit), {})
    case IncomingTransfer => Mapping(Some(IncomeEntry), false, Some(Credit), {PossibleTransfer})
    case AccountTopup => Mapping(Some(IncomeEntry), false, Some(Credit), {PossibleTransfer})
    case MerchantRefund => Mapping(Some(ExpenseEntry), true, Some(Credit), {})
    case Chargeback => Mapping(Some(ExpenseEntry), true, Some(Credit), {})
    case InternalTransfer => Mapping(ByDirection(direction), false, None, {UnknownTransferEndpoint})
    case FxConversion => Mapping(ByDirection(direction), false, None, {})
    case UnknownKind => Mapping(None, false, None, {UnknownKindReason})
  }

  // ---- the specification of the validated proposals ---------------------------------------------------

  function FindRow(rows: seq<Row>, id: string): Option<Row> {
    if rows == [] then None
    else if rows[|rows| - 1].rowId == id then Some(rows[|rows| - 1])
    else FindRow(rows[..|rows| - 1], id)
  }

  predicate InvalidTarget(rows: seq<Row>, row: Row) {
    row.relation.Some? && (FindRow(rows, row.relation.value.rowId).None? || row.relation.value.rowId == row.rowId)
  }

  predicate Accepted(rules: FactRules, rows: seq<Row>, row: Row) {
    row.relation.Some? && !InvalidTarget(rows, row) &&
      RelationSupported(rules, row, FindRow(rows, row.relation.value.rowId).value)
  }

  /** An accepted relation changes the ledger shape of its row and, unless it is a duplicate, of its target. */
  predicate ChangesShape(rules: FactRules, rows: seq<Row>, row: Row, id: string) {
    Accepted(rules, rows, row) && (row.rowId == id ||
      (row.relation.value.kind != DuplicateOf && row.relation.value.rowId == id))
  }

  /** The rows whose ledger shape an accepted relation of `row` changes. */
  function Reshaped(row: Row): set<string>
    requires row.relation.Some?
  {
    {row.rowId} + if row.relation.value.kind != DuplicateOf then {row.relation.value.rowId} else {}
  }

  predicate ShapeChanging(rules: FactRules, rows: seq<Row>, id: string) {
    exists row :: row in rows && ChangesShape(rules, rows, row, id)
  }

  predicate IsFxDetail(row: Option<Row>) {
    row.Some? && row.value.rowRole == SupportingDetail && row.value.semanticKind == FxConversion
  }

  /** The event a foreign-exchange line converts, with the figure printed in the budget's currency. */
  function Conversion(rules: FactRules, rows: seq<Row>, currency: string, row: Row): (r: Option<(string, int)>)
    ensures r.Some? ==> r.value.1 > 0
  {
    if row.relation.None? || row.relation.value.kind != FxFor then None
    else
      var target := FindRow(rows, row.relation.value.rowId);
      var pair := if IsFxDetail(Some(row)) then (Some(row), target) else if IsFxDetail(target) then (target, Some(row))
        else (None, None);
      if pair.0.None? || pair.1.None? then None
      else
        var event := pair.1.value;
        if event.rowRole != FinancialEvent || event.currency.None? || event.currency.value == currency ||
          !HasPositiveAmount(event.amount) then None
        else
          var figure := rules.printedAmount(pair.0.value.rawTextLines, currency);
          if figure.Some? && figure.value > 0 then Some((event.rowId, figure.value)) else None
  }

  /** The last conversion of each event wins. */
  function Conversions(rules: FactRules, rows: seq<Row>, currency: string, n: nat): map<string, int>
    requires n <= |rows|
  {
    if n == 0 then map[]
    else
      var before := Conversions(rules, rows, currency, n - 1);
      var c := Conversion(rules, rows, currency, rows[n - 1]);
      if c.Some? then before[c.value.0 := c.value.1] else before
  }

  function JoinLines(lines: seq<string>): string {
    if lines == [] then "" else if |lines| == 1 then lines[0] else lines[0] + "\n" + JoinLines(lines[1..])
  }

  function ProposalFrom(row: Row): Proposal {
    Proposal(row.rowId, Candidate, row.date, row.amount, row.currency, None, false, None, row.semanticKind,
      row.relation,
             JoinLines(row.rawTextLines), None, None, {}, false)
  }

  predicate ValidFacts(rules: FactRules, row: Row, currency: string) {
    IsCalendarDate(rules, row.date) && HasPositiveAmount(row.amount) && row.currency.Some? &&
    rules.supported(row.currency.value) && rules.supported(currency)
  }

  /** One row's proposal, given what the whole batch says about relations and conversions. */
  function Propose(
    rules: FactRules, row: Row, currency: string, accepted: Option<Relation>, invalid: bool, shape: bool,
    converted: Option<int>): Proposal
  {
    var mapping := MappingFor(row.semanticKind, row.direction);
    if row.rowRole != FinancialEvent then
      ProposalFrom(row).(disposition := Supporting, relation := accepted)
    else if row.postingStatus == DeclinedPosting then
      ProposalFrom(row).(disposition := Declined, kind := mapping.kind, isRefund := mapping.isRefund,
        relation := accepted,
                         reviewReasons := {PendingOrDeclined})
    else
      var valid := ValidFacts(rules, row, currency);
      var currencyProblem := row.currency.None? || !rules.supported(row.currency.value) || !rules.supported(currency);
      var inconsistent := mapping.expected.Some? && row.direction != UnknownDirection &&
        row.direction != mapping.expected.value;
      var reasons :=
        mapping.reasons
        + (if !valid then (if currencyProblem then {UnsupportedCurrency} else {MissingFact}) else {})
        + (if invalid then {InvalidRelation} else {})
        + (if shape then {RelationChangesLedgerShape} else {})
        + (if valid && mapping.kind.None? then {UnknownKindReason} else {})
        + (if inconsistent then {InconsistentDirection} else {})
        + (if converted.Some? then {FxConverted} else {})
        + (if row.postingStatus == UnknownPosting then {UnknownPostingStatus} else {})
        + (if row.dateInferred then {InferredDate} else {})
        + (if row.suspiciousText then {SuspiciousText} else {});
      ProposalFrom(row).(
        disposition := if !valid || invalid || mapping.kind.None? then Unresolved else Candidate,
        kind := if invalid then None else mapping.kind,
        isRefund := mapping.isRefund, relation := accepted, reviewReasons := reasons,
        selected := !row.suspiciousText && !inconsistent,
        amount := if converted.Some? then converted else row.amount,
        currency := if converted.Some? then Some(currency) else row.currency)
  }

  function ProposalOf(rules: FactRules, rows: seq<Row>, currency: string): Row -> Proposal {
    (row: Row) =>
      var conversions := Conversions(rules, rows, currency, |rows|);
      Propose(rules, row, currency, if Accepted(rules, rows, row) then row.relation else None, InvalidTarget(rows, row),
              ShapeChanging(rules, rows, row.rowId), if row.rowId in conversions then Some(conversions[row.rowId])
                else None)
  }

  datatype Validation = DuplicateRowId(rowId: string) | Validated(proposals: seq<Proposal>)

  // ---- the computation --------------------------------------------------------------------------------

  method RowsById(rows: seq<Row>) returns (byId: map<string, Row>, repeated: Option<string>)
    ensures repeated.None? <==> DistinctRows(rows)
    ensures repeated.None? ==> Indexes(byId, rows)
  {
    byId := map[];
    for i := 0 to |rows|
      invariant DistinctRows(rows[..i])
      invariant forall id :: FindRow(rows[..i], id) == if id in byId then Some(byId[id]) else None
      invariant forall id :: id in byId <==> exists j :: 0 <= j < i && rows[j].rowId == id
    {
      assert rows[..i + 1][..i] == rows[..i];
      if rows[i].rowId in byId { return byId, Some(rows[i].rowId); }
      byId := byId[rows[i].rowId := rows[i]];
    }
    assert rows[..|rows|] == rows;
    return byId, None;
  }

  ghost predicate InvalidSoFar(rows: seq<Row>, n: nat, invalid: set<string>)
    requires n <= |rows|
  {
    forall id :: id in invalid <==> exists j :: 0 <= j < n && rows[j].rowId == id && InvalidTarget(rows, rows[j])
  }

  ghost predicate AcceptedSoFar(rules: FactRules, rows: seq<Row>, n: nat, accepted: map<string, Relation>)
    requires n <= |rows|
  {
    && (forall id :: id in accepted <==>
      exists j :: 0 <= j < n && rows[j].rowId == id && Accepted(rules, rows, rows[j]))
    && (forall j :: 0 <= j < n && rows[j].rowId in accepted ==> Some(accepted[rows[j].rowId]) == rows[j].relation)
  }

  ghost predicate ShapeSoFar(rules: FactRules, rows: seq<Row>, n: nat, shape: set<string>)
    requires n <= |rows|
  {
    forall id :: id in shape <==> exists j :: 0 <= j < n && ChangesShape(rules, rows, rows[j], id)
  }

  lemma InvalidStep(rows: seq<Row>, i: nat, invalid: set<string>)
    requires i < |rows| && InvalidSoFar(rows, i, invalid)
    ensures InvalidSoFar(rows, i + 1, if InvalidTarget(rows, rows[i]) then invalid + {rows[i].rowId} else invalid)
  {
    hide InvalidTarget;
  }

  lemma AcceptedStep(rules: FactRules, rows: seq<Row>, i: nat, accepted: map<string, Relation>)
    requires DistinctRows(rows) && i < |rows| && AcceptedSoFar(rules, rows, i, accepted)
    ensures Accepted(rules, rows, rows[i]) ==> AcceptedSoFar(rules, rows, i + 1,
      accepted[rows[i].rowId := rows[i].relation.value])
    ensures !Accepted(rules, rows, rows[i]) ==> AcceptedSoFar(rules, rows, i + 1, accepted)
  {
    if Accepted(rules, rows, rows[i]) {
      hide InvalidTarget, RelationSupported, FindRow;
    } else {
      hide Accepted;
    }
  }

  lemma ShapeStep(rules: FactRules, rows: seq<Row>, i: nat, shape: set<string>)
    requires i < |rows| && ShapeSoFar(rules, rows, i, shape)
    ensures Accepted(rules, rows, rows[i]) ==> ShapeSoFar(rules, rows, i + 1, shape + Reshaped(rows[i]))
    ensures !Accepted(rules, rows, rows[i]) ==> ShapeSoFar(rules, rows, i + 1, shape)
  {
    var added := if Accepted(rules, rows, rows[i]) then Reshaped(rows[i]) else {};
    assert forall id :: id in added <==> ChangesShape(rules, rows, rows[i], id) by { hide FindRow, RelationSupported,
      InvalidTarget; }
    assert shape + {} == shape;
    hide ChangesShape, Accepted;
    assert ShapeSoFar(rules, rows, i + 1, shape + added);
  }

  ghost predicate Indexes(byId: map<string, Row>, rows: seq<Row>) {
    forall id :: FindRow(rows, id) == if id in byId then Some(byId[id]) else None
  }

  lemma LookedUp(rules: FactRules, rows: seq<Row>, byId: map<string, Row>, row: Row)
    requires Indexes(byId, rows)
    ensures InvalidTarget(rows, row) <==>
      row.relation.Some? && (row.relation.value.rowId !in byId || row.relation.value.rowId == row.rowId)
    ensures Accepted(rules, rows, row) <==>
      row.relation.Some? && !InvalidTarget(rows, row) && RelationSupported(rules, row, byId[row.relation.value.rowId])
  {
    hide RelationSupported;
    if row.relation.Some? {
      var id := row.relation.value.rowId;
      assert FindRow(rows, id) == if id in byId then Some(byId[id]) else None;
      hide FindRow;
    }
  }

  lemma SortedAll(rules: FactRules, rows: seq<Row>, invalid: set<string>, accepted: map<string, Relation>, row: Row)
    requires DistinctRows(rows) && row in rows
    requires InvalidSoFar(rows, |rows|, invalid) && AcceptedSoFar(rules, rows, |rows|, accepted)
    ensures row.rowId in invalid <==> InvalidTarget(rows, row)
    ensures (if row.rowId in accepted then Some(accepted[row.rowId]) else None) ==
      (if Accepted(rules, rows, row) then row.relation else None)
  {
    hide InvalidTarget, Accepted;
    var at :| 0 <= at < |rows| && rows[at] == row;
    assert forall j :: 0 <= j < |rows| && rows[j].rowId == row.rowId ==> j == at;
  }

  lemma ShapeAll(rules: FactRules, rows: seq<Row>, shape: set<string>, id: string)
    requires ShapeSoFar(rules, rows, |rows|, shape)
    ensures id in shape <==> ShapeChanging(rules, rows, id)
  {
    hide ChangesShape;
  }

  /** The three tables say of every row what its relation is worth. */
  ghost predicate RelationsSorted(
    rules: FactRules, rows: seq<Row>, invalid: set<string>, accepted: map<string, Relation>, shape: set<string>)
  {
    && (forall row :: row in rows ==>
      (row.rowId in invalid <==> InvalidTarget(rows, row)) &&
      (if row.rowId in accepted then Some(accepted[row.rowId]) else None) ==
        (if Accepted(rules, rows, row) then row.relation else None))
    && (forall id :: id in shape <==> ShapeChanging(rules, rows, id))
  }

  lemma ProposedAsSpecified(
    rules: FactRules, rows: seq<Row>, currency: string, invalid: set<string>, accepted: map<string, Relation>,
    shape: set<string>, row: Row)
    requires RelationsSorted(rules, rows, invalid, accepted, shape) && row in rows
    ensures var converted := Conversions(rules, rows, currency, |rows|);
      ProposalOf(rules, rows, currency)(row) == Propose(
        rules, row, currency, if row.rowId in accepted then Some(accepted[row.rowId]) else None, row.rowId in invalid,
        row.rowId in shape, if row.rowId in converted then Some(converted[row.rowId]) else None)
  {
    hide Accepted, InvalidTarget, ShapeChanging, Propose, Conversions;
  }

  lemma SortingStarts(rules: FactRules, rows: seq<Row>)
    ensures InvalidSoFar(rows, 0, {}) && AcceptedSoFar(rules, rows, 0, map[]) && ShapeSoFar(rules, rows, 0, {})
  {
  }

  lemma SortingDone(
    rules: FactRules, rows: seq<Row>, invalid: set<string>, accepted: map<string, Relation>, shape: set<string>)
    requires DistinctRows(rows)
    requires InvalidSoFar(rows, |rows|, invalid) && AcceptedSoFar(rules, rows, |rows|, accepted) &&
      ShapeSoFar(rules, rows, |rows|, shape)
    ensures RelationsSorted(rules, rows, invalid, accepted, shape)
  {
    hide InvalidSoFar, AcceptedSoFar, ShapeSoFar, InvalidTarget, Accepted, ShapeChanging, DistinctRows;
    forall row | row in rows
      ensures row.rowId in invalid <==> InvalidTarget(rows, row)
      ensures (if row.rowId in accepted then Some(accepted[row.rowId]) else None) ==
        (if Accepted(rules, rows, row) then row.relation else None)
    {
      SortedAll(rules, rows, invalid, accepted, row);
    }
    forall id ensures id in shape <==> ShapeChanging(rules, rows, id) { ShapeAll(rules, rows, shape, id); }
  }

  method SortRelations(rules: FactRules, rows: seq<Row>, byId: map<string, Row>)
    returns (invalid: set<string>, accepted: map<string, Relation>, shape: set<string>)
    requires DistinctRows(rows) && Indexes(byId, rows)
    ensures RelationsSorted(rules, rows, invalid, accepted, shape)
  {
    invalid, accepted, shape := {}, map[], {};
    SortingStarts(rules, rows);
    hide *;
    for i := 0 to |rows|
      invariant InvalidSoFar(rows, i, invalid)
      invariant AcceptedSoFar(rules, rows, i, accepted)
      invariant ShapeSoFar(rules, rows, i, shape)
    {
      var row := rows[i];
      LookedUp(rules, rows, byId, row);
      InvalidStep(rows, i, invalid);
      AcceptedStep(rules, rows, i, accepted);
      ShapeStep(rules, rows, i, shape);
      if row.relation.Some? {
        var relation := row.relation.value;
        if relation.rowId !in byId || relation.rowId == row.rowId {
          invalid := invalid + {row.rowId};
        } else if RelationSupported(rules, row, byId[relation.rowId]) {
          accepted := accepted[row.rowId := relation];
          shape := shape + Reshaped(row);
        }
      }
    }
    SortingDone(rules, rows, invalid, accepted, shape);
  }

  method ForeignAmounts(rules: FactRules, rows: seq<Row>, currency: string) returns (converted: map<string, int>)
    ensures converted == Conversions(rules, rows, currency, |rows|)
  {
    converted := map[];
    for i := 0 to |rows|
      invariant converted == Conversions(rules, rows, currency, i)
    {
      var c := Conversion(rules, rows, currency, rows[i]);
      if c.Some? { converted := converted[c.value.0 := c.value.1]; }
    }
  }

  method ValidateImportExtraction(rules: FactRules, rows: seq<Row>, currency: string) returns (r: Validation)
    ensures r.DuplicateRowId? <==> !DistinctRows(rows)
    ensures r.Validated? ==> r.proposals == Map(rows, ProposalOf(rules, rows, currency))
  {
    var byId, repeated := RowsById(rows);
    if repeated.Some? { return DuplicateRowId(repeated.value); }
    hide *;
    var invalid, accepted, shape := SortRelations(rules, rows, byId);
    var converted := ForeignAmounts(rules, rows, currency);
    var proposals := [];
    for i := 0 to |rows|
      invariant |proposals| == i && forall j :: 0 <= j < i ==>
        proposals[j] == ProposalOf(rules, rows, currency)(rows[j])
    {
      var row := rows[i];
      ProposedAsSpecified(rules, rows, currency, invalid, accepted, shape, row);
      proposals := proposals + [Propose(
        rules, row, currency, if row.rowId in accepted then Some(accepted[row.rowId]) else None, row.rowId in invalid,
        row.rowId in shape, if row.rowId in converted then Some(converted[row.rowId]) else None)];
    }
    assert proposals == Map(rows, ProposalOf(rules, rows, currency));
    return Validated(proposals);
  }
}
