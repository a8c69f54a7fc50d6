/** The rows read from screenshots and the proposals made of them. */
module ImportRows {
  import opened Sequences

  datatype SemanticKind =
    | CardPurchase | CashWithdrawal | Fee | Interest | Salary | CashbackOrReward | MerchantRefund | Chargeback
    | IncomingTransfer | OutgoingTransfer | AccountTopup | InternalTransfer | FxConversion | CashDeposit | UnknownKind

  datatype RelationKind = FxFor | RefundOf | PendingVersionOf | FeeFor | DuplicateOf | CounterpartOf | ContinuationOf

  datatype PostingStatus = Posted | Pending | DeclinedPosting | UnknownPosting

  datatype RowRole = FinancialEvent | SupportingDetail | UiMetadata

  datatype Direction = Debit | Credit | UnknownDirection

  datatype ReviewReason =
    | MissingFact | UnsupportedCurrency | InconsistentDirection | PossibleTransfer | UnknownTransferEndpoint
    | InvalidRelation | RelationChangesLedgerShape | PendingOrDeclined | UnknownPostingStatus | UnknownKindReason
    | InferredDate | SuspiciousText | FxConverted

  datatype Relation = Relation(kind: RelationKind, rowId: string)

  datatype Row = Row(
    rowId: string, imageIndex: nat, visualOrder: nat, rawTextLines: seq<string>, date: Option<string>,
    amount: Option<int>, currency: Option<string>, direction: Direction, postingStatus: PostingStatus,
    rowRole: RowRole, semanticKind: SemanticKind, relation: Option<Relation>, suspiciousText: bool, dateInferred: bool)

  datatype Disposition = Candidate | Supporting | PendingDisposition | Declined | Unresolved

  datatype EntryType = ExpenseEntry | IncomeEntry | TransferEntry

  datatype Proposal = Proposal(
    rowId: string, disposition: Disposition, date: Option<string>, amount: Option<int>, currency: Option<string>,
    kind: Option<EntryType>, isRefund: bool, toAccountId: Option<string>, semanticKind: SemanticKind,
    relation: Option<Relation>, rawPlace: string, envelopeId: Option<string>, categoryId: Option<string>,
    reviewReasons: set<ReviewReason>, selected: bool)

  predicate HasPositiveAmount(amount: Option<int>) { amount.Some? && amount.value > 0 }

  predicate DistinctRows(rows: seq<Row>) { forall i, j :: 0 <= i < j < |rows| ==> rows[i].rowId != rows[j].rowId }
}
