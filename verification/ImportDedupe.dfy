// Duplicate detection for imported rows: an index of what the account already holds, grown by what
// the same batch has already accepted.
module ImportDedupe {
  import opened Sequences
  import opened ImportRows

  datatype DupStatus = New | Exists | Probable

  datatype MoneyDirection = In | Out

  datatype ExistingRow = ExistingRow(date: string, amount: int, sourceRef: Option<string>,
    transferDirection: Option<MoneyDirection>)

  datatype Item = Item(date: string, amount: int, rawPlace: string, direction: Option<MoneyDirection>)

  /** Text normalisation and line splitting, which work on Unicode text, are parameters. */
  datatype TextRules = TextRules(norm: string -> string, lines: string -> seq<string>)

  function NormRef(rules: TextRules, ref: Option<string>): string { rules.norm(if ref.Some? then ref.value else "") }

  /** Every reference a text can be recognised by: the whole and each of its lines. */
  function CandidateRefs(rules: TextRules, rawPlace: string): set<string> {
    var whole := rules.norm(rawPlace);
    if whole == "" then {}
    else
      {whole} +
      set i | 0 <= i < |rules.lines(whole)| && rules.norm(rules.lines(whole)[i]) != ""
        :: rules.norm(rules.lines(whole)[i])
  }

  datatype Index = Index(strong: set<(string, int, string)>, weak: set<(string, int)>,
    transfers: set<(string, int, MoneyDirection)>)

  const EMPTY := Index({}, {}, {})

  /** One existing row added. The receiving side of a transfer is known by its direction alone. */
  function AddRow(rules: TextRules, index: Index, row: ExistingRow): Index {
    var transfers := if row.transferDirection.Some?
      then index.transfers + {(row.date, row.amount, row.transferDirection.value)} else index.transfers;
    if row.transferDirection == Some(In) then index.(transfers := transfers)
    else
      var ref := NormRef(rules, row.sourceRef);
      Index(if ref != "" then index.strong + {(row.date, row.amount, ref)} else index.strong,
            index.weak + {(row.date, row.amount)}, transfers)
  }

  function IndexOf(rules: TextRules, rows: seq<ExistingRow>): Index {
    if rows == [] then EMPTY else AddRow(rules, IndexOf(rules, rows[..|rows| - 1]), rows[|rows| - 1])
  }

  function Marked(rules: TextRules, index: Index, item: Item): Index {
    var ref := rules.norm(item.rawPlace);
    if ref == "" then index else index.(strong := index.strong + {(item.date, item.amount, ref)})
  }

  function Classify(rules: TextRules, item: Item, index: Index): DupStatus {
    if exists ref :: ref in CandidateRefs(rules, item.rawPlace) && (item.date, item.amount, ref) in index.strong
      then Exists
    else if item.direction.Some? && (item.date, item.amount, item.direction.value) in index.transfers then Exists
    else if (item.date, item.amount) in index.weak then Probable
    else New
  }

  /** The index the source builds, with the sets it grows in place. */
  class DupIndex {
    var strong: set<(string, int, string)>
    var weak: set<(string, int)>
    var transfers: set<(string, int, MoneyDirection)>

    function Contents(): Index reads this { Index(strong, weak, transfers) }

    constructor (rules: TextRules, rows: seq<ExistingRow>)
      ensures Contents() == IndexOf(rules, rows)
    {
      strong, weak, transfers := {}, {}, {};
      new;
      for i := 0 to |rows|
        invariant Contents() == IndexOf(rules, rows[..i])
      {
        var row := rows[i];
        assert rows[..i + 1][..i] == rows[..i];
        if row.transferDirection.Some? {
          transfers := transfers + {(row.date, row.amount, row.transferDirection.value)};
          if row.transferDirection.value == In { continue; }
        }
        var ref := NormRef(rules, row.sourceRef);
        if ref != "" { strong := strong + {(row.date, row.amount, ref)}; }
        weak := weak + {(row.date, row.amount)};
      }
      assert rows[..|rows|] == rows;
    }

    method MarkSeen(rules: TextRules, item: Item)
      modifies this
      ensures Contents() == Marked(rules, old(Contents()), item)
    {
      var ref := rules.norm(item.rawPlace);
      if ref != "" { strong := strong + {(item.date, item.amount, ref)}; }
    }
  }

  // ---- what the classification means ----------------------------------------------------------------

  /** A row that is not the receiving side of a transfer. */
  predicate Textual(row: ExistingRow) { row.transferDirection != Some(In) }

  predicate SameMoney(row: ExistingRow, item: Item) { row.date == item.date && row.amount == item.amount }

  predicate Recognised(rules: TextRules, row: ExistingRow, item: Item) {
    SameMoney(row, item) &&
    ((Textual(row) && NormRef(rules, row.sourceRef) != "" &&
      NormRef(rules, row.sourceRef) in CandidateRefs(rules, item.rawPlace))
     || (item.direction.Some? && row.transferDirection == item.direction))
  }

  lemma {:induction false} IndexHolds(rules: TextRules, rows: seq<ExistingRow>)
    ensures forall d, a, ref :: (d, a, ref) in IndexOf(rules, rows).strong <==>
      exists row :: row in rows && Textual(row) && row.date == d && row.amount == a &&
        NormRef(rules, row.sourceRef) == ref && ref != ""
    ensures forall d, a :: (d, a) in IndexOf(rules, rows).weak <==>
      exists row :: row in rows && Textual(row) && row.date == d && row.amount == a
    ensures forall d, a, dir :: (d, a, dir) in IndexOf(rules, rows).transfers <==>
      exists row :: row in rows && row.transferDirection == Some(dir) && row.date == d && row.amount == a
  {
    if rows != [] {
      var init, last := rows[..|rows| - 1], rows[|rows| - 1];
      IndexHolds(rules, init);
      assert forall row :: row in rows <==> row in init || row == last;
    }
  }

  /**
   * A row exists when an existing row of the same date and amount is recognised by its text or by
   * its transfer direction, is probable when only the money matches, and is new otherwise.
   */
  lemma ClassifyMeans(rules: TextRules, rows: seq<ExistingRow>, item: Item)
    ensures Classify(rules, item, IndexOf(rules, rows)) == Exists <==>
      exists row :: row in rows && Recognised(rules, row, item)
    ensures Classify(rules, item, IndexOf(rules, rows)) == New <==>
      forall row :: row in rows ==> !Recognised(rules, row, item) && !(Textual(row) && SameMoney(row, item))
  {
    IndexHolds(rules, rows);
    if exists row :: row in rows && Recognised(rules, row, item) {
      var row :| row in rows && Recognised(rules, row, item);
      if item.direction.Some? && row.transferDirection == item.direction {
        assert (item.date, item.amount, item.direction.value) in IndexOf(rules, rows).transfers;
      } else {
        assert (item.date, item.amount, NormRef(rules, row.sourceRef)) in IndexOf(rules, rows).strong;
      }
    }
  }

  // ---- the rows of one account ----------------------------------------------------------------------

  datatype BookedTxn = BookedTxn(accountId: string, toAccountId: Option<string>, kind: EntryType, date: string,
    amount: int, sourceRef: Option<string>)

  function RowFor(t: BookedTxn, accountId: string): seq<ExistingRow> {
    if t.accountId == accountId then [ExistingRow(t.date, t.amount, t.sourceRef, if t.kind == TransferEntry
      then Some(Out) else None)]
    else if t.kind == TransferEntry && t.toAccountId == Some(accountId)
      then [ExistingRow(t.date, t.amount, t.sourceRef, Some(In))]
    else []
  }

  function RowsFor(txns: seq<BookedTxn>, accountId: string): seq<ExistingRow> {
    if txns == [] then [] else RowsFor(txns[..|txns| - 1], accountId) + RowFor(txns[|txns| - 1], accountId)
  }

  method ExistingImportRowsForAccount(txns: seq<BookedTxn>, accountId: string) returns (rows: seq<ExistingRow>)
    ensures rows == RowsFor(txns, accountId)
  {
    rows := [];
    for i := 0 to |txns|
      invariant rows == RowsFor(txns[..i], accountId)
    {
      var t := txns[i];
      assert txns[..i + 1][..i] == txns[..i];
      if t.accountId == accountId {
        rows := rows + [ExistingRow(t.date, t.amount, t.sourceRef, if t.kind == TransferEntry then Some(Out)
          else None)];
      } else if t.kind == TransferEntry && t.toAccountId == Some(accountId) {
        rows := rows + [ExistingRow(t.date, t.amount, t.sourceRef, Some(In))];
      }
    }
    assert txns[..|txns|] == txns;
  }

  function CandidateDirection(
    kind: EntryType, isRefund: bool, fromAccount: string, toAccount: Option<string>, accountId: string): MoneyDirection
  {
    match kind
    case IncomeEntry => In
    case ExpenseEntry => if isRefund then In else Out
    case TransferEntry => if toAccount == Some(accountId) && fromAccount != accountId then In else Out
  }
}
