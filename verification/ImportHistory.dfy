/** Evidence from past bookings for one proposal: grouped by what would be assigned, strongest first. */
module ImportHistory {
  import opened Sequences
  import opened Sorting
  import opened ImportRows

  datatype Assignment = Assignment(
    place: Option<string>, name: Option<string>, envelope: Option<string>, category: Option<string>,
    entryType: EntryType, isRefund: bool, toAccountId: Option<string>)

  datatype Evidence = Evidence(sourceRef: Option<string>, tag: Option<string>, assignment: Assignment)

  /** A past booking. */
  datatype Record = Record(accountId: string, currency: string, evidence: Evidence)

  datatype Match = ExactSourceRef | ContainedSourceRef | MerchantIdentity | SourceSimilarity | FuzzySimilarity

  datatype Candidate = Candidate(evidence: Evidence, count: nat, match_: Match)

  datatype Query = Query(
    accountId: string, ownedAccountIds: seq<string>, rawPlace: string, tag: Option<string>, currency: Option<string>,
    entryType: Option<EntryType>, isRefund: bool, semanticKind: SemanticKind, toAccountId: Option<string>,
    direction: Option<Direction>)

  /**
   * What the program takes from Unicode text: normal forms, similarity, letters, and the order of serialised
   * tuples.
   */
  datatype TextRules = TextRules(
    norm: Option<string> -> string, lines: string -> seq<string>, similarity: (string, string) -> real,
    mentions: (string, string) -> bool,
    threeLetters: string -> bool, upper: string -> string, trim: string -> string,
    evidenceAtMost: (Evidence, Evidence) -> bool, assignmentAtMost: (Assignment, Assignment) -> bool)

  const MIN_SIMILARITY := 0.3
  const MAX_CANDIDATES := 5

  ghost predicate Serialised(rules: TextRules) {
    && TotalOrder(rules.evidenceAtMost)
    && (forall a, b :: rules.evidenceAtMost(a, b) && rules.evidenceAtMost(b, a) ==> a == b)
    && TotalOrder(rules.assignmentAtMost)
    && (forall a, b :: rules.assignmentAtMost(a, b) && rules.assignmentAtMost(b, a) ==> a == b)
  }

  // ---- one record ---------------------------------------------------------------------------------------

  predicate SameCurrency(rules: TextRules, left: Option<string>, right: string) {
    left.Some? && rules.upper(left.value) == rules.upper(right)
  }

  predicate CompatibleWithVisibleFacts(rules: TextRules, q: Query, r: Record) {
    var a := r.evidence.assignment;
    if r.accountId != q.accountId || !SameCurrency(rules, q.currency, r.currency) then false
    else if q.semanticKind == InternalTransfer then
      a.entryType == TransferEntry && a.toAccountId.Some? && a.toAccountId.value != q.accountId &&
        a.toAccountId.value in q.ownedAccountIds
    else if a.entryType == TransferEntry then false
    else if q.direction.Some? then
      q.direction.value == UnknownDirection || q.direction.value == if a.entryType == IncomeEntry || a.isRefund
        then Credit else Debit
    else
      q.entryType == Some(a.entryType) && (a.entryType == ExpenseEntry ==> a.isRefund == q.isRefund)
  }

  predicate IsMerchant(rules: TextRules, q: Query, value: Option<string>) {
    var identity := rules.norm(value);
    rules.threeLetters(identity) && (identity == rules.norm(q.tag) || identity in rules.lines(q.rawPlace))
  }

  predicate SourceHasMerchant(rules: TextRules, source: string, e: Evidence) {
    (rules.threeLetters(rules.norm(e.tag)) && rules.mentions(source, rules.norm(e.tag))) ||
    (rules.threeLetters(rules.norm(e.assignment.place)) && rules.mentions(source, rules.norm(e.assignment.place)))
  }

  function MaxReal(a: real, b: real): real { if a < b then b else a }

  function SourceScore(rules: TextRules, q: Query, e: Evidence): real {
    var source := rules.norm(e.sourceRef);
    if source != "" then rules.similarity(rules.norm(Some(q.rawPlace)), source) else 0.0
  }

  function FuzzyScore(rules: TextRules, q: Query, e: Evidence): real {
    var raw := rules.norm(Some(q.rawPlace));
    MaxReal(MaxReal(rules.similarity(raw, rules.norm(e.assignment.place)), rules.similarity(raw, rules.norm(e.tag))),
            rules.similarity(raw, rules.norm(e.assignment.name)))
  }

  function MatchOf(rules: TextRules, q: Query, e: Evidence): Option<Match> {
    var raw, source := rules.norm(Some(q.rawPlace)), rules.norm(e.sourceRef);
    if raw != "" && raw == source then Some(ExactSourceRef)
    else if source != "" && source in rules.lines(q.rawPlace) && SourceHasMerchant(rules, source, e)
      then Some(ContainedSourceRef)
    else if IsMerchant(rules, q, e.tag) || IsMerchant(rules, q, e.assignment.place) then Some(MerchantIdentity)
    else if SourceScore(rules, q, e) >= MIN_SIMILARITY then Some(SourceSimilarity)
    else if FuzzyScore(rules, q, e) >= MIN_SIMILARITY then Some(FuzzySimilarity)
    else None
  }

  function MatchRank(m: Match): nat {
    match m
    case ExactSourceRef => 4
    case ContainedSourceRef => 3
    case MerchantIdentity => 3
    case SourceSimilarity => 2
    case FuzzySimilarity => 1
  }

  /** The destination only counts for transfers. */
  function EvidenceOf(r: Record): Evidence {
    var a := r.evidence.assignment;
    r.evidence.(assignment := a.(toAccountId := if a.entryType == TransferEntry then a.toAccountId else None))
  }

  predicate Counts(rules: TextRules, q: Query, r: Record) {
    CompatibleWithVisibleFacts(rules, q, r) && MatchOf(rules, q, EvidenceOf(r)).Some?
  }

  // ---- grouping -----------------------------------------------------------------------------------------

  datatype Entry = Entry(candidate: Candidate, rank: nat, score: real)

  function EntryOf(rules: TextRules, q: Query, e: Evidence, m: Match): Entry {
    Entry(Candidate.Candidate(e, 1, m), MatchRank(m), MaxReal(SourceScore(rules, q, e), FuzzyScore(rules, q, e)))
  }

  function Counted(e: Entry, count: nat): Entry { e.(candidate := e.candidate.(count := count)) }

  predicate Better(rules: TextRules, a: Entry, b: Entry) {
    a.rank > b.rank ||
    (a.rank == b.rank &&
      (a.score > b.score ||
        (a.score == b.score && a.candidate.evidence != b.candidate.evidence &&
          rules.evidenceAtMost(a.candidate.evidence, b.candidate.evidence))))
  }

  function Merge(rules: TextRules, existing: Entry, e: Entry): Entry {
    if Better(rules, e, existing) then Counted(e, existing.candidate.count + 1)
      else Counted(existing, existing.candidate.count + 1)
  }

  type Groups = map<Assignment, Entry>

  function AddEntry(rules: TextRules, groups: Groups, e: Entry): Groups {
    var key := e.candidate.evidence.assignment;
    groups[key := if key in groups then Merge(rules, groups[key], e) else e]
  }

  function AddRecord(rules: TextRules, q: Query, groups: Groups, r: Record): Groups {
    if !Counts(rules, q, r) then groups
    else AddEntry(rules, groups, EntryOf(rules, q, EvidenceOf(r), MatchOf(rules, q, EvidenceOf(r)).value))
  }

  function Grouped(rules: TextRules, q: Query, records: seq<Record>): Groups {
    if records == [] then map[]
    else AddRecord(rules, q, Grouped(rules, q, records[..|records| - 1]), records[|records| - 1])
  }

  // ---- ranking ------------------------------------------------------------------------------------------

  function Stronger(rules: TextRules): (Entry, Entry) -> bool {
    (a: Entry, b: Entry) =>
      a.rank > b.rank ||
      (a.rank == b.rank &&
        (a.score > b.score ||
          (a.score == b.score &&
            (a.candidate.count > b.candidate.count ||
              (a.candidate.count == b.candidate.count &&
                rules.assignmentAtMost(a.candidate.evidence.assignment, b.candidate.evidence.assignment))))))
  }

  const NO_ENTRY :=
    Entry(Candidate.Candidate(Evidence(None, None, Assignment(None, None, None, None, ExpenseEntry, false, None)), 0,
    FuzzySimilarity), 0, 0.0)

  function ValueAt(groups: Groups): Assignment -> Entry {
    (k: Assignment) => if k in groups then groups[k] else NO_ENTRY
  }

  function KeyOf(r: Record): Assignment { EvidenceOf(r).assignment }

  /** The groups in the order they are first met. */
  function Keys(rules: TextRules, q: Query, records: seq<Record>): seq<Assignment> {
    if records == [] then [] else
      var init, r := records[..|records| - 1], records[|records| - 1];
      if Counts(rules, q, r) && KeyOf(r) !in Keys(rules, q, init) then Keys(rules, q, init) + [KeyOf(r)]
        else Keys(rules, q, init)
  }

  function Ranked(rules: TextRules, q: Query, records: seq<Record>): seq<Entry> {
    Sort(Map(Keys(rules, q, records), ValueAt(Grouped(rules, q, records))), Stronger(rules))
  }

  datatype Metadata = Metadata(
    name: Option<Option<string>>, place: Option<Option<string>>, envelope: Option<Option<string>>,
    category: Option<Option<string>>)

  datatype Selection = Selection(candidates: seq<Candidate>, conflict: bool, metadata: Metadata)

  function CandidateOf(): Entry -> Candidate { (e: Entry) => e.candidate }

  function IsStrong(rules: TextRules): Entry -> bool {
    (e: Entry) =>
      e.candidate.match_ == MerchantIdentity || e.candidate.match_ == ContainedSourceRef ||
      (e.candidate.match_ == ExactSourceRef && SourceHasMerchant(rules, rules.norm(e.candidate.evidence.sourceRef),
        e.candidate.evidence))
  }

  function Trimmed(rules: TextRules, value: Option<string>): Option<string> {
    if value.Some? && rules.trim(value.value) != "" then Some(rules.trim(value.value)) else None
  }

  datatype Field = NameField | PlaceField | EnvelopeField | CategoryField

  function FieldOf(f: Field, c: Candidate): Option<string> {
    match f
    case NameField => c.evidence.assignment.name
    case PlaceField => c.evidence.assignment.place
    case EnvelopeField => c.evidence.assignment.envelope
    case CategoryField => c.evidence.assignment.category
  }

  function FieldValues(rules: TextRules, f: Field, candidates: seq<Candidate>): set<Option<string>> {
    set c | c in candidates :: Trimmed(rules, FieldOf(f, c))
  }

  /** What a strong selection says about a field: one value, a disagreement (none), or nothing. */
  function Agreed(rules: TextRules, f: Field, candidates: seq<Candidate>): Option<Option<string>> {
    var values := FieldValues(rules, f, candidates);
    if |values| == 1 && None !in values && candidates != [] then Some(Trimmed(rules, FieldOf(f, candidates[0])))
    else if |values| > 1 && f != NameField then Some(None)
    else None
  }

  predicate MoneyConflict(q: Query, candidates: seq<Candidate>) {
    exists c :: c in candidates &&
      (Some(c.evidence.assignment.entryType) != q.entryType || c.evidence.assignment.isRefund != q.isRefund ||
       c.evidence.assignment.toAccountId != q.toAccountId)
  }

  function DisplayLimit(limit: Option<int>): nat {
    if limit.None? then MAX_CANDIDATES else Max(0, Min(limit.value, MAX_CANDIDATES))
  }

  function Select(rules: TextRules, q: Query, ranked: seq<Entry>, limit: Option<int>): Selection {
    var strongEntries := Filter(ranked, IsStrong(rules));
    var strong := strongEntries != [];
    var candidates := Map(if strong then strongEntries else ranked, CandidateOf());
    var money := MoneyConflict(q, candidates);
    var disagree :=
      exists f :: f in {PlaceField, EnvelopeField, CategoryField} && |FieldValues(rules, f, candidates)| > 1;
    Selection(
      candidates[..Min(|candidates|, DisplayLimit(limit))],
      strong && (disagree || (q.entryType.Some? && money)),
      if strong && !money
      then Metadata(Agreed(rules, NameField, candidates), Agreed(rules, PlaceField, candidates),
                    Agreed(rules, EnvelopeField, candidates), Agreed(rules, CategoryField, candidates))
      else Metadata(None, None, None, None))
  }

  // ---- the order of the records does not matter ---------------------------------------------------------

  /** An entry is its evidence and a count; everything else follows from the evidence. */
  predicate Genuine(rules: TextRules, q: Query, e: Entry) {
    MatchOf(rules, q, e.candidate.evidence).Some? && e.candidate.count > 0 &&
    e == Counted(EntryOf(rules, q, e.candidate.evidence, MatchOf(rules, q, e.candidate.evidence).value),
      e.candidate.count)
  }

  ghost predicate AllGenuine(rules: TextRules, q: Query, groups: Groups) {
    forall k :: k in groups ==> Genuine(rules, q, groups[k]) && groups[k].candidate.evidence.assignment == k
  }

  lemma GenuineTies(rules: TextRules, q: Query, a: Entry, b: Entry)
    requires Genuine(rules, q, a) && Genuine(rules, q, b) && a.candidate.evidence == b.candidate.evidence
    ensures a.rank == b.rank && a.score == b.score && a.candidate.match_ == b.candidate.match_
  {
  }

  lemma BetterIsStrict(rules: TextRules, q: Query, a: Entry, b: Entry)
    requires Serialised(rules) && Genuine(rules, q, a) && Genuine(rules, q, b)
    ensures !(Better(rules, a, b) && Better(rules, b, a))
    ensures !Better(rules, a, b) && !Better(rules, b, a) ==> a == Counted(b, a.candidate.count)
  {
    if a.candidate.evidence == b.candidate.evidence { GenuineTies(rules, q, a, b); }
    hide Genuine;
    assert rules.evidenceAtMost(a.candidate.evidence, b.candidate.evidence) ||
      rules.evidenceAtMost(b.candidate.evidence, a.candidate.evidence);
  }

  lemma BetterIsTransitive(rules: TextRules, a: Entry, b: Entry, c: Entry)
    requires Serialised(rules) && Better(rules, a, b) && Better(rules, b, c)
    ensures Better(rules, a, c)
  {
    var x, y, z := a.candidate.evidence, b.candidate.evidence, c.candidate.evidence;
    assert rules.evidenceAtMost(x, y) && rules.evidenceAtMost(y, z) ==> rules.evidenceAtMost(x, z);
  }

  lemma BetterIgnoresCount(rules: TextRules, a: Entry, b: Entry, n: nat)
    ensures Better(rules, Counted(a, n), b) == Better(rules, a, b) &&
      Better(rules, a, Counted(b, n)) == Better(rules, a, b)
  {
  }

  lemma MergeGenuine(rules: TextRules, q: Query, a: Entry, b: Entry)
    requires Genuine(rules, q, a) && Genuine(rules, q, b)
    ensures Genuine(rules, q, Merge(rules, a, b)) && Merge(rules, a, b).candidate.count == a.candidate.count + 1
    ensures a.candidate.evidence.assignment == b.candidate.evidence.assignment ==>
      Merge(rules, a, b).candidate.evidence.assignment == a.candidate.evidence.assignment
  {
    hide Better, MatchOf;
  }

  /** Two records of one group can arrive in either order. */
  lemma MergeCommutes(rules: TextRules, q: Query, e: Entry, x: Entry, y: Entry)
    requires Serialised(rules) && Genuine(rules, q, e) && Genuine(rules, q, x) && Genuine(rules, q, y)
    requires x.candidate.count == 1 && y.candidate.count == 1
    ensures Merge(rules, Merge(rules, e, x), y) == Merge(rules, Merge(rules, e, y), x)
    ensures Merge(rules, x, y) == Merge(rules, y, x)
  {
    BetterIsStrict(rules, q, x, y);
    BetterIsStrict(rules, q, e, x);
    BetterIsStrict(rules, q, e, y);
    if Better(rules, x, y) && Better(rules, y, e) { BetterIsTransitive(rules, x, y, e); }
    if Better(rules, y, x) && Better(rules, x, e) { BetterIsTransitive(rules, y, x, e); }
    var n := e.candidate.count + 1;
    BetterIgnoresCount(rules, y, e, n);
    BetterIgnoresCount(rules, y, x, n);
    BetterIgnoresCount(rules, x, e, n);
    BetterIgnoresCount(rules, x, y, n);
    hide Better, Genuine, Serialised;
  }

  lemma AddGenuine(rules: TextRules, q: Query, groups: Groups, r: Record)
    requires AllGenuine(rules, q, groups)
    ensures AllGenuine(rules, q, AddRecord(rules, q, groups, r))
  {
    if Counts(rules, q, r) {
      var e := EntryOf(rules, q, EvidenceOf(r), MatchOf(rules, q, EvidenceOf(r)).value);
      assert Genuine(rules, q, e);
      hide Genuine, Counts, Merge;
      var key := e.candidate.evidence.assignment;
      if key in groups { MergeGenuine(rules, q, groups[key], e); }
    }
  }

  lemma {:induction false} GroupedGenuine(rules: TextRules, q: Query, records: seq<Record>)
    ensures AllGenuine(rules, q, Grouped(rules, q, records))
  {
    if records != [] {
      GroupedGenuine(rules, q, records[..|records| - 1]);
      hide AllGenuine, AddRecord;
      AddGenuine(rules, q, Grouped(rules, q, records[..|records| - 1]), records[|records| - 1]);
    }
  }

  lemma EntriesCommute(rules: TextRules, q: Query, groups: Groups, x: Entry, y: Entry)
    requires Serialised(rules) && AllGenuine(rules, q, groups) && Genuine(rules, q, x) && Genuine(rules, q, y)
    requires x.candidate.count == 1 && y.candidate.count == 1
    ensures AddEntry(rules, AddEntry(rules, groups, x), y) == AddEntry(rules, AddEntry(rules, groups, y), x)
  {
    var i, j := x.candidate.evidence.assignment, y.candidate.evidence.assignment;
    hide Merge, Serialised;
    if i == j {
      MergeCommutes(rules, q, if i in groups then groups[i] else x, x, y);
    }
    hide Genuine;
  }

  lemma RecordsCommute(rules: TextRules, q: Query, groups: Groups, x: Record, y: Record)
    requires Serialised(rules) && AllGenuine(rules, q, groups)
    ensures AddRecord(rules, q, AddRecord(rules, q, groups, x), y) ==
      AddRecord(rules, q, AddRecord(rules, q, groups, y), x)
  {
    if Counts(rules, q, x) && Counts(rules, q, y) {
      var a := EntryOf(rules, q, EvidenceOf(x), MatchOf(rules, q, EvidenceOf(x)).value);
      var b := EntryOf(rules, q, EvidenceOf(y), MatchOf(rules, q, EvidenceOf(y)).value);
      assert Genuine(rules, q, a) && Genuine(rules, q, b);
      hide AddEntry, Counts, AllGenuine, Serialised, Genuine;
      EntriesCommute(rules, q, groups, a, b);
    }
  }

  function Moved(records: seq<Record>, i: nat): seq<Record>
    requires i < |records|
  {
    records[..i] + records[i + 1..] + [records[i]]
  }

  lemma MovedParts(records: seq<Record>, i: nat)
    requires i < |records| - 1
    ensures var n := |records| - 1;
      var init := records[..n];
      var others := init[..i] + init[i + 1..];
      Moved(init, i) == others + [init[i]] && Moved(records, i) == (others + [records[n]]) + [init[i]]
  {
  }

  lemma GroupedStep(rules: TextRules, q: Query, records: seq<Record>, r: Record)
    ensures Grouped(rules, q, records + [r]) == AddRecord(rules, q, Grouped(rules, q, records), r)
  {
    hide AddRecord;
    assert (records + [r])[..|records|] == records;
  }

  lemma {:induction false} MoveToEnd(rules: TextRules, q: Query, records: seq<Record>, i: nat)
    requires Serialised(rules) && i < |records|
    ensures Grouped(rules, q, records) == Grouped(rules, q, Moved(records, i))
    decreases |records| - i
  {
    var n := |records| - 1;
    if i == n {
      assert Moved(records, i) == records;
    } else {
      // Take the last record off, move within the rest, then swap the last two.
      var init, last := records[..n], records[n];
      var others := init[..i] + init[i + 1..];
      assert Grouped(rules, q, records) == AddRecord(rules, q, Grouped(rules, q, init), last);
      MovedParts(records, i);
      hide *;
      MoveToEnd(rules, q, init, i);
      GroupedStep(rules, q, others, init[i]);
      GroupedStep(rules, q, others, last);
      GroupedStep(rules, q, others + [last], init[i]);
      GroupedGenuine(rules, q, others);
      RecordsCommute(rules, q, Grouped(rules, q, others), init[i], last);
    }
  }

  lemma {:induction false} GroupedPermuted(rules: TextRules, q: Query, a: seq<Record>, b: seq<Record>)
    requires Serialised(rules) && multiset(a) == multiset(b)
    ensures Grouped(rules, q, a) == Grouped(rules, q, b)
  {
    if a == [] {
      SameElements(a, b);
    } else {
      var n := |a| - 1;
      var i := TakeOut(a, b);
      MoveToEnd(rules, q, b, i);
      assert a == a[..n] + [a[n]] && Moved(b, i) == Without(b, i) + [b[i]];
      hide *;
      GroupedStep(rules, q, a[..n], a[n]);
      GroupedStep(rules, q, Without(b, i), b[i]);
      GroupedPermuted(rules, q, a[..n], Without(b, i));
    }
  }

  lemma {:induction false} KeysMean(rules: TextRules, q: Query, records: seq<Record>)
    ensures EachOnce(Keys(rules, q, records))
    ensures forall k :: k in Keys(rules, q, records) <==> k in Grouped(rules, q, records)
  {
    if records != [] {
      KeysMean(rules, q, records[..|records| - 1]);
      hide Counts, Merge, EvidenceOf, EntryOf;
    }
  }

  lemma SameKeys(a: seq<Assignment>, b: seq<Assignment>)
    requires EachOnce(a) && EachOnce(b) && forall k :: k in a <==> k in b
    ensures multiset(a) == multiset(b)
  {
    forall k ensures multiset(a)[k] == multiset(b)[k] {
      EachOnceCounts(a, k);
      EachOnceCounts(b, k);
    }
  }

  lemma StrongerIsTotal(rules: TextRules)
    requires Serialised(rules)
    ensures TotalOrder(Stronger(rules))
  {
    var le := Stronger(rules);
    forall x, y ensures le(x, y) || le(y, x) {
      assert rules.assignmentAtMost(x.candidate.evidence.assignment, y.candidate.evidence.assignment) ||
        rules.assignmentAtMost(y.candidate.evidence.assignment, x.candidate.evidence.assignment);
    }
    forall x, y, z | le(x, y) && le(y, z) ensures le(x, z) {
      var a, b, c := x.candidate.evidence.assignment, y.candidate.evidence.assignment, z.candidate.evidence.assignment;
      assert rules.assignmentAtMost(a, b) && rules.assignmentAtMost(b, c) ==> rules.assignmentAtMost(a, c);
    }
  }

  lemma StrongerTellsApart(rules: TextRules, q: Query, records: seq<Record>)
    requires Serialised(rules)
    ensures Antisymmetric(Map(Keys(rules, q, records), ValueAt(Grouped(rules, q, records))), Stronger(rules))
  {
    KeysMean(rules, q, records);
    GroupedGenuine(rules, q, records);
    var keys, groups := Keys(rules, q, records), Grouped(rules, q, records);
    var values := Map(keys, ValueAt(groups));
    hide Keys, Grouped, Genuine, TotalOrder;
    forall x, y | x in values && y in values && Stronger(rules)(x, y) && Stronger(rules)(y, x) ensures x == y {
      var i :| 0 <= i < |values| && values[i] == x;
      var j :| 0 <= j < |values| && values[j] == y;
      assert keys[i] in keys && keys[j] in keys;
    }
  }

  /** Selection depends on the multiset of the records only. */
  lemma {:induction false} SelectionForgetsOrder(
    rules: TextRules, q: Query, a: seq<Record>, b: seq<Record>, limit: Option<int>)
    requires Serialised(rules) && multiset(a) == multiset(b)
    ensures Select(rules, q, Ranked(rules, q, a), limit) == Select(rules, q, Ranked(rules, q, b), limit)
  {
    GroupedPermuted(rules, q, a, b);
    KeysMean(rules, q, a);
    KeysMean(rules, q, b);
    StrongerIsTotal(rules);
    StrongerTellsApart(rules, q, a);
    var groups := Grouped(rules, q, a);
    assert Ranked(rules, q, a) == Sort(Map(Keys(rules, q, a), ValueAt(groups)), Stronger(rules));
    assert Ranked(rules, q, b) == Sort(Map(Keys(rules, q, b), ValueAt(groups)), Stronger(rules));
    hide *;
    SameKeys(Keys(rules, q, a), Keys(rules, q, b));
    MapPermuted(Keys(rules, q, a), Keys(rules, q, b), ValueAt(groups));
    SortUnique(Map(Keys(rules, q, a), ValueAt(groups)), Map(Keys(rules, q, b), ValueAt(groups)), Stronger(rules));
  }

  // ---- counts and representatives -----------------------------------------------------------------------

  function CountsIn(rules: TextRules, q: Query, key: Assignment): Record -> bool {
    (r: Record) => Counts(rules, q, r) && KeyOf(r) == key
  }

  function CountsAtAll(rules: TextRules, q: Query): Record -> bool { (r: Record) => Counts(rules, q, r) }

  function CountOf(): Entry -> int { (e: Entry) => e.candidate.count }

  function EntryFor(rules: TextRules, q: Query, r: Record): Entry
    requires Counts(rules, q, r)
  {
    EntryOf(rules, q, EvidenceOf(r), MatchOf(rules, q, EvidenceOf(r)).value)
  }

  /** What a group stands for: how many records are in it, and the evidence of one that none of them beats. */
  ghost predicate Represents(rules: TextRules, q: Query, records: seq<Record>, key: Assignment, e: Entry) {
    && e.candidate.count == |Filter(records, CountsIn(rules, q, key))|
    && (exists r :: r in records && CountsIn(rules, q, key)(r) && EvidenceOf(r) == e.candidate.evidence)
    && (forall r :: r in records && CountsIn(rules, q, key)(r) ==> !Better(rules, EntryFor(rules, q, r), e))
  }

  lemma FirstRepresents(rules: TextRules, q: Query, records: seq<Record>, r: Record, key: Assignment)
    requires CountsIn(rules, q, key)(r) && Filter(records, CountsIn(rules, q, key)) == []
    ensures Represents(rules, q, records + [r], key, EntryFor(rules, q, r))
  {
    FilterOneMore(records, r, CountsIn(rules, q, key));
    assert !Better(rules, EntryFor(rules, q, r), EntryFor(rules, q, r));
    assert r in records + [r];
    forall x | x in records ensures !CountsIn(rules, q, key)(x) { FilterMember(records, CountsIn(rules, q, key), x); }
    hide Filter, Better, Counts;
  }

  lemma OtherRepresents(rules: TextRules, q: Query, records: seq<Record>, r: Record, key: Assignment, e: Entry)
    requires !CountsIn(rules, q, key)(r) && Represents(rules, q, records, key, e)
    ensures Represents(rules, q, records + [r], key, e)
  {
    FilterOneMore(records, r, CountsIn(rules, q, key));
    hide Filter, Better, Counts, EntryFor;
    var x :| x in records && CountsIn(rules, q, key)(x) && EvidenceOf(x) == e.candidate.evidence;
    assert x in records + [r];
  }

  lemma MergeRepresents(rules: TextRules, q: Query, records: seq<Record>, r: Record, key: Assignment, e: Entry)
    requires Serialised(rules) && CountsIn(rules, q, key)(r) && Represents(rules, q, records, key, e)
    ensures Represents(rules, q, records + [r], key, Merge(rules, e, EntryFor(rules, q, r)))
  {
    var p, new_ := CountsIn(rules, q, key), EntryFor(rules, q, r);
    FilterOneMore(records, r, p);
    var merged := Merge(rules, e, new_);
    assert merged.candidate.count == e.candidate.count + 1;
    assert !Better(rules, new_, new_);
    forall x | x in records + [r] && p(x) ensures !Better(rules, EntryFor(rules, q, x), merged) {
      var y := EntryFor(rules, q, x);
      assert x in records ==> !Better(rules, y, e);
      if Better(rules, new_, e) {
        BetterIgnoresCount(rules, y, new_, merged.candidate.count);
        if Better(rules, y, new_) { BetterIsTransitive(rules, y, new_, e); }
      } else {
        BetterIgnoresCount(rules, y, e, merged.candidate.count);
      }
    }
    hide Filter, Better, Counts, Serialised;
    assert r in records + [r];
    var x :| x in records && p(x) && EvidenceOf(x) == e.candidate.evidence;
    assert x in records + [r];
    assert merged.candidate.evidence == e.candidate.evidence || merged.candidate.evidence == EvidenceOf(r);
  }

  ghost predicate AllRepresent(rules: TextRules, q: Query, records: seq<Record>, groups: Groups) {
    forall key :: if key in groups then Represents(rules, q, records, key, groups[key])
      else Filter(records, CountsIn(rules, q, key)) == []
  }

  lemma StepRepresents(rules: TextRules, q: Query, records: seq<Record>, r: Record, groups: Groups)
    requires Serialised(rules) && AllRepresent(rules, q, records, groups)
    ensures AllRepresent(rules, q, records + [r], AddRecord(rules, q, groups, r))
  {
    var after := AddRecord(rules, q, groups, r);
    forall key
      ensures if key in after then Represents(rules, q, records + [r], key, after[key])
        else Filter(records + [r], CountsIn(rules, q, key)) == []
    {
      hide Represents, Filter, Merge, Serialised, Counts, EvidenceOf;
      if CountsIn(rules, q, key)(r) {
        if key in groups { MergeRepresents(rules, q, records, r, key, groups[key]); }
          else { FirstRepresents(rules, q, records, r, key); }
      } else {
        FilterOneMore(records, r, CountsIn(rules, q, key));
        if key in groups { OtherRepresents(rules, q, records, r, key, groups[key]); }
      }
    }
    hide *;
    AllRepresentMeans(rules, q, records + [r], after);
  }

  lemma AllRepresentMeans(rules: TextRules, q: Query, records: seq<Record>, groups: Groups)
    requires forall key :: if key in groups then Represents(rules, q, records, key, groups[key])
      else Filter(records, CountsIn(rules, q, key)) == []
    ensures AllRepresent(rules, q, records, groups)
  {
  }

  /** Every group carries the number of its records and the strongest evidence among them. */
  lemma {:induction false} GroupsRepresent(rules: TextRules, q: Query, records: seq<Record>)
    requires Serialised(rules)
    ensures AllRepresent(rules, q, records, Grouped(rules, q, records))
  {
    if records != [] {
      var n := |records| - 1;
      GroupsRepresent(rules, q, records[..n]);
      assert records == records[..n] + [records[n]];
      hide AllRepresent, AddRecord, Serialised;
      StepRepresents(rules, q, records[..n], records[n], Grouped(rules, q, records[..n]));
    }
  }

  /** Values at keys a change of one group does not touch. */
  lemma ValuesElsewhere(groups: Groups, keys: seq<Assignment>, key: Assignment, e: Entry)
    requires key !in keys
    ensures Map(keys, ValueAt(groups[key := e])) == Map(keys, ValueAt(groups))
  {
  }

  lemma {:induction false} SumAfter(groups: Groups, keys: seq<Assignment>, key: Assignment, e: Entry)
    requires EachOnce(keys) && key in keys && key in groups
    ensures Sum(Map(keys, ValueAt(groups[key := e])), CountOf()) ==
      Sum(Map(keys, ValueAt(groups)), CountOf()) - groups[key].candidate.count + e.candidate.count
  {
    var n := |keys| - 1;
    var after := groups[key := e];
    assert Map(keys, ValueAt(after))[..n] == Map(keys[..n], ValueAt(after));
    assert Map(keys, ValueAt(groups))[..n] == Map(keys[..n], ValueAt(groups));
    if keys[n] == key {
      assert key !in keys[..n];
      ValuesElsewhere(groups, keys[..n], key, e);
    } else {
      SumAfter(groups, keys[..n], key, e);
    }
  }

  lemma {:induction false} ValuesSum(rules: TextRules, q: Query, records: seq<Record>)
    ensures Sum(Map(Keys(rules, q, records), ValueAt(Grouped(rules, q, records))), CountOf()) ==
      |Filter(records, CountsAtAll(rules, q))|
  {
    if records != [] {
      var n := |records| - 1;
      var init, r := records[..n], records[n];
      ValuesSum(rules, q, init);
      assert records == init + [r];
      FilterOneMore(init, r, CountsAtAll(rules, q));
      KeysMean(rules, q, init);
      if Counts(rules, q, r) { NewSum(rules, q, Grouped(rules, q, init), Keys(rules, q, init), r); }
      hide Filter, Sum, Counts, AddEntry, EntryOf;
    }
  }

  lemma NewSum(rules: TextRules, q: Query, groups: Groups, keys: seq<Assignment>, r: Record)
    requires Counts(rules, q, r) && EachOnce(keys) && forall k :: k in keys <==> k in groups
    ensures var after, key := AddRecord(rules, q, groups, r), KeyOf(r);
      var newKeys := if key in keys then keys else keys + [key];
      Sum(Map(newKeys, ValueAt(after)), CountOf()) == Sum(Map(keys, ValueAt(groups)), CountOf()) + 1
  {
    var key, e := KeyOf(r), EntryFor(rules, q, r);
    if key in keys {
      assert Merge(rules, groups[key], e).candidate.count == groups[key].candidate.count + 1;
      SumAfter(groups, keys, key, Merge(rules, groups[key], e));
    } else {
      ValuesElsewhere(groups, keys, key, e);
      var after := groups[key := e];
      MapConcat(keys, [key], ValueAt(after));
      SumConcat(Map(keys, ValueAt(after)), Map([key], ValueAt(after)), CountOf());
      assert Map([key], ValueAt(after)) == [e];
      SumOne(e, CountOf());
    }
    hide Counts, Merge, Sum, Map;
  }

  /** No matching record is lost or counted twice: the counts of all groups add up to the matching records. */
  lemma {:induction false} CountsAddUp(rules: TextRules, q: Query, records: seq<Record>)
    ensures Sum(Ranked(rules, q, records), CountOf()) == |Filter(records, CountsAtAll(rules, q))|
  {
    ValuesSum(rules, q, records);
    SortSum(Map(Keys(rules, q, records), ValueAt(Grouped(rules, q, records))), Stronger(rules), CountOf());
    hide Filter, Sum, Sort, Keys, Grouped;
  }

  lemma FoldStep(rules: TextRules, q: Query, records: seq<Record>, i: nat)
    requires i < |records|
    ensures Grouped(rules, q, records[..i + 1]) == AddRecord(rules, q, Grouped(rules, q, records[..i]), records[i])
    ensures Keys(rules, q, records[..i + 1]) ==
      if Counts(rules, q, records[i]) && KeyOf(records[i]) !in Keys(rules, q, records[..i])
      then Keys(rules, q, records[..i]) + [KeyOf(records[i])] else Keys(rules, q, records[..i])
  {
    hide AddRecord, Counts, EvidenceOf;
    assert records[..i + 1][..i] == records[..i];
  }

  lemma AddFirst(rules: TextRules, q: Query, groups: Groups, r: Record)
    requires Counts(rules, q, r) && KeyOf(r) !in groups
    ensures AddRecord(rules, q, groups, r) == groups[KeyOf(r) := EntryFor(rules, q, r)]
  {
  }

  lemma AddAnother(rules: TextRules, q: Query, groups: Groups, r: Record)
    requires Counts(rules, q, r) && KeyOf(r) in groups
    ensures AddRecord(rules, q, groups, r) == groups[KeyOf(r) := Merge(rules, groups[KeyOf(r)], EntryFor(rules, q, r))]
  {
  }

  // ---- the computation ----------------------------------------------------------------------------------

  method SelectImportHistoryCandidates(
    rules: TextRules, q: Query, records: seq<Record>, limit: Option<int> := Some(MAX_CANDIDATES))
    returns (selection: Selection)
    ensures selection == Select(rules, q, Ranked(rules, q, records), limit)
  {
    var grouped: Groups := map[];
    var order: seq<Assignment> := [];
    for i := 0 to |records|
      invariant grouped == Grouped(rules, q, records[..i]) && order == Keys(rules, q, records[..i])
    {
      var r := records[i];
      KeysMean(rules, q, records[..i]);
      FoldStep(rules, q, records, i);
      hide Grouped, Keys, Counts, EvidenceOf, EntryFor, Better, AddRecord;
      if Counts(rules, q, r) {
        var candidate := EntryFor(rules, q, r);
        var key := KeyOf(r);
        if key !in grouped {
          order := order + [key];
          AddFirst(rules, q, grouped, r);
          grouped := grouped[key := candidate];
        } else {
          var existing := grouped[key];
          AddAnother(rules, q, grouped, r);
          BetterIgnoresCount(rules, candidate, existing, existing.candidate.count + 1);
          existing := Counted(existing, existing.candidate.count + 1);
          if Better(rules, candidate, existing) { existing := Counted(candidate, existing.candidate.count); }
          grouped := grouped[key := existing];
        }
      }
    }
    assert records[..|records|] == records;
    hide Grouped, Keys;
    selection := Select(rules, q, Sort(Map(order, ValueAt(grouped)), Stronger(rules)), limit);
  }
}
