// What the history selection shows, stated over the past bookings: which ones fit, how they match, how
// they are grouped, in which order the groups come and what they say about a proposal.
module HistoryMeaning {
  import opened Sequences
  import opened Sorting
  import opened ImportRows
  import opened ImportHistory

  // ---- one past booking ---------------------------------------------------------------------------

  predicate MoneyIn(a: Assignment) { a.entryType == IncomeEntry || a.isRefund }

  /** The booking agrees with what the proposal shows: account, currency, and type or direction. */
  predicate Fits(rules: TextRules, q: Query, r: Record) {
    var a := r.evidence.assignment;
    && r.accountId == q.accountId
    && q.currency.Some? && rules.upper(q.currency.value) == rules.upper(r.currency)
    && (a.entryType == TransferEntry <==> q.semanticKind == InternalTransfer)
    && (a.entryType == TransferEntry ==>
      a.toAccountId.Some? && a.toAccountId.value != q.accountId && a.toAccountId.value in q.ownedAccountIds)
    && (a.entryType != TransferEntry ==>
      && (q.direction == Some(Debit) ==> !MoneyIn(a))
      && (q.direction == Some(Credit) ==> MoneyIn(a))
      && (q.direction == None ==>
        q.entryType == Some(a.entryType) && (a.entryType == ExpenseEntry ==> a.isRefund == q.isRefund)))
  }

  /** What it would assign; the destination only counts for transfers. */
  function Offered(r: Record): Evidence {
    var a := r.evidence.assignment;
    if a.entryType == TransferEntry then r.evidence else r.evidence.(assignment := a.(toAccountId := None))
  }

  predicate SameRow(rules: TextRules, q: Query, e: Evidence) {
    rules.norm(Some(q.rawPlace)) != "" && rules.norm(e.sourceRef) == rules.norm(Some(q.rawPlace))
  }

  /** The booking's source names the merchant that was booked. */
  predicate NamesOwnMerchant(rules: TextRules, e: Evidence) {
    exists v :: v in {e.tag, e.assignment.place} &&
      rules.threeLetters(rules.norm(v)) && rules.mentions(rules.norm(e.sourceRef), rules.norm(v))
  }

  predicate SameLine(rules: TextRules, q: Query, e: Evidence) {
    rules.norm(e.sourceRef) != "" && rules.norm(e.sourceRef) in rules.lines(q.rawPlace) && NamesOwnMerchant(rules, e)
  }

  predicate SameMerchant(rules: TextRules, q: Query, e: Evidence) {
    exists v :: v in {e.tag, e.assignment.place} && rules.threeLetters(rules.norm(v)) &&
      (rules.norm(v) == rules.norm(q.tag) || rules.norm(v) in rules.lines(q.rawPlace))
  }

  function Likeness(rules: TextRules, q: Query, v: Option<string>): real {
    rules.similarity(rules.norm(Some(q.rawPlace)), rules.norm(v))
  }

  predicate LikeSource(rules: TextRules, q: Query, e: Evidence) {
    rules.norm(e.sourceRef) != "" && Likeness(rules, q, e.sourceRef) >= 0.3
  }

  predicate LikeText(rules: TextRules, q: Query, e: Evidence) {
    exists v :: v in {e.assignment.place, e.tag, e.assignment.name} && Likeness(rules, q, v) >= 0.3
  }

  /** The first of the five ways in which it matches. */
  predicate MatchesBy(rules: TextRules, q: Query, e: Evidence, m: Match) {
    match m
    case ExactSourceRef => SameRow(rules, q, e)
    case ContainedSourceRef => !SameRow(rules, q, e) && SameLine(rules, q, e)
    case MerchantIdentity => !SameRow(rules, q, e) && !SameLine(rules, q, e) && SameMerchant(rules, q, e)
    case SourceSimilarity =>
      !SameRow(rules, q, e) && !SameLine(rules, q, e) && !SameMerchant(rules, q, e) && LikeSource(rules, q, e)
    case FuzzySimilarity =>
      !SameRow(rules, q, e) && !SameLine(rules, q, e) && !SameMerchant(rules, q, e) && !LikeSource(rules, q, e) &&
      LikeText(rules, q, e)
  }

  lemma MerchantsMean(rules: TextRules, q: Query, e: Evidence)
    ensures NamesOwnMerchant(rules, e) <==> SourceHasMerchant(rules, rules.norm(e.sourceRef), e)
    ensures SameMerchant(rules, q, e) <==> IsMerchant(rules, q, e.tag) || IsMerchant(rules, q, e.assignment.place)
  {
    assert e.tag in {e.tag, e.assignment.place} && e.assignment.place in {e.tag, e.assignment.place};
  }

  lemma WaysMean(rules: TextRules, q: Query, e: Evidence)
    ensures var raw, source := rules.norm(Some(q.rawPlace)), rules.norm(e.sourceRef);
      && (SameRow(rules, q, e) <==> raw != "" && raw == source)
      && (SameLine(rules, q, e) <==>
        source != "" && source in rules.lines(q.rawPlace) && SourceHasMerchant(rules, source, e))
      && (SameMerchant(rules, q, e) <==> IsMerchant(rules, q, e.tag) || IsMerchant(rules, q, e.assignment.place))
      && (LikeSource(rules, q, e) <==> SourceScore(rules, q, e) >= MIN_SIMILARITY)
      && (LikeText(rules, q, e) <==> FuzzyScore(rules, q, e) >= MIN_SIMILARITY)
  {
    MerchantsMean(rules, q, e);
    LikeTextMeans(rules, q, e);
    hide NamesOwnMerchant, SourceHasMerchant, SameMerchant, IsMerchant, FuzzyScore, LikeText;
  }

  lemma MatchMeans(rules: TextRules, q: Query, e: Evidence, m: Match)
    ensures MatchOf(rules, q, e) == Some(m) <==> MatchesBy(rules, q, e, m)
  {
    WaysMean(rules, q, e);
    hide SameRow, SameLine, SameMerchant, LikeSource, LikeText, SourceHasMerchant, IsMerchant, SourceScore, FuzzyScore;
  }

  lemma LikeTextMeans(rules: TextRules, q: Query, e: Evidence)
    ensures LikeText(rules, q, e) <==> FuzzyScore(rules, q, e) >= MIN_SIMILARITY
  {
    var place, tag, name :=
      Likeness(rules, q, e.assignment.place), Likeness(rules, q, e.tag), Likeness(rules, q, e.assignment.name);
    assert FuzzyScore(rules, q, e) == MaxReal(MaxReal(place, tag), name);
    if place >= 0.3 { assert LikeText(rules, q, e); }
    if tag >= 0.3 { assert LikeText(rules, q, e); }
    if name >= 0.3 { assert LikeText(rules, q, e); }
  }

  lemma FitsMeans(rules: TextRules, q: Query, r: Record)
    ensures CompatibleWithVisibleFacts(rules, q, r) <==> Fits(rules, q, r)
    ensures Offered(r) == EvidenceOf(r)
  {
  }

  // ---- strength -----------------------------------------------------------------------------------

  /**
   * A match of the whole row is strongest, then one that names the merchant, then likeness to a source, then to a
   * text.
   */
  predicate TierAbove(m: Match, n: Match) {
    match m
    case ExactSourceRef => n != ExactSourceRef
    case ContainedSourceRef => n == SourceSimilarity || n == FuzzySimilarity
    case MerchantIdentity => n == SourceSimilarity || n == FuzzySimilarity
    case SourceSimilarity => n == FuzzySimilarity
    case FuzzySimilarity => false
  }

  function Larger(a: real, b: real): real { if a >= b then a else b }

  /** The greatest likeness of the row to the source, place, tag or name of the evidence. */
  function Closeness(rules: TextRules, q: Query, e: Evidence): (x: real)
    ensures forall v :: v in {e.assignment.place, e.tag, e.assignment.name} ==> x >= Likeness(rules, q, v)
    ensures rules.norm(e.sourceRef) != "" ==> x >= Likeness(rules, q, e.sourceRef)
  {
    var text := Larger(Likeness(rules, q, e.assignment.place),
                       Larger(Likeness(rules, q, e.tag), Likeness(rules, q, e.assignment.name)));
    Larger(text, if rules.norm(e.sourceRef) == "" then 0.0 else Likeness(rules, q, e.sourceRef))
  }

  /** Of two bookings that would assign the same, the evidence of the first is the stronger. */
  predicate Beats(rules: TextRules, q: Query, m: Match, e: Evidence, n: Match, f: Evidence) {
    var x, y := Closeness(rules, q, e), Closeness(rules, q, f);
    TierAbove(m, n) ||
    (!TierAbove(n, m) && (x > y || (x == y && e != f && rules.evidenceAtMost(e, f))))
  }

  /** The order in which the groups are shown. */
  predicate Ahead(rules: TextRules, q: Query, a: Candidate, b: Candidate) {
    var x, y := Closeness(rules, q, a.evidence), Closeness(rules, q, b.evidence);
    TierAbove(a.match_, b.match_) ||
    (!TierAbove(b.match_, a.match_) &&
     (x > y || (x == y &&
      (a.count > b.count ||
       (a.count == b.count && rules.assignmentAtMost(a.evidence.assignment, b.evidence.assignment))))))
  }

  lemma TiersAreRanks(m: Match, n: Match)
    ensures TierAbove(m, n) <==> MatchRank(m) > MatchRank(n)
  {
  }

  lemma ClosenessIsScore(rules: TextRules, q: Query, e: Evidence)
    ensures Closeness(rules, q, e) == MaxReal(SourceScore(rules, q, e), FuzzyScore(rules, q, e))
  {
  }

  // ---- the groups ---------------------------------------------------------------------------------

  /** The booking fits, matches somehow and would assign this. */
  predicate Offers(rules: TextRules, q: Query, r: Record, key: Assignment) {
    Fits(rules, q, r) && Offered(r).assignment == key && exists m :: MatchesBy(rules, q, Offered(r), m)
  }

  function Offering(rules: TextRules, q: Query, key: Assignment): Record -> bool {
    (r: Record) => Offers(rules, q, r, key)
  }

  /** A group: the number of bookings that offer the assignment, and the strongest evidence among them. */
  ghost predicate Stands(rules: TextRules, q: Query, records: seq<Record>, c: Candidate) {
    var key := c.evidence.assignment;
    && MatchesBy(rules, q, c.evidence, c.match_)
    && c.count == |Filter(records, Offering(rules, q, key))|
    && (exists r :: r in records && Offers(rules, q, r, key) && Offered(r) == c.evidence)
    && (forall r, m :: r in records && Offers(rules, q, r, key) && MatchesBy(rules, q, Offered(r), m) ==>
      !Beats(rules, q, m, Offered(r), c.match_, c.evidence))
  }

  ghost predicate KeysDiffer(list: seq<Candidate>) {
    forall i, j :: 0 <= i < j < |list| ==> list[i].evidence.assignment != list[j].evidence.assignment
  }

  /** One group for every assignment that some booking offers, strongest first. */
  ghost predicate GroupsStand(rules: TextRules, q: Query, records: seq<Record>, list: seq<Candidate>) {
    && KeysDiffer(list)
    && (forall c :: c in list ==> Stands(rules, q, records, c))
    && (forall r, key :: r in records && Offers(rules, q, r, key) ==>
      exists c :: c in list && c.evidence.assignment == key)
    && (forall i, j :: 0 <= i < j < |list| ==> Ahead(rules, q, list[i], list[j]))
  }

  lemma CountsMean(rules: TextRules, q: Query, r: Record)
    ensures forall key :: CountsIn(rules, q, key)(r) <==> Offers(rules, q, r, key)
  {
    FitsMeans(rules, q, r);
    if MatchOf(rules, q, EvidenceOf(r)).Some? {
      MatchMeans(rules, q, EvidenceOf(r), MatchOf(rules, q, EvidenceOf(r)).value);
    }
    forall m | MatchesBy(rules, q, Offered(r), m) ensures MatchOf(rules, q, EvidenceOf(r)) == Some(m) {
      MatchMeans(rules, q, Offered(r), m);
    }
    hide MatchOf, MatchesBy, Fits, CompatibleWithVisibleFacts, Offered, EvidenceOf;
  }

  lemma BeatsMeans(rules: TextRules, q: Query, r: Record, e: Entry, m: Match)
    requires Counts(rules, q, r) && Genuine(rules, q, e) && MatchesBy(rules, q, Offered(r), m)
    ensures Better(rules, EntryFor(rules, q, r), e) <==>
      Beats(rules, q, m, Offered(r), e.candidate.match_, e.candidate.evidence)
  {
    FitsMeans(rules, q, r);
    MatchMeans(rules, q, Offered(r), m);
    TiersAreRanks(m, e.candidate.match_);
    TiersAreRanks(e.candidate.match_, m);
    ClosenessIsScore(rules, q, Offered(r));
    ClosenessIsScore(rules, q, e.candidate.evidence);
    hide MatchOf, MatchesBy, TierAbove, MatchRank, Closeness, SourceScore, FuzzyScore, Offered,
      CompatibleWithVisibleFacts,
      MaxReal;
  }

  lemma GroupStands(rules: TextRules, q: Query, records: seq<Record>, key: Assignment, e: Entry)
    requires Represents(rules, q, records, key, e) && Genuine(rules, q, e) && e.candidate.evidence.assignment == key
    ensures Stands(rules, q, records, e.candidate)
  {
    var c := e.candidate;
    MatchMeans(rules, q, c.evidence, c.match_);
    forall r | r in records ensures CountsIn(rules, q, key)(r) <==> Offering(rules, q, key)(r) {
      CountsMean(rules, q, r);
    }
    FilterAgrees(records, CountsIn(rules, q, key), Offering(rules, q, key));
    forall r ensures Offered(r) == EvidenceOf(r) { FitsMeans(rules, q, r); }
    forall r, m | r in records && Offers(rules, q, r, key) && MatchesBy(rules, q, Offered(r), m)
      ensures !Beats(rules, q, m, Offered(r), c.match_, c.evidence)
    {
      CountsMean(rules, q, r);
      assert CountsIn(rules, q, key)(r);
      BeatsMeans(rules, q, r, e, m);
    }
    hide Filter, Offers, Beats, Better, Genuine, MatchesBy, Offered, EvidenceOf, Counts;
  }

  lemma OrderStands(rules: TextRules, q: Query, a: Entry, b: Entry)
    requires Genuine(rules, q, a) && Genuine(rules, q, b) && Stronger(rules)(a, b)
    ensures Ahead(rules, q, a.candidate, b.candidate)
  {
    TiersAreRanks(a.candidate.match_, b.candidate.match_);
    TiersAreRanks(b.candidate.match_, a.candidate.match_);
    ClosenessIsScore(rules, q, a.candidate.evidence);
    ClosenessIsScore(rules, q, b.candidate.evidence);
    hide MatchOf, TierAbove, MatchRank, Closeness, SourceScore, FuzzyScore, MaxReal;
  }

  /** The entries of the groups, in any order. */
  lemma ValuesStand(rules: TextRules, q: Query, records: seq<Record>, values: seq<Entry>)
    requires values == Map(Keys(rules, q, records), ValueAt(Grouped(rules, q, records)))
    ensures EachOnce(values)
    ensures forall e :: e in values <==>
      exists key :: key in Grouped(rules, q, records) && e == Grouped(rules, q, records)[key]
  {
    var keys, groups := Keys(rules, q, records), Grouped(rules, q, records);
    KeysMean(rules, q, records);
    GroupedGenuine(rules, q, records);
    hide Keys, Grouped, Genuine;
    forall i, j | 0 <= i < j < |values| ensures values[i] != values[j] {
      assert keys[i] in keys && keys[j] in keys;
    }
    forall key | key in groups ensures groups[key] in values {
      var i :| 0 <= i < |keys| && keys[i] == key;
      assert values[i] == groups[key];
    }
    forall e | e in values ensures exists key :: key in groups && e == groups[key] {
      var i :| 0 <= i < |values| && values[i] == e;
      assert keys[i] in keys;
    }
  }

  lemma EntriesStand(rules: TextRules, q: Query, records: seq<Record>, ranked: seq<Entry>)
    requires Serialised(rules) && ranked == Ranked(rules, q, records)
    ensures Ordered(ranked, Stronger(rules)) && EachOnce(ranked)
    ensures forall e :: e in ranked <==>
      exists key :: key in Grouped(rules, q, records) && e == Grouped(rules, q, records)[key]
    ensures AllGenuine(rules, q, Grouped(rules, q, records))
  {
    var values := Map(Keys(rules, q, records), ValueAt(Grouped(rules, q, records)));
    assert ranked == Sort(values, Stronger(rules));
    hide *;
    ValuesStand(rules, q, records, values);
    GroupedGenuine(rules, q, records);
    StrongerIsTotal(rules);
    SortOrdered(values, Stronger(rules));
    SortKeeps(values, Stronger(rules));
    SameElements(values, ranked);
    SameElements(ranked, values);
    EachOncePermuted(values, ranked);
  }

  lemma EntryStands(rules: TextRules, q: Query, records: seq<Record>, e: Entry)
    requires Serialised(rules) && e in Ranked(rules, q, records)
    ensures Genuine(rules, q, e) && Stands(rules, q, records, e.candidate)
    ensures var key := e.candidate.evidence.assignment;
      key in Grouped(rules, q, records) && Grouped(rules, q, records)[key] == e
  {
    EntriesStand(rules, q, records, Ranked(rules, q, records));
    GroupsRepresent(rules, q, records);
    hide Ranked, Grouped, Genuine, Represents, Stands, Serialised;
    var key :| key in Grouped(rules, q, records) && e == Grouped(rules, q, records)[key];
    GroupStands(rules, q, records, key, e);
  }

  lemma OfferIsListed(rules: TextRules, q: Query, records: seq<Record>, r: Record, key: Assignment)
    requires Serialised(rules) && r in records && Offers(rules, q, r, key)
    ensures exists e :: e in Ranked(rules, q, records) && e.candidate.evidence.assignment == key
  {
    EntriesStand(rules, q, records, Ranked(rules, q, records));
    GroupsRepresent(rules, q, records);
    CountsMean(rules, q, r);
    FilterMember(records, CountsIn(rules, q, key), r);
    hide Ranked, Grouped, Genuine, Represents, Serialised, Filter, Offers, CountsIn;
    assert key in Grouped(rules, q, records);
    assert Grouped(rules, q, records)[key] in Ranked(rules, q, records);
  }

  lemma ListIs(ranked: seq<Entry>, list: seq<Candidate>)
    requires list == Map(ranked, CandidateOf())
    ensures |list| == |ranked|
    ensures forall i :: 0 <= i < |list| ==> list[i] == ranked[i].candidate && ranked[i] in ranked && list[i] in list
    ensures forall c :: c in list ==> exists e :: e in ranked && e.candidate == c
    ensures forall e :: e in ranked ==> e.candidate in list
  {
    forall c | c in list ensures exists e :: e in ranked && e.candidate == c {
      var i :| 0 <= i < |list| && list[i] == c;
      assert ranked[i] in ranked;
    }
    forall e | e in ranked ensures e.candidate in list {
      var i :| 0 <= i < |ranked| && ranked[i] == e;
      assert list[i] in list;
    }
  }

  lemma KeysStand(rules: TextRules, q: Query, records: seq<Record>, i: nat, j: nat)
    requires Serialised(rules) && i < j < |Ranked(rules, q, records)|
    ensures var a, b := Ranked(rules, q, records)[i], Ranked(rules, q, records)[j];
      && a.candidate.evidence.assignment != b.candidate.evidence.assignment
      && Ahead(rules, q, a.candidate, b.candidate)
  {
    var ranked := Ranked(rules, q, records);
    EntriesStand(rules, q, records, ranked);
    hide Ranked, Grouped, Genuine, Stands, Serialised, Stronger, Ahead;
    assert ranked[i] in ranked && ranked[j] in ranked;
    EntryStands(rules, q, records, ranked[i]);
    EntryStands(rules, q, records, ranked[j]);
    OrderStands(rules, q, ranked[i], ranked[j]);
  }

  lemma RankedStand(rules: TextRules, q: Query, records: seq<Record>)
    requires Serialised(rules)
    ensures GroupsStand(rules, q, records, Map(Ranked(rules, q, records), CandidateOf()))
  {
    hide Ranked, Grouped, Genuine, Stands, Ahead, Serialised, Offers, Map;
    var ranked := Ranked(rules, q, records);
    var list := Map(ranked, CandidateOf());
    ListIs(ranked, list);
    forall i, j | 0 <= i < j < |list|
      ensures list[i].evidence.assignment != list[j].evidence.assignment && Ahead(rules, q, list[i], list[j])
    {
      KeysStand(rules, q, records, i, j);
    }
    forall c | c in list ensures Stands(rules, q, records, c) {
      var e :| e in ranked && e.candidate == c;
      EntryStands(rules, q, records, e);
    }
    forall r, key | r in records && Offers(rules, q, r, key)
      ensures exists c :: c in list && c.evidence.assignment == key
    {
      OfferIsListed(rules, q, records, r, key);
    }
  }

  // ---- what is shown ------------------------------------------------------------------------------

  /** Evidence that names the merchant, not mere likeness. */
  predicate Backed(rules: TextRules, c: Candidate) {
    c.match_ == MerchantIdentity || c.match_ == ContainedSourceRef ||
    (c.match_ == ExactSourceRef && NamesOwnMerchant(rules, c.evidence))
  }

  /** Merchant-backed groups hide the others. */
  ghost predicate Shown(rules: TextRules, list: seq<Candidate>, shown: seq<Candidate>) {
    if exists c :: c in list && Backed(rules, c)
    then shown == Filter(list, (c: Candidate) => Backed(rules, c)) else shown == list
  }

  function Said(rules: TextRules, f: Field, c: Candidate): Option<string> {
    var a := c.evidence.assignment;
    var value :=
      match f case NameField => a.name case PlaceField => a.place case EnvelopeField => a.envelope
      case CategoryField => a.category;
    if value.None? || rules.trim(value.value) == "" then None else Some(rules.trim(value.value))
  }

  ghost predicate Disagree(rules: TextRules, f: Field, shown: seq<Candidate>) {
    exists c, d :: c in shown && d in shown && Said(rules, f, c) != Said(rules, f, d)
  }

  predicate AllSay(rules: TextRules, f: Field, shown: seq<Candidate>, value: string) {
    shown != [] && forall c :: c in shown ==> Said(rules, f, c) == Some(value)
  }

  /** Some group moved the money in another way than the proposal. */
  ghost predicate OtherMoney(q: Query, shown: seq<Candidate>) {
    exists c :: c in shown &&
      !(q.entryType == Some(c.evidence.assignment.entryType) && q.isRefund == c.evidence.assignment.isRefund &&
        q.toAccountId == c.evidence.assignment.toAccountId)
  }

  /** What all groups say, null where they disagree, nothing otherwise; a disagreement about names is no news. */
  ghost predicate FieldStands(
    rules: TextRules, f: Field, speaks: bool, shown: seq<Candidate>, said: Option<Option<string>>)
  {
    && (forall value: string :: said == Some(Some(value)) <==> speaks && AllSay(rules, f, shown, value))
    && (said == Some(None) <==> speaks && f != NameField && Disagree(rules, f, shown))
  }

  ghost predicate SelectionStands(rules: TextRules, q: Query, list: seq<Candidate>, limit: Option<int>, s: Selection) {
    exists shown ::
      Shown(rules, list, shown) && ShownStands(rules, q, exists c :: c in list && Backed(rules, c), shown, limit, s)
  }

  /** The first groups, whether they conflict, and what they say of each field. */
  ghost predicate ShownStands(
    rules: TextRules, q: Query, backed: bool, shown: seq<Candidate>, limit: Option<int>, s: Selection)
  {
    var speaks := backed && !OtherMoney(q, shown);
    && s.candidates <= shown && |s.candidates| == Cut(limit, |shown|)
    && (s.conflict <==> backed && (Disputed(rules, shown) || (q.entryType.Some? && OtherMoney(q, shown))))
    && FieldStands(rules, NameField, speaks, shown, s.metadata.name)
    && FieldStands(rules, PlaceField, speaks, shown, s.metadata.place)
    && FieldStands(rules, EnvelopeField, speaks, shown, s.metadata.envelope)
    && FieldStands(rules, CategoryField, speaks, shown, s.metadata.category)
  }

  ghost predicate Disputed(rules: TextRules, shown: seq<Candidate>) {
    || Disagree(rules, PlaceField, shown) || Disagree(rules, EnvelopeField, shown)
    || Disagree(rules, CategoryField, shown)
  }

  /** At most five groups, and at most as many as asked for. */
  function Cut(limit: Option<int>, size: nat): nat {
    var asked := if limit.Some? && limit.value < 5 then limit.value else 5;
    if asked < 0 then 0 else if size < asked then size else asked
  }

  lemma BackedMeans(rules: TextRules, q: Query, e: Entry)
    ensures IsStrong(rules)(e) <==> Backed(rules, e.candidate)
  {
    MerchantsMean(rules, q, e.candidate.evidence);
    hide NamesOwnMerchant, SourceHasMerchant;
  }

  lemma {:induction false} FilterBefore<A, B>(s: seq<A>, f: A -> B, p: B -> bool, r: A -> bool)
    requires forall x :: x in s ==> (r(x) <==> p(f(x)))
    ensures Map(Filter(s, r), f) == Filter(Map(s, f), p)
  {
    if s != [] {
      var n := |s| - 1;
      FilterBefore(s[..n], f, p, r);
      LastSplit(s);
      FilterOneMore(s[..n], s[n], r);
      assert Map(s, f) == Map(s[..n], f) + [f(s[n])];
      FilterOneMore(Map(s[..n], f), f(s[n]), p);
      hide Filter;
      if r(s[n]) { assert Map(Filter(s, r), f) == Map(Filter(s[..n], r), f) + [f(s[n])]; }
    }
  }

  lemma ShownIs(rules: TextRules, q: Query, ranked: seq<Entry>)
    ensures var list, backed := Map(ranked, CandidateOf()), Filter(ranked, IsStrong(rules));
      && (backed != [] <==> exists c :: c in list && Backed(rules, c))
      && Shown(rules, list, Map(if backed != [] then backed else ranked, CandidateOf()))
  {
    var list, backed := Map(ranked, CandidateOf()), Filter(ranked, IsStrong(rules));
    forall e | e in ranked ensures IsStrong(rules)(e) <==> Backed(rules, CandidateOf()(e)) { BackedMeans(rules, q, e); }
    FilterBefore(ranked, CandidateOf(), (c: Candidate) => Backed(rules, c), IsStrong(rules));
    hide IsStrong, Backed;
    if c :| c in list && Backed(rules, c) {
      var i :| 0 <= i < |list| && list[i] == c;
      FilterMember(ranked, IsStrong(rules), ranked[i]);
    }
    if backed != [] {
      FilterMember(ranked, IsStrong(rules), backed[0]);
      var i :| 0 <= i < |ranked| && ranked[i] == backed[0];
      assert list[i] in list;
    }
    hide Filter;
  }

  lemma SaidIs(rules: TextRules, f: Field, c: Candidate)
    ensures Said(rules, f, c) == Trimmed(rules, FieldOf(f, c))
  {
  }

  lemma ValuesDiffer(rules: TextRules, f: Field, shown: seq<Candidate>)
    ensures |FieldValues(rules, f, shown)| > 1 <==> Disagree(rules, f, shown)
  {
    var values := FieldValues(rules, f, shown);
    forall c ensures Said(rules, f, c) == Trimmed(rules, FieldOf(f, c)) { SaidIs(rules, f, c); }
    hide Said, Trimmed, FieldOf;
    if c, d :| c in shown && d in shown && Said(rules, f, c) != Said(rules, f, d) {
      var x, y := Said(rules, f, c), Said(rules, f, d);
      assert {x, y} <= values && |{x, y}| == 2;
      WithinIsSmaller({x, y}, values);
    }
    if |values| > 1 {
      var x :| x in values;
      assert |values - {x}| > 0;
      var y :| y in values - {x};
      var c :| c in shown && Said(rules, f, c) == x;
      var d :| d in shown && Said(rules, f, d) == y;
    }
  }

  lemma {:induction false} WithinIsSmaller<T>(a: set<T>, b: set<T>)
    requires a <= b
    ensures |a| <= |b|
  {
    assert b == a + (b - a);
  }

  lemma FieldAgrees(rules: TextRules, f: Field, speaks: bool, shown: seq<Candidate>)
    ensures FieldStands(rules, f, speaks, shown, if speaks then Agreed(rules, f, shown) else None)
  {
    var values := FieldValues(rules, f, shown);
    ValuesDiffer(rules, f, shown);
    forall c ensures Said(rules, f, c) == Trimmed(rules, FieldOf(f, c)) { SaidIs(rules, f, c); }
    hide Said, Trimmed, FieldOf;
    if shown != [] {
      assert shown[0] in shown;
      assert Said(rules, f, shown[0]) in values;
      if !Disagree(rules, f, shown) { assert values == {Said(rules, f, shown[0])}; }
    } else {
      assert values == {};
    }
  }

  lemma MoneyMeans(q: Query, shown: seq<Candidate>)
    ensures MoneyConflict(q, shown) <==> OtherMoney(q, shown)
  {
  }

  lemma CutIs(limit: Option<int>, size: nat)
    ensures Cut(limit, size) == Min(size, DisplayLimit(limit))
  {
  }

  predicate SeveralValues(rules: TextRules, shown: seq<Candidate>) {
    exists f :: f in {PlaceField, EnvelopeField, CategoryField} && |FieldValues(rules, f, shown)| > 1
  }

  lemma FieldsDisputed(rules: TextRules, shown: seq<Candidate>)
    ensures SeveralValues(rules, shown) <==> Disputed(rules, shown)
  {
    ValuesDiffer(rules, PlaceField, shown);
    ValuesDiffer(rules, EnvelopeField, shown);
    ValuesDiffer(rules, CategoryField, shown);
    hide Disagree;
    var fields := {PlaceField, EnvelopeField, CategoryField};
    assert PlaceField in fields && EnvelopeField in fields && CategoryField in fields;
  }

  lemma SelectIs(rules: TextRules, q: Query, ranked: seq<Entry>, limit: Option<int>, shown: seq<Candidate>)
    requires var strong := Filter(ranked, IsStrong(rules));
      shown == Map(if strong != [] then strong else ranked, CandidateOf())
    ensures var s, strong := Select(rules, q, ranked, limit), Filter(ranked, IsStrong(rules)) != [];
      var speaks := strong && !MoneyConflict(q, shown);
      && s.candidates == shown[..Min(|shown|, DisplayLimit(limit))]
      && (s.conflict <==> strong && (SeveralValues(rules, shown) || (q.entryType.Some? && MoneyConflict(q, shown))))
      && s.metadata.name == (if speaks then Agreed(rules, NameField, shown) else None)
      && s.metadata.place == (if speaks then Agreed(rules, PlaceField, shown) else None)
      && s.metadata.envelope == (if speaks then Agreed(rules, EnvelopeField, shown) else None)
      && s.metadata.category == (if speaks then Agreed(rules, CategoryField, shown) else None)
  {
    hide Filter, MoneyConflict, FieldValues, Agreed, DisplayLimit, IsStrong;
  }

  lemma SelectStands(rules: TextRules, q: Query, ranked: seq<Entry>, limit: Option<int>)
    ensures SelectionStands(rules, q, Map(ranked, CandidateOf()), limit, Select(rules, q, ranked, limit))
  {
    hide Filter, Shown, Backed, OtherMoney, MoneyConflict, Disputed, FieldStands, SeveralValues, Agreed, Cut,
      DisplayLimit,
      Select, IsStrong;
    var strong := Filter(ranked, IsStrong(rules));
    var shown := Map(if strong != [] then strong else ranked, CandidateOf());
    var speaks := strong != [] && !OtherMoney(q, shown);
    ShownIs(rules, q, ranked);
    SelectIs(rules, q, ranked, limit, shown);
    MoneyMeans(q, shown);
    CutIs(limit, |shown|);
    FieldsDisputed(rules, shown);
    FieldAgrees(rules, NameField, speaks, shown);
    FieldAgrees(rules, PlaceField, speaks, shown);
    FieldAgrees(rules, EnvelopeField, speaks, shown);
    FieldAgrees(rules, CategoryField, speaks, shown);
    assert ShownStands(rules, q, strong != [], shown, limit, Select(rules, q, ranked, limit));
    hide ShownStands;
  }

  /**
   * The selection shows, of the groups of past bookings that fit and match, strongest first, the first
   * ones; groups that name the merchant hide mere likeness, and only they can prefill or conflict.
   */
  lemma HistoryMeans(rules: TextRules, q: Query, records: seq<Record>, limit: Option<int>)
    requires Serialised(rules)
    ensures exists list ::
      && GroupsStand(rules, q, records, list)
      && SelectionStands(rules, q, list, limit, Select(rules, q, Ranked(rules, q, records), limit))
  {
    hide *;
    RankedStand(rules, q, records);
    SelectStands(rules, q, Ranked(rules, q, records), limit);
  }
}
