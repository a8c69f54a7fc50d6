/** Reading an import window by window: parsing, rebasing and merging the extractions, across retries. */
module ImportChunks {
  import opened Sequences
  import opened Sorting
  import opened Decimals
  import opened ImportRows
  import opened ImportWindows

  // ---- orders and ids -----------------------------------------------------------------------------------

  predicate Before(a: Row, b: Row) {
    a.imageIndex < b.imageIndex || (a.imageIndex == b.imageIndex && a.visualOrder < b.visualOrder)
  }

  /** Screenshot order; the stable sort keeps the input order of rows it does not tell apart. */
  function ScreenshotOrder(): (Row, Row) -> bool { (a: Row, b: Row) => !Before(b, a) }

  predicate StrictlyOrdered(rows: seq<Row>) {
    forall i, j :: 0 <= i < j < |rows| ==> Before(rows[i], rows[j])
  }

  function Ids(rows: seq<Row>): set<string> { set r | r in rows :: r.rowId }

  function Concat<T>(batches: seq<seq<T>>): seq<T> {
    if batches == [] then [] else Concat(batches[..|batches| - 1]) + batches[|batches| - 1]
  }

  lemma ScreenshotOrderIsTotal()
    ensures TotalOrder(ScreenshotOrder())
  {
  }

  // ---- row ids of a window ------------------------------------------------------------------------------

  function ImportChunkRowId(chunkIndex: nat, rowId: string): string {
    "c" + Decimal(chunkIndex) + ":" + rowId
  }

  lemma ColonFollowsIndex(i: nat, a: string, k: nat)
    requires k <= |Decimal(i)|
    ensures var id := ImportChunkRowId(i, a);
      |id| == |Decimal(i)| + 2 + |a| && id[1..1 + |Decimal(i)|] == Decimal(i) && id[2 + |Decimal(i)|..] == a &&
        (id[1 + k] == ':' <==> k == |Decimal(i)|)
  {
    if k < |Decimal(i)| { assert ImportChunkRowId(i, a)[1 + k] == Decimal(i)[k]; }
  }

  /** Two windows never produce the same row id, and one window never merges two of its own. */
  lemma ChunkRowIdInjective(i: nat, a: string, j: nat, b: string)
    requires ImportChunkRowId(i, a) == ImportChunkRowId(j, b)
    ensures i == j && a == b
  {
    var least := Min(|Decimal(i)|, |Decimal(j)|);
    ColonFollowsIndex(i, a, least);
    ColonFollowsIndex(j, b, least);
    DecimalInjective(i, j);
  }

  // ---- one answer of the model --------------------------------------------------------------------------

  datatype Parsed = InvalidImageCount | RepeatedRowId | ImageOutside | Rows(rows: seq<Row>)

  function NextVisualOrder(numbered: seq<Row>, imageIndex: nat): nat {
    if numbered == [] || numbered[|numbered| - 1].imageIndex != imageIndex then 0
      else numbered[|numbered| - 1].visualOrder + 1
  }

  /** Dense visual orders, restarting at every screenshot. */
  function Renumbered(ordered: seq<Row>): (r: seq<Row>)
    ensures |r| == |ordered|
  {
    if ordered == [] then [] else
      var init := Renumbered(ordered[..|ordered| - 1]);
      var row := ordered[|ordered| - 1];
      init + [row.(visualOrder := NextVisualOrder(init, row.imageIndex), dateInferred := false)]
  }

  predicate AllInside(rows: seq<Row>, imageCount: int) { forall r :: r in rows ==> r.imageIndex < imageCount }

  function Parse(rows: seq<Row>, imageCount: int): Parsed {
    if !(1 <= imageCount <= CHUNK_SIZE) then InvalidImageCount
    else if !DistinctRows(rows) then RepeatedRowId
    else if !AllInside(rows, imageCount) then ImageOutside
    else Rows(Renumbered(Sort(rows, ScreenshotOrder())))
  }

  method HasRepeatedId(rows: seq<Row>) returns (repeated: Option<string>)
    ensures repeated.None? <==> DistinctRows(rows)
    ensures repeated.Some? ==>
      exists i, j :: 0 <= i < j < |rows| && rows[i].rowId == rows[j].rowId == repeated.value && DistinctRows(rows[..j])
  {
    var seen: set<string> := {};
    for i := 0 to |rows|
      invariant seen == Ids(rows[..i]) && DistinctRows(rows[..i])
    {
      if rows[i].rowId in seen {
        var k :| 0 <= k < i && rows[k].rowId == rows[i].rowId;
        return Some(rows[i].rowId);
      }
      assert rows[..i + 1] == rows[..i] + [rows[i]];
      seen := seen + {rows[i].rowId};
    }
    assert rows[..|rows|] == rows;
    return None;
  }

  method ParseImportExtractResponse(rows: seq<Row>, imageCount: int) returns (r: Parsed)
    ensures r == Parse(rows, imageCount)
  {
    if imageCount < 1 || imageCount > CHUNK_SIZE { return InvalidImageCount; }
    var repeated := HasRepeatedId(rows);
    if repeated.Some? { return RepeatedRowId; }
    if !AllInside(rows, imageCount) { return ImageOutside; }
    var ordered := Sort(rows, ScreenshotOrder());
    var previousImageIndex: int := -1;
    var nextVisualOrder := 0;
    var numbered: seq<Row> := [];
    for i := 0 to |ordered|
      invariant numbered == Renumbered(ordered[..i])
      invariant previousImageIndex == if i == 0 then -1 else numbered[i - 1].imageIndex
      invariant nextVisualOrder == if i == 0 then 0 else numbered[i - 1].visualOrder + 1
    {
      var row := ordered[i];
      if row.imageIndex != previousImageIndex {
        previousImageIndex := row.imageIndex;
        nextVisualOrder := 0;
      }
      assert ordered[..i + 1][..i] == ordered[..i];
      numbered := numbered + [row.(visualOrder := nextVisualOrder, dateInferred := false)];
      nextVisualOrder := nextVisualOrder + 1;
    }
    assert ordered[..|ordered|] == ordered;
    return Rows(numbered);
  }

  predicate SameButOrder(a: Row, b: Row) { a.(visualOrder := b.visualOrder, dateInferred := false) == b }

  lemma {:induction false} RenumberedKeeps(ordered: seq<Row>)
    ensures forall i :: 0 <= i < |ordered| ==> SameButOrder(ordered[i], Renumbered(ordered)[i])
  {
    if ordered != [] { RenumberedKeeps(ordered[..|ordered| - 1]); }
  }

  predicate ImagesAscend(rows: seq<Row>) {
    forall i, j :: 0 <= i < j < |rows| ==> rows[i].imageIndex <= rows[j].imageIndex
  }

  lemma {:induction false} RenumberedOrdered(ordered: seq<Row>)
    requires ImagesAscend(ordered)
    ensures StrictlyOrdered(Renumbered(ordered))
  {
    if ordered != [] {
      var n := |ordered| - 1;
      RenumberedOrdered(ordered[..n]);
      RenumberedKeeps(ordered);
      var numbered := Renumbered(ordered);
      assert numbered[..n] == Renumbered(ordered[..n]);
      forall i | 0 <= i < n ensures Before(numbered[i], numbered[n]) {
        assert SameButOrder(ordered[i], numbered[i]) && SameButOrder(ordered[n], numbered[n]);
        if numbered[i].imageIndex == numbered[n].imageIndex {
          assert SameButOrder(ordered[n - 1], numbered[n - 1]);
          assert numbered[n - 1].imageIndex == numbered[n].imageIndex;
          assert i == n - 1 || Before(numbered[i], numbered[n - 1]);
        }
      }
    }
  }

  function OfImage(image: nat): Row -> bool { (r: Row) => r.imageIndex == image }

  /** The rows of the screenshot are numbered 0, 1, 2 and so on. */
  predicate Dense(rows: seq<Row>, image: nat) {
    forall k :: 0 <= k < |Filter(rows, OfImage(image))| ==> Filter(rows, OfImage(image))[k].visualOrder == k
  }

  lemma LastOfImage(rows: seq<Row>, image: nat)
    requires rows != [] && rows[|rows| - 1].imageIndex == image
    ensures var of := Filter(rows, OfImage(image)); of != [] && of[|of| - 1] == rows[|rows| - 1]
  {
  }

  lemma AscendsToLast(rows: seq<Row>, row: Row)
    requires ImagesAscend(rows + [row])
    ensures ImagesAscend(rows) && forall i :: 0 <= i < |rows| ==> rows[i].imageIndex <= row.imageIndex
  {
    var all := rows + [row];
    assert forall i :: 0 <= i < |rows| ==> all[i] == rows[i];
    assert all[|rows|] == row;
  }

  lemma NoneOfImage(rows: seq<Row>, image: nat)
    requires rows != [] && ImagesAscend(rows) && rows[|rows| - 1].imageIndex < image
    ensures Filter(rows, OfImage(image)) == []
  {
    hide Filter;
    forall r | r in rows ensures r.imageIndex != image {
      var i :| 0 <= i < |rows| && rows[i] == r;
    }
    FilterNone(rows, OfImage(image));
  }

  lemma DenseStep(init: seq<Row>, row: Row, image: nat)
    requires ImagesAscend(init + [row]) && Dense(init, image)
    requires row.visualOrder == NextVisualOrder(init, row.imageIndex)
    ensures Dense(init + [row], image)
  {
    FilterOneMore(init, row, OfImage(image));
    AscendsToLast(init, row);
    if row.imageIndex == image && init != [] {
      if init[|init| - 1].imageIndex == image { LastOfImage(init, image); } else { NoneOfImage(init, image); }
    }
    hide Filter, ImagesAscend;
  }

  /** Whatever orders the model gave, every screenshot ends up numbered densely. */
  lemma {:induction false} RenumberedIsDense(ordered: seq<Row>, image: nat)
    requires ImagesAscend(ordered)
    ensures Dense(Renumbered(ordered), image)
  {
    if ordered != [] {
      var n := |ordered| - 1;
      RenumberedIsDense(ordered[..n], image);
      RenumberedKeeps(ordered);
      hide Dense, Filter;
      var numbered := Renumbered(ordered);
      assert numbered == numbered[..n] + [numbered[n]] && numbered[..n] == Renumbered(ordered[..n]);
      forall i, j | 0 <= i < j < |numbered| ensures numbered[i].imageIndex <= numbered[j].imageIndex {
        assert SameButOrder(ordered[i], numbered[i]) && SameButOrder(ordered[j], numbered[j]);
      }
      DenseStep(numbered[..n], numbered[n], image);
    }
  }

  lemma {:induction false} CountedOnce(rows: seq<Row>, x: Row)
    requires DistinctRows(rows)
    ensures multiset(rows)[x] <= 1
  {
    if rows != [] {
      var n := |rows| - 1;
      assert rows == rows[..n] + [rows[n]];
      CountedOnce(rows[..n], x);
      if rows[n] == x { assert x !in rows[..n]; }
    }
  }

  lemma DistinctUnderPermutation(a: seq<Row>, b: seq<Row>)
    requires DistinctRows(a) && multiset(a) == multiset(b)
    ensures DistinctRows(b) && Ids(a) == Ids(b)
  {
    SameElements(a, b);
    SameElements(b, a);
    forall i, j | 0 <= i < j < |b| ensures b[i].rowId != b[j].rowId {
      if b[i].rowId == b[j].rowId {
        assert b[i] in a && b[j] in a;
        CountedOnce(a, b[i]);
        TwiceCounted(b, i, j);
      }
    }
  }

  /** What a parsed answer promises, whatever the model sent. */
  ghost predicate ParsedBatch(rows: seq<Row>, imageCount: nat) {
    StrictlyOrdered(rows) && DistinctRows(rows) && AllInside(rows, imageCount)
  }

  lemma SameIds(a: seq<Row>, b: seq<Row>)
    requires |a| == |b| && forall i :: 0 <= i < |a| ==> a[i].rowId == b[i].rowId
    ensures Ids(a) == Ids(b) && (DistinctRows(a) ==> DistinctRows(b))
  {
    forall id | id in Ids(a) ensures id in Ids(b) {
      var i :| 0 <= i < |a| && a[i].rowId == id;
      assert b[i] in b;
    }
    forall id | id in Ids(b) ensures id in Ids(a) {
      var i :| 0 <= i < |b| && b[i].rowId == id;
      assert a[i] in a;
    }
  }

  lemma SameFacts(a: Row, b: Row)
    requires SameButOrder(a, b)
    ensures a.rowId == b.rowId && a.imageIndex == b.imageIndex
  {
  }

  lemma RenumberedFacts(sorted: seq<Row>)
    ensures forall i :: 0 <= i < |sorted| ==>
      Renumbered(sorted)[i].rowId == sorted[i].rowId && Renumbered(sorted)[i].imageIndex == sorted[i].imageIndex
  {
    RenumberedKeeps(sorted);
    hide Renumbered, SameButOrder;
    forall i | 0 <= i < |sorted|
      ensures Renumbered(sorted)[i].rowId == sorted[i].rowId && Renumbered(sorted)[i].imageIndex == sorted[i].imageIndex
    {
      SameFacts(sorted[i], Renumbered(sorted)[i]);
    }
  }

  lemma RenumberedMeans(sorted: seq<Row>, imageCount: nat)
    requires ImagesAscend(sorted) && DistinctRows(sorted) && AllInside(sorted, imageCount)
    ensures ParsedBatch(Renumbered(sorted), imageCount) && Ids(Renumbered(sorted)) == Ids(sorted)
  {
    RenumberedOrdered(sorted);
    RenumberedFacts(sorted);
    hide Renumbered, StrictlyOrdered, ImagesAscend, DistinctRows, Ids;
    var parsed := Renumbered(sorted);
    SameIds(sorted, parsed);
    forall r | r in parsed ensures r.imageIndex < imageCount {
      var i :| 0 <= i < |parsed| && parsed[i] == r;
      assert sorted[i] in sorted;
    }
  }

  lemma OrderedImages(rows: seq<Row>)
    requires Ordered(rows, ScreenshotOrder())
    ensures ImagesAscend(rows)
  {
    forall i, j | 0 <= i < j < |rows| ensures rows[i].imageIndex <= rows[j].imageIndex {
      assert ScreenshotOrder()(rows[i], rows[j]);
    }
  }

  /** Parsing keeps every row, in screenshot order, with its id and facts, and numbers every screenshot densely. */
  lemma {:induction false} ParseMeans(rows: seq<Row>, imageCount: nat)
    requires Parse(rows, imageCount).Rows?
    ensures var sorted, parsed := Sort(rows, ScreenshotOrder()), Parse(rows, imageCount).rows;
      && ParsedBatch(parsed, imageCount) && Ids(parsed) == Ids(rows) && |parsed| == |sorted|
      && multiset(sorted) == multiset(rows) && Ordered(sorted, ScreenshotOrder())
      && (forall i :: 0 <= i < |sorted| ==> SameButOrder(sorted[i], parsed[i]))
      && forall image :: Dense(parsed, image)
  {
    var sorted := Sort(rows, ScreenshotOrder());
    ScreenshotOrderIsTotal();
    SortKeeps(rows, ScreenshotOrder());
    SortOrdered(rows, ScreenshotOrder());
    OrderedImages(sorted);
    DistinctUnderPermutation(rows, sorted);
    SameElements(sorted, rows);
    RenumberedKeeps(sorted);
    hide Sort, Renumbered, Ordered, TotalOrder, DistinctRows, StrictlyOrdered, SameButOrder, ImagesAscend;
    RenumberedMeans(sorted, imageCount);
    hide Dense;
    forall image ensures Dense(Renumbered(sorted), image) { RenumberedIsDense(sorted, image); }
  }

  // ---- rebasing onto the whole import -------------------------------------------------------------------

  function AfterOverlap(w: Window): Row -> bool { (r: Row) => r.imageIndex >= w.leadOverlap }

  function RebasedRelation(relation: Option<Relation>, w: Window, ids: set<string>): Option<Relation> {
    if relation.Some? && relation.value.rowId in ids
    then Some(Relation(relation.value.kind, ImportChunkRowId(w.index, relation.value.rowId)))
    else None
  }

  function RebasedRow(w: Window, ids: set<string>): Row -> Row {
    (r: Row) => r.(rowId := ImportChunkRowId(w.index, r.rowId), imageIndex := r.imageIndex + w.start,
                   relation := RebasedRelation(r.relation, w, ids))
  }

  function RebaseChunkBatch(rows: seq<Row>, w: Window, chunkCount: nat): seq<Row> {
    if chunkCount <= 1 && w.start == 0 then rows
    else
      var kept := Filter(rows, AfterOverlap(w));
      Map(kept, RebasedRow(w, Ids(kept)))
  }

  ghost predicate FromChunk(id: string, index: nat) { exists inner :: id == ImportChunkRowId(index, inner) }

  predicate RelationsResolve(rows: seq<Row>) {
    forall r :: r in rows && r.relation.Some? ==> r.relation.value.rowId in Ids(rows)
  }

  /** What a window contributes to an import: only screenshots it owns, only its own ids. */
  ghost predicate OwnedBatch(rows: seq<Row>, w: Window) {
    && StrictlyOrdered(rows) && DistinctRows(rows) && RelationsResolve(rows)
    && forall r :: r in rows ==> Owns(w, r.imageIndex) && FromChunk(r.rowId, w.index)
  }

  function StrictlyBefore(): (Row, Row) -> bool { (a: Row, b: Row) => Before(a, b) }

  function OtherId(): (Row, Row) -> bool { (a: Row, b: Row) => a.rowId != b.rowId }

  lemma FilterKeepsOrder(rows: seq<Row>, p: Row -> bool)
    requires StrictlyOrdered(rows)
    ensures StrictlyOrdered(Filter(rows, p))
  {
    hide Before;
    FilterOrdered(rows, p, StrictlyBefore());
    hide Filter;
    var kept := Filter(rows, p);
    forall i, j | 0 <= i < j < |kept| ensures Before(kept[i], kept[j]) { assert StrictlyBefore()(kept[i], kept[j]); }
  }

  lemma FilterKeepsDistinct(rows: seq<Row>, p: Row -> bool)
    requires DistinctRows(rows)
    ensures DistinctRows(Filter(rows, p))
  {
    FilterOrdered(rows, p, OtherId());
    hide Filter;
    var kept := Filter(rows, p);
    forall i, j | 0 <= i < j < |kept| ensures kept[i].rowId != kept[j].rowId { assert OtherId()(kept[i], kept[j]); }
  }

  lemma RebaseKeepsOrder(kept: seq<Row>, w: Window, ids: set<string>)
    requires StrictlyOrdered(kept) && DistinctRows(kept)
    ensures StrictlyOrdered(Map(kept, RebasedRow(w, ids))) && DistinctRows(Map(kept, RebasedRow(w, ids)))
  {
    var out := Map(kept, RebasedRow(w, ids));
    forall i, j | 0 <= i < j < |out| ensures Before(out[i], out[j]) && out[i].rowId != out[j].rowId {
      hide ImportChunkRowId;
      assert Before(kept[i], kept[j]);
      if out[i].rowId == out[j].rowId { ChunkRowIdInjective(w.index, kept[i].rowId, w.index, kept[j].rowId); }
    }
  }

  lemma RebasedIds(kept: seq<Row>, w: Window, id: string)
    requires id in Ids(kept)
    ensures ImportChunkRowId(w.index, id) in Ids(Map(kept, RebasedRow(w, Ids(kept))))
  {
    hide ImportChunkRowId, RebasedRelation;
    var i :| 0 <= i < |kept| && kept[i].rowId == id;
    var out := Map(kept, RebasedRow(w, Ids(kept)));
    assert out[i] in out;
  }

  lemma {:induction false} RebaseOwned(rows: seq<Row>, w: Window, chunkCount: nat)
    requires w.start <= w.end && ParsedBatch(rows, w.end - w.start)
    requires chunkCount > 1 || w.start > 0
    ensures OwnedBatch(RebaseChunkBatch(rows, w, chunkCount), w)
  {
    var kept := Filter(rows, AfterOverlap(w));
    var out := RebaseChunkBatch(rows, w, chunkCount);
    FilterKeepsOrder(rows, AfterOverlap(w));
    FilterKeepsDistinct(rows, AfterOverlap(w));
    RebaseKeepsOrder(kept, w, Ids(kept));
    hide ImportChunkRowId, StrictlyOrdered, DistinctRows;
    forall r | r in out ensures Owns(w, r.imageIndex) && FromChunk(r.rowId, w.index) &&
      (r.relation.Some? ==> r.relation.value.rowId in Ids(out)) {
      var i :| 0 <= i < |out| && out[i] == r;
      assert kept[i] in rows;
      assert r.rowId == ImportChunkRowId(w.index, kept[i].rowId);
      if r.relation.Some? { RebasedIds(kept, w, kept[i].relation.value.rowId); }
    }
  }

  /** The row in the whole import: renamed, shifted, and related only to a row that comes along. */
  predicate Rebased(kept: seq<Row>, w: Window, before: Row, after: Row) {
    && after == before.(rowId := ImportChunkRowId(w.index, before.rowId), imageIndex := before.imageIndex + w.start,
                        relation := after.relation)
    && (after.relation.Some? <==>
      before.relation.Some? && exists t :: t in kept && t.rowId == before.relation.value.rowId)
    && (after.relation.Some? ==>
      after.relation.value ==
        Relation(before.relation.value.kind, ImportChunkRowId(w.index, before.relation.value.rowId)))
  }

  /** Every row behind the lead-in comes along, in its place and with its facts; a window that is the import stays. */
  lemma RebaseKeepsAll(rows: seq<Row>, w: Window, chunkCount: nat)
    ensures var out, kept := RebaseChunkBatch(rows, w, chunkCount),
        Filter(rows, (r: Row) => r.imageIndex >= w.leadOverlap);
      if chunkCount <= 1 && w.start == 0 then out == rows
      else |out| == |kept| && forall i :: 0 <= i < |kept| ==> Rebased(kept, w, kept[i], out[i])
  {
    FilterAgrees(rows, AfterOverlap(w), (r: Row) => r.imageIndex >= w.leadOverlap);
    var kept := Filter(rows, AfterOverlap(w));
    forall id ensures id in Ids(kept) <==> exists t :: t in kept && t.rowId == id { IdsMean(kept, id); }
    hide Filter, ImportChunkRowId, Ids;
  }

  lemma IdsMean(rows: seq<Row>, id: string)
    ensures id in Ids(rows) <==> exists t :: t in rows && t.rowId == id
  {
    if id in Ids(rows) {
      var i :| 0 <= i < |rows| && rows[i].rowId == id;
      assert rows[i] in rows;
    }
  }

  // ---- merging ------------------------------------------------------------------------------------------

  datatype Merged = RepeatedAcrossChunks(rowId: string) | Merged(rows: seq<Row>)

  method MergeChunkBatches(batches: seq<seq<Row>>) returns (r: Merged)
    ensures r.Merged? <==> DistinctRows(Concat(batches))
    ensures r.Merged? ==> r.rows == Sort(Concat(batches), ScreenshotOrder())
  {
    hide *;
    var rows := Concat(batches);
    var repeated := HasRepeatedId(rows);
    if repeated.Some? { return RepeatedAcrossChunks(repeated.value); }
    return Merged(Sort(rows, ScreenshotOrder()));
  }

  /** How one window ended: read, to be tried again, given up for good, or an error that ends the job. */
  datatype ChunkRun = Extracted(batch: seq<Row>) | ToRetry | GivenUp | Rejected

  /** The rows of the windows that were read, in window order. */
  function Collected(windows: seq<Window>, run: Window -> ChunkRun): seq<Row> {
    if windows == [] then []
    else (if run(windows[0]).Extracted? then run(windows[0]).batch else []) + Collected(windows[1..], run)
  }

  ghost predicate OwnBatches(windows: seq<Window>, run: Window -> ChunkRun) {
    forall w :: w in windows && run(w).Extracted? ==> OwnedBatch(run(w).batch, w)
  }

  ghost predicate ReadBy(w: Window, run: Window -> ChunkRun, r: Row) {
    run(w).Extracted? && r in run(w).batch && Owns(w, r.imageIndex) && FromChunk(r.rowId, w.index)
  }

  lemma {:induction false} CollectedOrigin(windows: seq<Window>, run: Window -> ChunkRun, r: Row)
    requires OwnBatches(windows, run) && r in Collected(windows, run)
    ensures exists k :: 0 <= k < |windows| && ReadBy(windows[k], run, r)
  {
    if r in Collected(windows[1..], run) {
      CollectedOrigin(windows[1..], run, r);
      var k :| 0 <= k < |windows| - 1 && ReadBy(windows[1..][k], run, r);
      assert ReadBy(windows[k + 1], run, r);
    } else {
      assert ReadBy(windows[0], run, r);
    }
  }

  lemma {:induction false} CollectedAll(windows: seq<Window>, run: Window -> ChunkRun, k: nat, r: Row)
    requires k < |windows| && run(windows[k]).Extracted? && r in run(windows[k]).batch
    ensures r in Collected(windows, run)
  {
    if k > 0 { CollectedAll(windows[1..], run, k - 1, r); }
  }

  lemma IdOfOneChunk(id: string, i: nat, j: nat)
    requires FromChunk(id, i) && FromChunk(id, j)
    ensures i == j
  {
    var a :| id == ImportChunkRowId(i, a);
    var b :| id == ImportChunkRowId(j, b);
    ChunkRowIdInjective(i, a, j, b);
  }

  /** The batch of the first window goes wholly before, and shares no id with, what later windows read. */
  lemma FirstComesFirst(
    windows: seq<Window>, run: Window -> ChunkRun, lo: nat, hi: nat, firstIndex: nat, a: Row, b: Row)
    requires windows != [] && Tiles(windows, lo, hi, firstIndex) && OwnBatches(windows, run)
    requires run(windows[0]).Extracted? && a in run(windows[0]).batch && b in Collected(windows[1..], run)
    ensures Before(a, b) && a.rowId != b.rowId
  {
    var rest := windows[1..];
    CollectedOrigin(rest, run, b);
    OwnedAfter(rest, windows[0].end, hi, firstIndex + 1);
    hide Tiles, FromChunk, Collected, StrictlyOrdered, DistinctRows, RelationsResolve;
    var k :| 0 <= k < |rest| && ReadBy(rest[k], run, b);
    if a.rowId == b.rowId { IdOfOneChunk(a.rowId, windows[0].index, rest[k].index); }
  }

  lemma Joined(a: seq<Row>, b: seq<Row>)
    requires StrictlyOrdered(a) && StrictlyOrdered(b) && DistinctRows(a) && DistinctRows(b)
    requires forall x, y :: x in a && y in b ==> Before(x, y) && x.rowId != y.rowId
    ensures StrictlyOrdered(a + b) && DistinctRows(a + b)
  {
    hide Before;
  }

  lemma JoinedRelations(a: seq<Row>, b: seq<Row>)
    requires RelationsResolve(a) && RelationsResolve(b)
    ensures RelationsResolve(a + b)
  {
    assert Ids(a + b) == Ids(a) + Ids(b);
  }

  lemma {:induction false} CollectedOrdered(
    windows: seq<Window>, run: Window -> ChunkRun, lo: nat, hi: nat, firstIndex: nat)
    requires Tiles(windows, lo, hi, firstIndex) && OwnBatches(windows, run)
    ensures StrictlyOrdered(Collected(windows, run)) && DistinctRows(Collected(windows, run)) &&
      RelationsResolve(Collected(windows, run))
    decreases |windows|
  {
    if windows != [] {
      var rest := Collected(windows[1..], run);
      CollectedOrdered(windows[1..], run, windows[0].end, hi, firstIndex + 1);
      if run(windows[0]).Extracted? {
        var own := run(windows[0]).batch;
        assert OwnedBatch(own, windows[0]);
        forall x, y | x in own && y in rest ensures Before(x, y) && x.rowId != y.rowId {
          FirstComesFirst(windows, run, lo, hi, firstIndex, x, y);
        }
        hide StrictlyOrdered, DistinctRows, RelationsResolve, Before;
        Joined(own, rest);
        JoinedRelations(own, rest);
      } else {
        assert Collected(windows, run) == rest;
      }
    }
  }

  lemma StrictIsSorted(rows: seq<Row>)
    requires StrictlyOrdered(rows)
    ensures Sort(rows, ScreenshotOrder()) == rows
  {
    assert Ordered(rows, ScreenshotOrder());
    SortOfOrdered(rows, ScreenshotOrder());
  }

  /** What a merged import looks like: rows in strict screenshot order, no dangling relation, and every
      row read by the one window that owns its screenshot. */
  ghost predicate WellMerged(rows: seq<Row>, windows: seq<Window>, imageCount: nat, run: Window -> ChunkRun) {
    && StrictlyOrdered(rows) && DistinctRows(rows) && RelationsResolve(rows)
    && (forall r :: r in rows ==> r.imageIndex < imageCount && ReadByOwner(windows, run, r))
    && (forall k, r :: 0 <= k < |windows| && run(windows[k]).Extracted? && r in run(windows[k]).batch ==> r in rows)
  }

  ghost predicate ReadByOwner(windows: seq<Window>, run: Window -> ChunkRun, r: Row) {
    var owner := ImportChunkIndexOf(r.imageIndex, windows);
    owner < |windows| && windows[owner].index == owner && ReadBy(windows[owner], run, r)
  }

  lemma OriginIsOwner(windows: seq<Window>, imageCount: nat, run: Window -> ChunkRun, r: Row)
    requires Tiles(windows, 0, imageCount, 0) && OwnBatches(windows, run) && r in Collected(windows, run)
    ensures r.imageIndex < imageCount && ReadByOwner(windows, run, r)
  {
    CollectedOrigin(windows, run, r);
    OwnedAfter(windows, 0, imageCount, 0);
    hide Tiles, FromChunk, Collected, OwnBatches;
    var k :| 0 <= k < |windows| && ReadBy(windows[k], run, r);
    OwnerIsUnique(windows, imageCount, r.imageIndex);
  }

  lemma {:induction false} MergeIsSafe(windows: seq<Window>, imageCount: nat, run: Window -> ChunkRun)
    requires Tiles(windows, 0, imageCount, 0) && OwnBatches(windows, run)
    ensures Sort(Collected(windows, run), ScreenshotOrder()) == Collected(windows, run)
    ensures WellMerged(Collected(windows, run), windows, imageCount, run)
  {
    var rows := Collected(windows, run);
    CollectedOrdered(windows, run, 0, imageCount, 0);
    StrictIsSorted(rows);
    hide *;
    forall r | r in rows ensures r.imageIndex < imageCount && ReadByOwner(windows, run, r) {
      OriginIsOwner(windows, imageCount, run, r);
    }
    forall k, r | 0 <= k < |windows| && run(windows[k]).Extracted? && r in run(windows[k]).batch ensures r in rows {
      CollectedAll(windows, run, k, r);
    }
    MergedFacts(rows, windows, imageCount, run);
  }

  lemma MergedFacts(rows: seq<Row>, windows: seq<Window>, imageCount: nat, run: Window -> ChunkRun)
    requires StrictlyOrdered(rows) && DistinctRows(rows) && RelationsResolve(rows)
    requires forall r :: r in rows ==> r.imageIndex < imageCount && ReadByOwner(windows, run, r)
    requires forall k, r :: 0 <= k < |windows| && run(windows[k]).Extracted? && r in run(windows[k]).batch ==> r in rows
    ensures WellMerged(rows, windows, imageCount, run)
  {
  }
}
